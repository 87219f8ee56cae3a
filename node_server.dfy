/**
 * The standalone relay server (server.js): the module-level `users` map
 * and the handlers of one socket.io connection.  socket.io itself is a set
 * of connected socket ids and one outbox per socket; `socket.emit` posts to
 * the socket itself, `io.emit` to every connected socket and
 * `socket.broadcast.emit` to every connected socket but the sender.
 */
module NodeServer {
  import opened Wrappers
  import opened NoteNames
  import opened Transport

  class RelayServer {
    /** The `users` map: socket id to `{id, color, connectedAt}`, in connection order. */
    var users: Registry
    /** The sockets socket.io holds as connected. */
    var connected: set<string>
    /** What each socket has been sent. */
    var outbox: Outboxes

    /** Each connected socket has exactly one entry, under its own id, with a palette color. */
    ghost predicate Valid()
      reads this
    {
      DistinctIds(users) && IdsOf(users) == connected &&
      forall i :: 0 <= i < |users| ==> users[i].color in UserColors
    }

    constructor ()
      ensures Valid()
      ensures users == [] && connected == {} && outbox == map[]
    {
      users := [];
      connected := {};
      outbox := map[];
    }

    /** The presence list sent by `broadcastUserPresence`. */
    function PresenceMessage(): Message
      reads this
    {
      Message("userPresence", Roster(Snapshot(users)))
    }

    /** `broadcastUserPresence`: the presence list, to every connected socket. */
    method BroadcastUserPresence()
      modifies this
      ensures users == old(users) && connected == old(connected)
      ensures outbox == Post(old(outbox), connected, PresenceMessage())
    {
      outbox := Post(outbox, connected, Message("userPresence", Roster(Snapshot(users))));
    }

    /**
     * The `connection` handler for socket `id`: record the user with the
     * color `pick` selects from the palette, send it `userInfo`, then the
     * presence list to everyone.
     */
    method OnConnection(id: string, pick: nat, at: nat)
      requires Valid() && id !in connected && pick < |UserColors|
      modifies this
      ensures Valid()
      ensures connected == old(connected) + {id}
      ensures users == old(users) + [ConnectedUser(id, GenerateUserColor(pick), at)]
      ensures outbox == Post(Post(old(outbox), {id}, Message("userInfo", Identity(id, GenerateUserColor(pick)))),
                             connected, PresenceMessage())
      ensures Lookup(users, id) == Some(ConnectedUser(id, GenerateUserColor(pick), at))
      ensures forall x :: x != id ==> Lookup(users, x) == old(Lookup(users, x))
    {
      var userColor := GenerateUserColor(pick);
      connected := connected + {id};
      var before := users;
      users := MapSet(users, ConnectedUser(id, userColor, at));
      MapSetDistinct(before, ConnectedUser(id, userColor, at));
      forall x ensures Lookup(users, x) == if x == id then Some(ConnectedUser(id, userColor, at)) else Lookup(before, x) {
        MapSetLookup(before, ConnectedUser(id, userColor, at), x);
      }
      outbox := Post(outbox, {id}, Message("userInfo", Identity(id, userColor)));
      BroadcastUserPresence();
    }

    /** The color `id` was given when it connected; the press handler's closure holds the same. */
    function ColorOf(id: string): (c: string)
      requires Valid() && id in connected
      reads this
      ensures c in UserColors
      ensures Lookup(users, id).Some? && Lookup(users, id).value.color == c
    {
      Lookup(users, id).value.color
    }

    /** `notePress` from `sender`: relayed as `remoteNotePress` to every other socket. */
    method OnNotePress(sender: string, data: Payload)
      requires Valid() && sender in connected
      modifies this
      ensures Valid()
      ensures users == old(users) && connected == old(connected)
      ensures outbox == Post(old(outbox), connected - {sender},
                             Message("remoteNotePress", Data(PressPayload(data, sender, old(ColorOf(sender))))))
    {
      var userColor := Lookup(users, sender).value.color;
      outbox := Post(outbox, connected - {sender}, Message("remoteNotePress", Data(PressPayload(data, sender, userColor))));
    }

    /** `noteRelease` from `sender`: relayed as `remoteNoteRelease` to every other socket. */
    method OnNoteRelease(sender: string, data: Payload)
      requires Valid() && sender in connected
      modifies this
      ensures Valid()
      ensures users == old(users) && connected == old(connected)
      ensures outbox == Post(old(outbox), connected - {sender}, Message("remoteNoteRelease", Data(ReleasePayload(data, sender))))
    {
      outbox := Post(outbox, connected - {sender}, Message("remoteNoteRelease", Data(ReleasePayload(data, sender))));
    }

    /**
     * `disconnect` of `id`: socket.io has already dropped the socket; its
     * entry is deleted and the presence list goes to the sockets that remain.
     */
    method OnDisconnect(id: string)
      requires Valid() && id in connected
      modifies this
      ensures Valid()
      ensures connected == old(connected) - {id}
      ensures users == MapDelete(old(users), id)
      ensures outbox == Post(old(outbox), connected, PresenceMessage())
      ensures forall x :: x != id ==> Lookup(users, x) == old(Lookup(users, x))
    {
      connected := connected - {id};
      var before := users;
      users := MapDelete(users, id);
      MapDeleteDistinct(before, id);
      DeleteKeepsColors(before, id, UserColors);
      forall x | x != id ensures Lookup(users, x) == Lookup(before, x) {
        MapDeleteLookup(before, id, x);
      }
      BroadcastUserPresence();
    }
  }
}
