/**
 * The class form of the relay (src/lib/socket/socketServer.ts).  It keeps
 * the same registry as server.js but holds the socket.io server in a field
 * that starts out null, guards its handlers on it, and re-emits presses and
 * releases under their own names, `keyPress` and `keyRelease`.
 */
module SocketServerTs {
  import opened Wrappers
  import opened NoteNames
  import opened Transport

  class SocketServer {
    /** Whether `io` holds a server (it is null until `initialize`). */
    var io: bool
    /** Whether the `connection` handler has been registered on `io`. */
    var handlersInstalled: bool
    /** The `users` map, in insertion order. */
    var users: Registry
    /** The sockets connected to `io`. */
    var connected: set<string>
    /** What each socket has been sent. */
    var outbox: Outboxes

    /**
     * Handlers exist only on a server; each connected socket has one entry
     * under its own id with a palette color.
     */
    ghost predicate Valid()
      reads this
    {
      (handlersInstalled ==> io) &&
      DistinctIds(users) && IdsOf(users) == connected &&
      forall i :: 0 <= i < |users| ==> users[i].color in UserColors
    }

    /** The singleton as constructed: no server, no handlers, no users. */
    constructor ()
      ensures Valid()
      ensures !io && !handlersInstalled
      ensures users == [] && connected == {} && outbox == map[]
    {
      io := false;
      handlersInstalled := false;
      users := [];
      connected := {};
      outbox := map[];
    }

    /** `initialize`: create the server, then install the handlers on it. */
    method Initialize()
      requires Valid()
      modifies this
      ensures Valid()
      ensures io && handlersInstalled
      ensures users == old(users) && connected == old(connected) && outbox == old(outbox)
    {
      io := true;
      SetupEventHandlers();
    }

    /** `setupEventHandlers`: registers the `connection` handler, or does nothing with no server. */
    method SetupEventHandlers()
      requires Valid()
      modifies this
      ensures Valid()
      ensures handlersInstalled == (old(handlersInstalled) || io)
      ensures io == old(io) && users == old(users) && connected == old(connected) && outbox == old(outbox)
    {
      if !io {
        return;
      }
      handlersInstalled := true;
    }

    /** The presence list: `users.values()` projected to `{id, color}`. */
    function PresenceMessage(): Message
      reads this
    {
      Message("userPresence", Roster(Snapshot(users)))
    }

    /** `broadcastUserPresence`: the presence list to every socket, or nothing with no server. */
    method BroadcastUserPresence()
      modifies this
      ensures io == old(io) && handlersInstalled == old(handlersInstalled)
      ensures users == old(users) && connected == old(connected)
      ensures outbox == if io then Post(old(outbox), connected, PresenceMessage()) else old(outbox)
    {
      if !io {
        return;
      }
      outbox := Post(outbox, connected, Message("userPresence", Roster(Snapshot(users))));
    }

    /**
     * A client `id` connecting, with `pick` standing for the random palette
     * index.  Without an installed handler nothing listens and nothing
     * happens; otherwise the user is recorded, told its color, and the
     * presence list goes to all.
     */
    method OnConnection(id: string, pick: nat, at: nat)
      requires Valid() && id !in connected && pick < |UserColors|
      modifies this
      ensures Valid()
      ensures io == old(io) && handlersInstalled == old(handlersInstalled)
      ensures !handlersInstalled ==>
                users == old(users) && connected == old(connected) && outbox == old(outbox)
      ensures handlersInstalled ==>
                connected == old(connected) + {id} &&
                users == old(users) + [ConnectedUser(id, GenerateUserColor(pick), at)] &&
                outbox == Post(Post(old(outbox), {id}, Message("userInfo", Identity(id, GenerateUserColor(pick)))),
                               connected, PresenceMessage())
      ensures handlersInstalled ==> Lookup(users, id) == Some(ConnectedUser(id, GenerateUserColor(pick), at))
      ensures forall x :: x != id ==> Lookup(users, x) == old(Lookup(users, x))
    {
      if !handlersInstalled {
        return;
      }
      var userColor := GenerateUserColor(pick);
      connected := connected + {id};
      var before := users;
      users := MapSet(users, ConnectedUser(id, userColor, at));
      MapSetDistinct(before, ConnectedUser(id, userColor, at));
      forall x ensures Lookup(users, x) == if x == id then Some(ConnectedUser(id, userColor, at)) else Lookup(before, x) {
        MapSetLookup(before, ConnectedUser(id, userColor, at), x);
      }
      outbox := Post(outbox, {id}, Message("userInfo", Identity(id, userColor)));
      BroadcastUserPresence();
    }

    /** The color the press handler's closure holds for `id`: the one it was given on connection. */
    function ColorOf(id: string): (c: string)
      requires Valid() && id in connected
      reads this
      ensures c in UserColors
      ensures Lookup(users, id).Some? && Lookup(users, id).value.color == c
    {
      Lookup(users, id).value.color
    }

    /** `keyPress` from `sender`: re-emitted as `keyPress` to every other socket. */
    method OnKeyPress(sender: string, data: Payload)
      requires Valid() && handlersInstalled && sender in connected
      modifies this
      ensures Valid()
      ensures io == old(io) && handlersInstalled == old(handlersInstalled)
      ensures users == old(users) && connected == old(connected)
      ensures outbox == Post(old(outbox), connected - {sender},
                             Message("keyPress", Data(PressPayload(data, sender, old(ColorOf(sender))))))
    {
      var userColor := Lookup(users, sender).value.color;
      outbox := Post(outbox, connected - {sender}, Message("keyPress", Data(PressPayload(data, sender, userColor))));
    }

    /** `keyRelease` from `sender`: re-emitted as `keyRelease` to every other socket. */
    method OnKeyRelease(sender: string, data: Payload)
      requires Valid() && handlersInstalled && sender in connected
      modifies this
      ensures Valid()
      ensures io == old(io) && handlersInstalled == old(handlersInstalled)
      ensures users == old(users) && connected == old(connected)
      ensures outbox == Post(old(outbox), connected - {sender}, Message("keyRelease", Data(ReleasePayload(data, sender))))
    {
      outbox := Post(outbox, connected - {sender}, Message("keyRelease", Data(ReleasePayload(data, sender))));
    }

    /** `disconnect` of `id`: its entry is deleted and presence goes to the sockets that remain. */
    method OnDisconnect(id: string)
      requires Valid() && handlersInstalled && id in connected
      modifies this
      ensures Valid()
      ensures io == old(io) && handlersInstalled == old(handlersInstalled)
      ensures connected == old(connected) - {id}
      ensures users == MapDelete(old(users), id)
      ensures outbox == Post(old(outbox), connected, PresenceMessage())
      ensures forall x :: x != id ==> Lookup(users, x) == old(Lookup(users, x))
    {
      connected := connected - {id};
      var before := users;
      users := MapDelete(users, id);
      MapDeleteDistinct(before, id);
      DeleteKeepsColors(before, id, UserColors);
      forall x | x != id ensures Lookup(users, x) == Lookup(before, x) {
        MapDeleteLookup(before, id, x);
      }
      BroadcastUserPresence();
    }
  }
}
