/**
 * What both relay servers (server.js and src/lib/socket/socketServer.ts)
 * share: the JSON payloads they pass on, the messages they send, one
 * outbox per socket standing for socket.io's delivery, and the connection
 * registry, a JavaScript `Map` from socket id to the user record.
 */
module Transport {
  import opened Wrappers

  // ---------------------------------------------------------------------------
  // Payloads
  // ---------------------------------------------------------------------------

  /** A JSON value as far as the relay handles it: it never looks inside. */
  datatype Value = Str(s: string) | Num(n: real) | Bool(b: bool) | Null

  /** A JSON object: field name to value. */
  type Payload = map<string, Value>

  /**
   * The object spread `{...data, ...extra}`: every field of `extra`, and
   * every field of `data` that `extra` does not name.
   */
  function Spread(data: Payload, extra: Payload): (r: Payload)
    ensures r.Keys == data.Keys + extra.Keys
    ensures forall k :: k in extra ==> r[k] == extra[k]
    ensures forall k :: k in data && k !in extra ==> r[k] == data[k]
  {
    data + extra
  }

  /** The object relayed for a press: the data, then `userId` and `color`, which win over same-named fields. */
  function PressPayload(data: Payload, sender: string, color: string): (p: Payload)
    ensures p.Keys == data.Keys + {"userId", "color"}
    ensures p["userId"] == Str(sender) && p["color"] == Str(color)
    ensures forall k :: k in data && k != "userId" && k != "color" ==> p[k] == data[k]
  {
    Spread(data, map["userId" := Str(sender), "color" := Str(color)])
  }

  /** The object relayed for a release: the data, then `userId`; no color is added. */
  function ReleasePayload(data: Payload, sender: string): (p: Payload)
    ensures p.Keys == data.Keys + {"userId"}
    ensures p["userId"] == Str(sender)
    ensures forall k :: k in data && k != "userId" ==> p[k] == data[k]
  {
    Spread(data, map["userId" := Str(sender)])
  }

  // ---------------------------------------------------------------------------
  // Messages and outboxes
  // ---------------------------------------------------------------------------

  /** The `{id, color}` records of a presence list. */
  datatype Presence = Presence(id: string, color: string)

  /** What a message carries: the user's own record, a roster, or a relayed object. */
  datatype Body = Identity(id: string, color: string) | Roster(users: seq<Presence>) | Data(payload: Payload)

  /** An emitted message: event name and body. */
  datatype Message = Message(event: string, body: Body)

  /** Every socket's outbox: the messages emitted to it, oldest first. */
  type Outboxes = map<string, seq<Message>>

  /** The messages emitted so far to socket `id`. */
  function Inbox(outbox: Outboxes, id: string): seq<Message>
  {
    if id in outbox then outbox[id] else []
  }

  /** Emitting `m` to every socket in `to`, each receiving one copy. */
  function Post(outbox: Outboxes, to: set<string>, m: Message): (r: Outboxes)
    ensures r.Keys == outbox.Keys + to
  {
    map id | id in outbox.Keys + to :: Inbox(outbox, id) + (if id in to then [m] else [])
  }

  /** Each recipient gets `m` appended once; every other socket's outbox stays as it was. */
  lemma PostDelivers(outbox: Outboxes, to: set<string>, m: Message, id: string)
    ensures id in to ==> Inbox(Post(outbox, to, m), id) == Inbox(outbox, id) + [m]
    ensures id !in to ==> Inbox(Post(outbox, to, m), id) == Inbox(outbox, id)
  {
  }

  /**
   * A direct send followed by a broadcast, as on connection: the socket
   * receives the first message and then the second, in that order.
   */
  lemma PostThenBroadcast(outbox: Outboxes, id: string, to: set<string>, first: Message, second: Message)
    requires id in to
    ensures Inbox(Post(Post(outbox, {id}, first), to, second), id) == Inbox(outbox, id) + [first, second]
  {
    PostDelivers(outbox, {id}, first, id);
    PostDelivers(Post(outbox, {id}, first), to, second, id);
  }

  // ---------------------------------------------------------------------------
  // The connection registry
  // ---------------------------------------------------------------------------

  /** The record stored per connection; `connectedAt` is an opaque timestamp. */
  datatype ConnectedUser = ConnectedUser(id: string, color: string, connectedAt: nat)

  /** A JavaScript `Map` from socket id to record, in insertion order. */
  type Registry = seq<ConnectedUser>

  ghost predicate DistinctIds(r: Registry)
  {
    forall i, j :: 0 <= i < j < |r| ==> r[i].id != r[j].id
  }

  function IdsOf(r: Registry): set<string>
  {
    set i | 0 <= i < |r| :: r[i].id
  }

  /** `Map.get`. */
  function Lookup(r: Registry, id: string): (u: Option<ConnectedUser>)
    ensures u.Some? ==> u.value in r && u.value.id == id
    ensures u.None? <==> id !in IdsOf(r)
  {
    if r == [] then None
    else if r[0].id == id then Some(r[0])
    else
      var u := Lookup(r[1..], id);
      assert IdsOf(r) == {r[0].id} + IdsOf(r[1..]) by { IdsOfCons(r); }
      u
  }

  lemma IdsOfCons(r: Registry)
    requires r != []
    ensures IdsOf(r) == {r[0].id} + IdsOf(r[1..])
  {
    forall x | x in IdsOf(r) ensures x in {r[0].id} + IdsOf(r[1..]) {
      var i :| 0 <= i < |r| && r[i].id == x;
      if i > 0 {
        assert r[1..][i - 1] == r[i];
      }
    }
    forall x | x in IdsOf(r[1..]) ensures x in IdsOf(r) {
      var i :| 0 <= i < |r[1..]| && r[1..][i].id == x;
      assert r[i + 1] == r[1..][i];
    }
  }

  /**
   * `Map.set`: an existing key keeps its place and takes the new value; a
   * new key goes at the end.
   */
  function MapSet(r: Registry, u: ConnectedUser): (r': Registry)
    ensures u.id !in IdsOf(r) ==> r' == r + [u]
    ensures IdsOf(r') == IdsOf(r) + {u.id}
    ensures |r'| == if u.id in IdsOf(r) then |r| else |r| + 1
  {
    if r == [] then
      assert IdsOf([u]) == {u.id} by { assert [u][0].id == u.id; }
      [u]
    else
      IdsOfCons(r);
      if r[0].id == u.id then
        IdsOfCons([u] + r[1..]);
        assert ([u] + r[1..])[1..] == r[1..];
        [u] + r[1..]
      else
        var rest := MapSet(r[1..], u);
        IdsOfCons([r[0]] + rest);
        assert ([r[0]] + rest)[1..] == rest;
        assert r == [r[0]] + r[1..];
        [r[0]] + rest
  }

  /** After `Map.set`, the key reads the new record and every other key reads what it did. */
  lemma {:induction false} MapSetLookup(r: Registry, u: ConnectedUser, id: string)
    ensures Lookup(MapSet(r, u), id) == if id == u.id then Some(u) else Lookup(r, id)
  {
    if r != [] {
      if r[0].id == u.id {
        assert ([u] + r[1..])[1..] == r[1..];
      } else {
        MapSetLookup(r[1..], u, id);
        assert ([r[0]] + MapSet(r[1..], u))[1..] == MapSet(r[1..], u);
      }
    }
  }

  lemma {:induction false} MapSetDistinct(r: Registry, u: ConnectedUser)
    requires DistinctIds(r)
    ensures DistinctIds(MapSet(r, u))
  {
    if u.id !in IdsOf(r) {
      var r' := r + [u];
      forall i, j | 0 <= i < j < |r'| ensures r'[i].id != r'[j].id {
        if j == |r| {
          assert r'[i] == r[i];
        }
      }
    } else if r[0].id != u.id {
      IdsOfCons(r);
      MapSetDistinct(r[1..], u);
      var rest := MapSet(r[1..], u);
      var r' := [r[0]] + rest;
      forall i, j | 0 <= i < j < |r'| ensures r'[i].id != r'[j].id {
        if i == 0 {
          assert r'[j] == rest[j - 1];
          assert rest[j - 1].id in IdsOf(rest);
          if rest[j - 1].id == u.id {
          } else {
            var k :| 0 <= k < |r[1..]| && r[1..][k].id == rest[j - 1].id;
            assert r[k + 1] == r[1..][k];
          }
        } else {
          assert r'[i] == rest[i - 1] && r'[j] == rest[j - 1];
        }
      }
    } else {
      var r' := [u] + r[1..];
      forall i, j | 0 <= i < j < |r'| ensures r'[i].id != r'[j].id {
        assert r'[j] == r[j];
        if i > 0 {
          assert r'[i] == r[i];
        }
      }
    }
  }

  /** `Map.delete`: the entry with that key goes; the others keep their order. */
  function MapDelete(r: Registry, id: string): (r': Registry)
    ensures IdsOf(r') == IdsOf(r) - {id}
    ensures |r'| <= |r|
  {
    if r == [] then []
    else
      IdsOfCons(r);
      var rest := MapDelete(r[1..], id);
      if r[0].id == id then rest
      else
        IdsOfCons([r[0]] + rest);
        assert ([r[0]] + rest)[1..] == rest;
        [r[0]] + rest
  }

  /** Deleting a key of a map with distinct keys removes exactly its entry, at its place. */
  lemma {:induction false} MapDeleteAt(r: Registry, i: nat)
    requires DistinctIds(r) && i < |r|
    ensures MapDelete(r, r[i].id) == r[..i] + r[i + 1..]
  {
    var id := r[i].id;
    if i == 0 {
      MapDeleteAbsent(r[1..], id);
      assert r[..0] + r[1..] == r[1..];
    } else {
      MapDeleteAt(r[1..], i - 1);
      assert r[1..][i - 1] == r[i];
      assert r[0].id != id;
      assert r[1..][..i - 1] == r[1..i];
      assert r[1..][i..] == r[i + 1..];
      assert [r[0]] + r[1..i] == r[..i];
    }
  }

  lemma {:induction false} MapDeleteAbsent(r: Registry, id: string)
    requires forall k :: 0 <= k < |r| ==> r[k].id != id
    ensures MapDelete(r, id) == r
  {
    if r != [] {
      MapDeleteAbsent(r[1..], id);
      assert r == [r[0]] + r[1..];
    }
  }

  /** Deleting one key leaves every other key's record as it was. */
  lemma {:induction false} MapDeleteLookup(r: Registry, gone: string, id: string)
    requires id != gone
    ensures Lookup(MapDelete(r, gone), id) == Lookup(r, id)
  {
    if r != [] {
      MapDeleteLookup(r[1..], gone, id);
      if r[0].id != gone {
        assert ([r[0]] + MapDelete(r[1..], gone))[1..] == MapDelete(r[1..], gone);
      }
    }
  }

  lemma {:induction false} MapDeleteDistinct(r: Registry, id: string)
    requires DistinctIds(r)
    ensures DistinctIds(MapDelete(r, id))
  {
    if id in IdsOf(r) {
      var i :| 0 <= i < |r| && r[i].id == id;
      MapDeleteAt(r, i);
      var r' := r[..i] + r[i + 1..];
      forall a, b | 0 <= a < b < |r'| ensures r'[a].id != r'[b].id {
        var a' := if a < i then a else a + 1;
        var b' := if b < i then b else b + 1;
        assert r'[a] == r[a'] && r'[b] == r[b'];
      }
    } else {
      MapDeleteAbsent(r, id);
    }
  }

  /** Deleting keeps a property every record had, here a color from a palette. */
  lemma DeleteKeepsColors(r: Registry, id: string, palette: seq<string>)
    requires forall i :: 0 <= i < |r| ==> r[i].color in palette
    ensures forall i :: 0 <= i < |MapDelete(r, id)| ==> MapDelete(r, id)[i].color in palette
  {
    var r' := MapDelete(r, id);
    forall i | 0 <= i < |r'| ensures r'[i].color in palette {
      DeleteSubset(r, id, i);
    }
  }

  /** Every record left after a delete was in the registry before. */
  lemma {:induction false} DeleteSubset(r: Registry, id: string, i: nat)
    requires i < |MapDelete(r, id)|
    ensures MapDelete(r, id)[i] in r
  {
    if r != [] {
      if r[0].id == id {
        DeleteSubset(r[1..], id, i);
      } else if i > 0 {
        DeleteSubset(r[1..], id, i - 1);
        assert MapDelete(r, id)[i] == MapDelete(r[1..], id)[i - 1];
      }
    }
  }

  /** `Array.from(users.values()).map(u => ({id: u.id, color: u.color}))`. */
  function Snapshot(r: Registry): (s: seq<Presence>)
    ensures |s| == |r|
    ensures forall i :: 0 <= i < |s| ==> s[i].id in IdsOf(r)
  {
    if r == [] then [] else [Presence(r[0].id, r[0].color)] + Snapshot(r[1..])
  }

  /** The presence list has one record per entry, in map order, with the entry's id and color. */
  lemma {:induction false} SnapshotEntries(r: Registry)
    ensures |Snapshot(r)| == |r|
    ensures forall i :: 0 <= i < |r| ==> Snapshot(r)[i] == Presence(r[i].id, r[i].color)
  {
    if r != [] {
      SnapshotEntries(r[1..]);
      forall i | 0 < i < |r| ensures Snapshot(r)[i] == Presence(r[i].id, r[i].color) {
        assert Snapshot(r)[i] == Snapshot(r[1..])[i - 1];
        assert r[1..][i - 1] == r[i];
      }
    }
  }

  /** Over a registry with distinct keys the presence list has no duplicate id. */
  lemma SnapshotDistinct(r: Registry)
    requires DistinctIds(r)
    ensures forall i, j :: 0 <= i < j < |Snapshot(r)| ==> Snapshot(r)[i].id != Snapshot(r)[j].id
  {
    SnapshotEntries(r);
  }
}
