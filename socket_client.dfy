/**
 * The browser-side connection (src/lib/socket/socketClient.ts): a socket
 * that is present or absent and a connected flag, with guarded connect,
 * emit and disconnect.  The transport is abstract: a socket is a handle
 * number, the listeners registered on the current socket are a list, and
 * every emit is appended to a log together with the socket it went out on.
 */
module SocketClientTs {
  import opened Wrappers
  import opened Transport

  /** Which code a listener runs: one of the three built-in ones or a caller's callback. */
  datatype Handler = SetConnected | ClearConnected | LogError | Callback(tag: nat)

  datatype Listener = Listener(event: string, handler: Handler)

  /** An emitted message and the socket it was emitted on. */
  datatype Emitted = Emitted(socket: nat, message: Message)

  /** What `setupEventListeners` registers on a new socket, in order. */
  function BuiltInListeners(): seq<Listener>
  {
    [Listener("connect", SetConnected), Listener("disconnect", ClearConnected), Listener("error", LogError)]
  }

  /** The payload of `emitKeyPress`: exactly `note`, `octave` and `velocity`. */
  function KeyPressPayload(note: string, octave: real, velocity: real): (p: Payload)
    ensures p.Keys == {"note", "octave", "velocity"}
    ensures p["note"] == Str(note) && p["octave"] == Num(octave) && p["velocity"] == Num(velocity)
  {
    map["note" := Str(note), "octave" := Num(octave), "velocity" := Num(velocity)]
  }

  /** The payload of `emitKeyRelease`: exactly `note` and `octave`. */
  function KeyReleasePayload(note: string, octave: real): (p: Payload)
    ensures p.Keys == {"note", "octave"}
    ensures p["note"] == Str(note) && p["octave"] == Num(octave)
  {
    map["note" := Str(note), "octave" := Num(octave)]
  }

  class SocketClient {
    /** The current socket, or none (`null`). */
    var socket: Option<nat>
    var isConnected: bool
    /** The listeners registered on the current socket, oldest first. */
    var listeners: seq<Listener>
    /** Every message emitted, on any socket, oldest first. */
    var sent: seq<Emitted>
    /** How many sockets have been created; the next one gets this number. */
    var created: nat

    /**
     * The connected flag is only set while a socket exists, a socket was
     * created by `connect`, and a new socket starts with the built-in
     * listeners.
     */
    ghost predicate Valid()
      reads this
    {
      (isConnected ==> socket.Some?) &&
      (socket.Some? ==> socket.value < created && |listeners| >= 3 && listeners[..3] == BuiltInListeners()) &&
      (socket.None? ==> listeners == [])
    }

    constructor ()
      ensures Valid()
      ensures socket == None && !isConnected && listeners == [] && sent == [] && created == 0
    {
      socket := None;
      isConnected := false;
      listeners := [];
      sent := [];
      created := 0;
    }

    /**
     * `connect`: with a socket already present nothing changes; otherwise
     * a new socket is created and given the built-in listeners, and the
     * flag stays false until the transport reports the connection.
     */
    method Connect()
      requires Valid()
      modifies this
      ensures Valid()
      ensures sent == old(sent)
      ensures old(socket).Some? ==>
                socket == old(socket) && isConnected == old(isConnected) &&
                listeners == old(listeners) && created == old(created)
      ensures old(socket).None? ==>
                socket == Some(old(created)) && created == old(created) + 1 &&
                !isConnected && listeners == BuiltInListeners()
    {
      if socket.Some? {
        return;
      }
      socket := Some(created);
      created := created + 1;
      SetupEventListeners();
    }

    /** `setupEventListeners`: the three built-in listeners, or nothing with no socket. */
    method SetupEventListeners()
      requires socket.None? ==> listeners == []
      modifies this
      ensures socket == old(socket) && isConnected == old(isConnected)
      ensures sent == old(sent) && created == old(created)
      ensures listeners == if socket.Some? then old(listeners) + BuiltInListeners() else old(listeners)
    {
      if socket.None? {
        return;
      }
      listeners := listeners + BuiltInListeners();
    }

    /** The current socket's `connect` listener: the flag becomes true. */
    method ConnectEvent()
      requires Valid() && socket.Some?
      modifies this
      ensures Valid()
      ensures isConnected
      ensures socket == old(socket) && listeners == old(listeners) && sent == old(sent) && created == old(created)
    {
      isConnected := true;
    }

    /** The current socket's `disconnect` listener: the flag becomes false. */
    method DisconnectEvent()
      requires Valid() && socket.Some?
      modifies this
      ensures Valid()
      ensures !isConnected
      ensures socket == old(socket) && listeners == old(listeners) && sent == old(sent) && created == old(created)
    {
      isConnected := false;
    }

    /** `emitKeyPress`: sent only with a socket that is connected, otherwise dropped. */
    method EmitKeyPress(note: string, octave: real, velocity: real)
      requires Valid()
      modifies this
      ensures Valid()
      ensures socket == old(socket) && isConnected == old(isConnected)
      ensures listeners == old(listeners) && created == old(created)
      ensures sent == if socket.Some? && isConnected
                      then old(sent) + [Emitted(socket.value, Message("keyPress", Data(KeyPressPayload(note, octave, velocity))))]
                      else old(sent)
    {
      if socket.None? || !isConnected {
        return;
      }
      sent := sent + [Emitted(socket.value, Message("keyPress", Data(KeyPressPayload(note, octave, velocity))))];
    }

    /** `emitKeyRelease`: sent only with a socket that is connected, otherwise dropped. */
    method EmitKeyRelease(note: string, octave: real)
      requires Valid()
      modifies this
      ensures Valid()
      ensures socket == old(socket) && isConnected == old(isConnected)
      ensures listeners == old(listeners) && created == old(created)
      ensures sent == if socket.Some? && isConnected
                      then old(sent) + [Emitted(socket.value, Message("keyRelease", Data(KeyReleasePayload(note, octave))))]
                      else old(sent)
    {
      if socket.None? || !isConnected {
        return;
      }
      sent := sent + [Emitted(socket.value, Message("keyRelease", Data(KeyReleasePayload(note, octave))))];
    }

    /** `socket?.on(event, callback)`: registered on the current socket, or nowhere. */
    method Subscribe(event: string, tag: nat)
      requires Valid()
      modifies this
      ensures Valid()
      ensures socket == old(socket) && isConnected == old(isConnected)
      ensures sent == old(sent) && created == old(created)
      ensures listeners == if socket.Some? then old(listeners) + [Listener(event, Callback(tag))] else old(listeners)
    {
      if socket.None? {
        return;
      }
      listeners := listeners + [Listener(event, Callback(tag))];
      assert listeners[..3] == old(listeners)[..3];
    }

    /** `onKeyPress`. */
    method OnKeyPress(tag: nat)
      requires Valid()
      modifies this
      ensures Valid()
      ensures socket == old(socket) && isConnected == old(isConnected)
      ensures sent == old(sent) && created == old(created)
      ensures listeners == if socket.Some? then old(listeners) + [Listener("keyPress", Callback(tag))] else old(listeners)
    {
      Subscribe("keyPress", tag);
    }

    /** `onKeyRelease`. */
    method OnKeyRelease(tag: nat)
      requires Valid()
      modifies this
      ensures Valid()
      ensures socket == old(socket) && isConnected == old(isConnected)
      ensures sent == old(sent) && created == old(created)
      ensures listeners == if socket.Some? then old(listeners) + [Listener("keyRelease", Callback(tag))] else old(listeners)
    {
      Subscribe("keyRelease", tag);
    }

    /** `onUserPresence`. */
    method OnUserPresence(tag: nat)
      requires Valid()
      modifies this
      ensures Valid()
      ensures socket == old(socket) && isConnected == old(isConnected)
      ensures sent == old(sent) && created == old(created)
      ensures listeners == if socket.Some? then old(listeners) + [Listener("userPresence", Callback(tag))] else old(listeners)
    {
      Subscribe("userPresence", tag);
    }

    /**
     * `disconnect`: with a socket, the socket is closed and dropped and the
     * flag cleared (its listeners go with it); with none, nothing changes.
     */
    method Disconnect()
      requires Valid()
      modifies this
      ensures Valid()
      ensures sent == old(sent) && created == old(created)
      ensures old(socket).None? ==> socket == None && isConnected == old(isConnected) && listeners == old(listeners)
      ensures old(socket).Some? ==> socket == None && !isConnected && listeners == []
    {
      if socket.Some? {
        socket := None;
        isConnected := false;
        listeners := [];
      }
    }

    /** `getConnectionStatus`: the flag, which is only ever true while a socket exists. */
    method GetConnectionStatus() returns (r: bool)
      requires Valid()
      ensures r == isConnected
      ensures r ==> socket.Some?
    {
      r := isConnected;
    }
  }
}
