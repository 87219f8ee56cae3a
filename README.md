# socket-mellotron, modelled in Dafny

socket-mellotron is a browser Mellotron that many people can play at once. Each browser plays sampled notes. A socket.io relay passes key presses and releases, plus a list of who is online, between the players. This project models the logic at its core and proves properties of it:

- **Note names** (`src/lib/utils.ts`). MIDI numbers are converted to names such as `C4` and `A#5`. Names are read back with the pattern `/([A-G]#?)(\d+)/`, and 60 is the default when nothing matches. A player's color comes from an eight-entry palette.
- **Sound banks** (`src/lib/audio/soundBanks.ts`):
  - the three-octave sample map built by two nested loops;
  - the two-note minimal map;
  - the literal strings map, where `#` is written `%23`;
  - the table of four banks and the lookup by id.
- **The relay**, in two copies:
  - the standalone server `server.js`, which relays `notePress` as `remoteNotePress`;
  - the class `SocketServer` in `src/lib/socket/socketServer.ts`, which relays `keyPress` as `keyPress` and guards everything on its `io` field.

  Both keep an insertion-ordered registry from socket id to `{id, color, connectedAt}`. socket.io is modelled as a set of connected socket ids plus one outbox, a sequence of messages, per socket:
  - `socket.emit` appends to the socket's own outbox;
  - `io.emit` appends to every connected socket's outbox;
  - `socket.broadcast.emit` appends to every connected socket but the sender.
- **The client** (`src/lib/socket/socketClient.ts`). A socket that is present or absent, plus an `isConnected` flag, with guarded connect, emit, subscribe and disconnect. Sockets are handle numbers, listeners are a list, and emitted messages go to a log.
- **The provider's reducers** (`src/components/providers/SocketProvider.tsx`, lines 36-79):
  - the own user record made from `userInfo`;
  - the filter and map that turn a `userPresence` roster into the list of other users;
  - the identifier of a remote note.
- **The store** (`src/lib/store/useStore.ts`). The initial state, and every action as a function from state to state.
- **The audio flag** (`src/lib/audio/audioContext.ts`). The readiness flag, with its idempotent initialise and its reset.

Modules:

| module | file |
|---|---|
| `Wrappers` | `wrappers.dfy` |
| `NoteNames` | `note_names.dfy` |
| `SoundBanks` | `sound_banks.dfy` |
| `Transport` (payloads, messages, outboxes and the registry shared by both servers) | `transport.dfy` |
| `NodeServer` | `node_server.dfy` |
| `SocketServerTs` | `socket_server.dfy` |
| `SocketClientTs` | `socket_client.dfy` |
| `Store` | `store.dfy` |
| `PresenceView` | `presence_view.dfy` |
| `AudioContext` | `audio_context.dfy` |

The form follows the source:
- The pure files become functions and lemmas: the conversions, the literal maps, the store actions and the presence reducer.
- Code that changes state becomes classes with `modifies` clauses: the servers' registries, the client's fields and the audio flag.
- `generateSampleMap` is a method with the source's two nested loops. It is proved equal to the specification function `ThreeOctaveSampleMap`.

Randomness and time enter as parameters:
- `Math.random()` choosing a color is a palette index `pick < 8`.
- `new Date()` is an opaque number `at`.

One palette, `NoteNames.UserColors` (the list of utils.ts:47-56), stands for all three copies: the ones in server.js:14-23 and socketServer.ts:121-130 hold the same eight strings in the same order.

The client emits `keyPress` and `keyRelease`. `socketServer.ts` relays those names. `server.js` listens only for `notePress` and `noteRelease`, so it would relay nothing this client sends. Each file is modelled as written.

## Model

| member | source | states |
|---|---|---|
| NoteNames.MidiToNoteName | src/lib/utils.ts:17-22 | The name is the pitch name at `midi % 12` followed by the decimal octave `midi / 12 - 1`. Below 12 the octave is written `-1`. |
| NoteNames.NoteNameToMidi | src/lib/utils.ts:29-40 | The result is the leftmost regex match, computed as `(octave + 1) * 12 + pitch`, or 60 with no match. NaN comes only from a matched pitch missing from the table. |
| NoteNames.DigitRun | src/lib/utils.ts:35 | The greedy `\d+`: the run starting at j is all digits, stays inside the string, and is followed by a non-digit or the end. |
| NoteNames.MatchEnd | src/lib/utils.ts:35 | A match of `[A-G]#?` followed by a digit at position i: it starts with a pitch letter and ends at a digit one or two places on, two exactly when a `#` follows the letter. Each of the two alternatives that fits gives a match. |
| NoteNames.MatchFrom | src/lib/utils.ts:35 | The leftmost match from position i: a pitch group of a letter and an optional `#`, then a non-empty digit group. There is none exactly when no position from i starts a match. |
| NoteNames.DecimalValue | src/lib/utils.ts:39 | `parseInt` of a digit run is 0 exactly when every digit is `0`. |
| NoteNames.NatToDecimal | src/lib/utils.ts:21 | A non-negative number prints as a non-empty run of digits with no leading zero unless it is 0. DecimalRoundTrip reads it back. |
| NoteNames.IntToDecimal | src/lib/utils.ts:21 | An integer prints as digits, after a `-` when it is negative. |
| NoteNames.IntToDecimalValue | src/lib/utils.ts:21 | The printed digits read back as the magnitude, with no leading zero unless the number is 0. |
| NoteNames.NoMatchGivesMiddleC | src/lib/utils.ts:35-36 | When no position of the name starts a match, the result is 60. |
| NoteNames.MidiRoundTrip | src/lib/utils.ts:17-40 | For every MIDI number from 12 up, reading back the produced name gives the number again. |
| NoteNames.LowOctaveNotParsed | src/lib/utils.ts:17-36 | For MIDI 0-11 the name ends in `-1`. The digits pattern cannot read the minus sign, so reading it back gives 60. |
| NoteNames.NameRoundTrip | src/lib/utils.ts:17-40 | A table pitch name followed by a canonical decimal (no leading zero) reads as a number from 12 up. Converting that number gives the same name. |
| NoteNames.NoteNameToMidiOctave | src/lib/utils.ts:30-39 | A table pitch p at octave o reads as `(o + 1) * 12 + index(p)`. |
| NoteNames.MidiToNoteNameAt | src/lib/utils.ts:17-22 | MIDI `(o + 1) * 12 + k` is named pitch k followed by the decimal octave o. |
| NoteNames.OctaveStep | src/lib/utils.ts:30-39 | Raising the octave of a table pitch name by one adds exactly 12. |
| NoteNames.MidiToNoteNameInjective | src/lib/utils.ts:17-22 | From MIDI 12 on, different numbers get different names. |
| NoteNames.TablesAgree | src/lib/utils.ts:17-33 | The name list of midiToNoteName and the table of noteNameToMidi agree on all twelve pitches. |
| NoteNames.GenerateUserColor | src/lib/utils.ts:46-58 | The color is always one of the eight palette strings. |
| NoteNames.PaletteCovered | server.js:14-30 | The palette, the same eight strings in all three copies, has eight entries, and each can be picked. |
| SoundBanks.GenerateSampleMap | src/lib/audio/soundBanks.ts:24-40 | The nested loops over octaves 3-5 and the twelve pitch names, plus C6, build exactly the map from the chromatic names of MIDI 48..84 to `name.wav`. The bank name is not used. |
| SoundBanks.ThreeOctaveShape | src/lib/audio/soundBanks.ts:24-40 | That map has 37 entries: every pitch name in octaves 3, 4 and 5, and C6. Every value is its key followed by `.wav`. |
| SoundBanks.ThreeOctaveTop | src/lib/audio/soundBanks.ts:36-37 | The loop map is the chromatic run C3..B5 with `C6` added after the loops. |
| SoundBanks.ChromaticCount | src/lib/utils.ts:17-22 | From MIDI 12 on, a run of n consecutive MIDI numbers has n distinct names. |
| SoundBanks.EncodeHash | src/lib/audio/soundBanks.ts:56 | The encoded string has no `#`. A string without `#` is unchanged. |
| SoundBanks.ProfessionalStringsSampleMap | src/lib/audio/soundBanks.ts:58-100 | The literal strings map is exactly the chromatic run G2..F5. Each note maps to its name with `#` encoded as `%23`, followed by `.wav`. |
| SoundBanks.StringsMapSize | src/lib/audio/soundBanks.ts:58-100 | The strings map holds 35 notes, one per MIDI number 43..77. |
| SoundBanks.StringsKeys | src/lib/audio/soundBanks.ts:58-100 | The keys of the four octave groups of the literal are the names of MIDI 43..77. |
| SoundBanks.StringsEncoded | src/lib/audio/soundBanks.ts:58-100 | Every value of the four octave groups is its key with `#` → `%23`, followed by `.wav`. |
| SoundBanks.MinimalSampleMap | src/lib/audio/soundBanks.ts:46-51 | The minimal map is the `.wav` map of the names of MIDI 60 and 62. |
| SoundBanks.MinimalSampleMapNotes | src/lib/audio/soundBanks.ts:46-51 | The minimal map has exactly the keys C4 and D4 (MIDI 60 and 62), mapped to their `.wav` files. |
| SoundBanks.Banks | src/lib/audio/soundBanks.ts:106-135 | The bank table has four entries, and no two share an id. |
| SoundBanks.BankIds | src/lib/audio/soundBanks.ts:106-149 | getAllSoundBanks returns four banks with distinct ids, in the order strings, choir, flutes, brass. |
| SoundBanks.BankSamples | src/lib/audio/soundBanks.ts:112-133 | Strings plays G2..F5. Choir, flutes and brass hold one identical three-octave map. |
| SoundBanks.FindBank | src/lib/audio/soundBanks.ts:141 | `find` returns the first bank carrying the id, or nothing exactly when no bank carries it. |
| SoundBanks.GetSoundBank | src/lib/audio/soundBanks.ts:140-142 | The result is a bank of the table carrying the id, and undefined exactly when no bank carries it. |
| SoundBanks.GetAllSoundBanks | src/lib/audio/soundBanks.ts:147-149 | Four banks are returned, and getSoundBank finds each of them by its id. |
| SoundBanks.GetSoundBankUnknown | src/lib/audio/soundBanks.ts:140-142 | Any id outside the four gives undefined. |
| NodeServer.RelayServer.constructor | server.js:26 | The server starts with an empty registry, no connected socket and no messages sent. |
| Transport.Spread | server.js:84-88 | `{...data, ...extra}` has the keys of both. Keys of `extra` take its values, and the other keys keep the data's values. |
| Transport.PressPayload | server.js:84-88 | The relayed press carries every key of the data plus `userId` and `color`. These two override same-named fields, and every other field is passed on unchanged. |
| Transport.ReleasePayload | server.js:94-97 | The relayed release carries the data plus `userId`. No color is added. |
| Transport.Post | server.js:76 | After an emit to a set of sockets, the outboxes cover the earlier sockets and every recipient. What each socket receives is stated by PostDelivers. |
| Transport.PostDelivers | server.js:65-98 | Recipients get the message appended. Every other socket's outbox is unchanged. |
| Transport.PostThenBroadcast | server.js:65-79 | A new socket receives `userInfo` and then the presence list, in that order. |
| Transport.Lookup | server.js:58 | `Map.get` finds the record stored under an id, and finds none exactly when the id is absent. |
| Transport.MapSet | server.js:58-62 | `Map.set` of a new id appends the entry at the end, and the key set gains the id. |
| Transport.MapSetLookup | server.js:58-62 | After `set`, the id reads the new record and every other id reads what it did before. |
| Transport.MapSetDistinct | server.js:58-62 | `set` keeps one entry per id. |
| Transport.MapDelete | server.js:103 | `Map.delete` removes the id from the key set. |
| Transport.MapDeleteAt | server.js:103 | With distinct ids, deleting removes exactly that entry, and the rest keep their order. |
| Transport.MapDeleteLookup | server.js:103 | Deleting one id leaves every other record readable as before. |
| Transport.MapDeleteDistinct | server.js:103 | Deleting keeps one entry per id. |
| Transport.DeleteKeepsColors | server.js:103 | Deleting keeps every remaining color in the palette. |
| Transport.Snapshot | server.js:72-75 | The presence list is as long as the registry, and every id in it is a registered id. |
| Transport.SnapshotEntries | server.js:72-75 | The presence list has one `{id, color}` per registry entry, in insertion order. |
| Transport.SnapshotDistinct | server.js:72-75 | The presence list has no duplicate id. |
| NodeServer.RelayServer.BroadcastUserPresence | server.js:71-77 | The presence snapshot goes to every connected socket. The registry is unchanged. |
| NodeServer.RelayServer.OnConnection | server.js:53-79 | The registry gains exactly one entry for the socket, with a palette color and everything else unchanged. The socket gets `userInfo` with that color, then every socket gets the presence list. |
| NodeServer.RelayServer.ColorOf | server.js:57-87 | The closure's `userColor` for a connected socket is the color its registry entry holds, and it is a palette color. |
| NodeServer.RelayServer.OnNotePress | server.js:82-89 | `remoteNotePress` goes to every connected socket but the sender, carrying the sender's id and connect-time color. The registry is unchanged. |
| NodeServer.RelayServer.OnNoteRelease | server.js:92-98 | `remoteNoteRelease` goes to every other socket with the sender's id and no color. The registry is unchanged. |
| NodeServer.RelayServer.OnDisconnect | server.js:101-105 | Exactly the socket's entry is deleted and every other record stays. The presence list goes to the sockets that remain. |
| SocketServerTs.SocketServer.constructor | src/lib/socket/socketServer.ts:31-32 | A new server has no `io`, no handlers and no users. |
| SocketServerTs.SocketServer.Initialize | src/lib/socket/socketServer.ts:38-48 | After initialize there is a server, and the connection handler is installed on it. |
| SocketServerTs.SocketServer.SetupEventHandlers | src/lib/socket/socketServer.ts:53-56 | Handlers are installed only when `io` is set. |
| SocketServerTs.SocketServer.BroadcastUserPresence | src/lib/socket/socketServer.ts:106-115 | Without a server nothing is sent. Otherwise the `users.values()` snapshot goes to every socket. |
| SocketServerTs.SocketServer.OnConnection | src/lib/socket/socketServer.ts:56-74 | Without installed handlers nothing happens. Otherwise the user is recorded with a palette color and sent `userInfo` with that color, then the presence list goes to all. |
| SocketServerTs.SocketServer.ColorOf | src/lib/socket/socketServer.ts:60-82 | The closure's `userColor` for a connected socket is the color its registry entry holds, and it is a palette color. |
| SocketServerTs.SocketServer.OnKeyPress | src/lib/socket/socketServer.ts:77-84 | `keyPress` is re-emitted as `keyPress` to every socket but the sender, with the sender's id and color. |
| SocketServerTs.SocketServer.OnKeyRelease | src/lib/socket/socketServer.ts:87-92 | `keyRelease` is re-emitted as `keyRelease` to every other socket with the sender's id. |
| SocketServerTs.SocketServer.OnDisconnect | src/lib/socket/socketServer.ts:95-99 | Only the socket's entry is deleted, and presence is rebroadcast to the remaining sockets. |
| SocketClientTs.KeyPressPayload | src/lib/socket/socketClient.ts:78 | The press payload has exactly the keys note, octave and velocity, and no `userId`. |
| SocketClientTs.KeyReleasePayload | src/lib/socket/socketClient.ts:87 | The release payload has exactly the keys note and octave. |
| SocketClientTs.SocketClient.constructor | src/lib/socket/socketClient.ts:19-20 | A new client has no socket, the flag is false, and nothing is registered or sent. |
| SocketClientTs.SocketClient.Connect | src/lib/socket/socketClient.ts:25-40 | With a socket present nothing changes. Otherwise a fresh socket is created with the three built-in listeners, and the flag stays false. |
| SocketClientTs.SocketClient.SetupEventListeners | src/lib/socket/socketClient.ts:45-67 | Registers connect, disconnect and error listeners on the socket, or nothing with no socket. |
| SocketClientTs.SocketClient.ConnectEvent | src/lib/socket/socketClient.ts:48-51 | The transport's connect event sets the flag true. |
| SocketClientTs.SocketClient.DisconnectEvent | src/lib/socket/socketClient.ts:53-56 | The transport's disconnect event sets the flag false. |
| SocketClientTs.SocketClient.EmitKeyPress | src/lib/socket/socketClient.ts:72-79 | A press is logged only with a socket that is connected. Otherwise it is dropped, not queued. |
| SocketClientTs.SocketClient.EmitKeyRelease | src/lib/socket/socketClient.ts:84-88 | Same guard for a release. |
| SocketClientTs.SocketClient.Subscribe | src/lib/socket/socketClient.ts:93-109 | `socket?.on` adds the callback to the current socket's listeners, or does nothing with no socket. |
| SocketClientTs.SocketClient.OnKeyPress | src/lib/socket/socketClient.ts:93-95 | With no socket, nothing is registered. Otherwise the callback is added to the current socket's listeners. |
| SocketClientTs.SocketClient.OnKeyRelease | src/lib/socket/socketClient.ts:100-102 | Same for `keyRelease`. |
| SocketClientTs.SocketClient.OnUserPresence | src/lib/socket/socketClient.ts:107-109 | Same for `userPresence`. |
| SocketClientTs.SocketClient.Disconnect | src/lib/socket/socketClient.ts:114-120 | With a socket, both the socket and the flag are cleared. With none, it does nothing. |
| SocketClientTs.SocketClient.GetConnectionStatus | src/lib/socket/socketClient.ts:125-127 | Returns the flag, which is true only while a socket exists. |
| Store.Initial | src/lib/store/useStore.ts:67-82 | The initial bank is one that the bank table holds under that id. |
| Store.InitialState | src/lib/store/useStore.ts:67-82 | The initial state is: bank "strings"; volume 75, unmuted, reverb 30, delay 0, attack 0.01, release 0.5; disconnected; no current user and no online users; not recording and no notes. |
| Store.SetCurrentSoundBank | src/lib/store/useStore.ts:85 | Sets the bank and changes no other field. |
| Store.SetVolume | src/lib/store/useStore.ts:87-90 | Sets volume. The other settings and fields are unchanged. |
| Store.SetMuted | src/lib/store/useStore.ts:92-95 | Sets isMuted only. |
| Store.SetReverb | src/lib/store/useStore.ts:97-100 | Sets reverb only. |
| Store.SetDelay | src/lib/store/useStore.ts:102-105 | Sets delay only. |
| Store.SetAttack | src/lib/store/useStore.ts:107-110 | Sets attack only. |
| Store.SetRelease | src/lib/store/useStore.ts:112-115 | Sets release only. |
| Store.SetAudioInitialized | src/lib/store/useStore.ts:117-118 | Sets isAudioInitialized only. |
| Store.SetConnected | src/lib/store/useStore.ts:120 | Sets isConnected only. |
| Store.SetCurrentUser | src/lib/store/useStore.ts:122 | Sets currentUser only. |
| Store.SetOnlineUsers | src/lib/store/useStore.ts:124 | Replaces onlineUsers wholesale and changes nothing else. |
| Store.StartRecording | src/lib/store/useStore.ts:126 | Recording on. The notes are untouched. |
| Store.StopRecording | src/lib/store/useStore.ts:128 | Recording off. The notes are untouched. |
| Store.AddRecordedNote | src/lib/store/useStore.ts:130-133 | Appends at the end: length + 1 and earlier notes kept, whether or not recording is on. |
| Store.ClearRecording | src/lib/store/useStore.ts:135 | Empties the notes and leaves isRecording as it was. |
| Store.SetterIdempotent | src/lib/store/useStore.ts:85-135 | Every action but addRecordedNote, applied twice with the same argument, equals applying it once. |
| Store.AddTwiceRecordsTwice | src/lib/store/useStore.ts:130-133 | addRecordedNote is not idempotent: a second call records the note again. |
| Store.ApplyFrame | src/lib/store/useStore.ts:85-135 | Each action leaves every field but its own unchanged. |
| Store.Commute | src/lib/store/useStore.ts:85-135 | Two actions writing different fields give the same state in either order. |
| Store.AddAllAppends | src/lib/store/useStore.ts:130-133 | Adding notes one by one appends them in order and changes nothing else. |
| Store.RecordTake | src/lib/store/useStore.ts:126-133 | Start, adds, stop: the notes are the earlier ones followed by the added ones. Recording is off, and the settings are unchanged. |
| Store.ClearThenAdd | src/lib/store/useStore.ts:130-135 | After a clear, only the notes added afterwards remain, and the recording flag is kept. |
| PresenceView.CurrentUserFrom | src/components/providers/SocketProvider.tsx:38-42 | The own record has the received id and color, with name "You". |
| PresenceView.OnUserInfo | src/components/providers/SocketProvider.tsx:36-43 | `userInfo` sets the current user to that record and changes nothing else. |
| PresenceView.DisplayName | src/components/providers/SocketProvider.tsx:56 | "User " followed by the id's first four characters, or the whole id if it is shorter. |
| PresenceView.ToUser | src/components/providers/SocketProvider.tsx:53-57 | The mapped record keeps the entry's id and color. Its name is `User ` followed by at most four characters. |
| PresenceView.OthersFrom | src/components/providers/SocketProvider.tsx:49-57 | The others list never holds the own id, is no longer than the roster, and every entry has a name. |
| PresenceView.OthersLength | src/components/providers/SocketProvider.tsx:51-52 | Its length is the roster length minus the number of entries carrying the own id. |
| PresenceView.OthersWithoutSelf | src/components/providers/SocketProvider.tsx:49-57 | With no own id yet, every roster entry is kept, in order. |
| PresenceView.OthersOrder | src/components/providers/SocketProvider.tsx:51-57 | Entry i is the mapped roster entry at the i-th kept position. The positions increase, and every entry with a different id is used. |
| PresenceView.OthersMapped | src/components/providers/SocketProvider.tsx:53-57 | Each entry of the others list is the `{id, color, name}` made from the roster entry at the matching kept position. |
| PresenceView.OthersComplete | src/components/providers/SocketProvider.tsx:51-52 | Every roster entry whose id differs from the own id is among the kept positions. |
| PresenceView.OnUserPresence | src/components/providers/SocketProvider.tsx:46-59 | Each presence event replaces the stored list wholesale with the others list and changes nothing else. |
| PresenceView.NoteId | src/components/providers/SocketProvider.tsx:64 | The note id is the note name followed by the octave's numeral: the digits read back as the octave's magnitude, with no leading zero unless the octave is 0, after a `-` when the octave is negative. |
| PresenceView.NoteIdIsMidiName | src/components/providers/SocketProvider.tsx:64-75 | The note id for a key's pitch and octave is the name midiToNoteName gives that key. |
| PresenceView.NoteIdReadsBack | src/components/providers/SocketProvider.tsx:64-75 | For a table pitch and an octave from 0 up, the note id reads back as `(octave + 1) * 12 + pitch`. |
| AudioContext.AudioContextState.constructor | src/lib/audio/audioContext.ts:8 | The flag starts false. |
| AudioContext.AudioContextState.IsReady | src/lib/audio/audioContext.ts:13-15 | Returns the flag. |
| AudioContext.AudioContextState.Initialize | src/lib/audio/audioContext.ts:21-36 | Returns true and leaves the flag set. When the flag was already set, nothing changes. |
| AudioContext.AudioContextState.Reset | src/lib/audio/audioContext.ts:41-43 | Clears the flag. |
| AudioContext.ResetThenInitialize | src/lib/audio/audioContext.ts:21-43 | After a reset, an initialize makes the context ready again, and a second initialize also returns true. |

## Left out

- `cn` and `debounce` in `src/lib/utils.ts`: one wraps foreign class-name libraries, the other is timer-based.
- `src/lib/audio/toneEngine.ts` and all React components other than the provider's reducers: they render UI or wrap Tone.js.
- The provider's `useEffect` wiring (SocketProvider.tsx:18-35, 80-86). It also calls `getSocket`, `onUserInfo`, `onRemoteNotePress` and `onRemoteNoteRelease`, which `socketClient.ts` does not define. So the effect throws a TypeError at SocketProvider.tsx:23 right after `connect()`, and the callbacks are never registered: in the program as written, the modelled PresenceView reducers never run. Only the logic these callbacks would run is modelled.
- The remote note handlers (SocketProvider.tsx:61-79) compute a note id and do nothing with it; only `NoteId` is modelled.
- HTTP servers, CORS, environment variables, `listen` and `process.exit` (server.js:1-11, 32-50, 108-124; socketServer.ts:39-45), and console logging.
- Socket.io delivery itself: an emit is an outbox append, delivered instantly and in order; there is no network loss or reordering.
- `getIO` (socketServer.ts:137-139): it only returns the `io` field, which the model keeps as a boolean.
- NoteNames.GenerateUserColor, NodeServer.RelayServer.OnConnection, SocketServerTs.SocketServer.OnConnection: `Math.floor(Math.random() * 8)` is a caller-chosen index `pick < 8`; no distribution is modelled.
- Transport.ConnectedUser: `connectedAt: new Date()` is an opaque number supplied by the caller.
- NoteNames.MidiToNoteName: only non-negative MIDI numbers are modelled. For a negative input JavaScript's `%` is negative or `-0`. A multiple of 12 reads `notes[-0]`, which is `"C"`: `midiToNoteName(-12)` is `"C-2"`. Any other negative input gives the pitch `undefined`, so the name starts with `"undefined"`.
- NoteNames.MidiToNoteName, NoteNames.MidiRoundTrip, NoteNames.MidiToNoteNameInjective: number width is not modelled. The octave is printed as an unbounded integer, digit by digit. JavaScript prints octaves from 1e21 up in exponent form, as in `"C1e+21"`, which reads back as 24, and `midiNote / 12` loses integer precision above 2^53. So these two lemmas hold for the program only on a bounded range, which contains the documented range 0-127.
- NoteNames.NoteNameToMidi: `parseInt` of a long digit run is exact here; JavaScript numbers lose precision beyond 2^53. Names such as `E#4` give NaN, modelled as the `NaN` variant of the result.
- Transport.Spread, PressPayload, ReleasePayload: `data` is taken to be a flat JSON object whose fields are strings, numbers, booleans or null. Nested objects and arrays are not represented. Spreading data that is not an object is not modelled: JavaScript spreads a string into the keys `"0"`, `"1"`, …, and `null` or a number into `{}`. An object here has no key order, while in JavaScript `userId` and `color` come last.
- Store: settings are reals and JavaScript numbers are not bounded or rounded; the store never computes with them. Recorded notes (`any`) are JSON objects of the payload type.
- SocketServerTs.SocketServer.Initialize: a second `initialize` would make socket.io attach another server while the earlier sockets stay on the first; the model keeps one server and its sockets.
- SocketServerTs.SocketServer.OnKeyPress, OnKeyRelease, OnDisconnect require installed handlers: without them no socket can be connected, so these events cannot arrive.
- SocketClientTs.SocketClient.ConnectEvent, DisconnectEvent: transport events are taken to come from the current socket; a dropped socket's listeners are not modelled. The `error` listener only logs.
- PresenceView.DisplayName: `slice(0, 4)` counts UTF-16 code units, while the model takes the first four characters. The two agree on socket.io ids, which are ASCII.
- SocketClientTs.SocketClient: the listener callbacks are opaque tags; what a subscribed callback does is not modelled.
- AudioContext.AudioContextState.Initialize: the `catch` branch returning false is unreachable, because the `try` body only assigns and logs; it is not modelled. The `async` wrapper is left out.
