/**
 * The application store (src/lib/store/useStore.ts).  zustand's `set`
 * merges the returned fields into the state, so every action is a function
 * from the state to the next state that rewrites the fields it names and
 * keeps the others.  Setting values are plain reals: they are stored and
 * handed back, never computed with.
 */
module Store {
  import opened Wrappers
  import opened Transport
  import SoundBanks

  datatype AudioSettings = AudioSettings(volume: real, isMuted: bool, reverb: real, delay: real,
                                         attack: real, release: real)

  /** A user as the store holds it; `name` is optional. */
  datatype User = User(id: string, color: string, name: Option<string>)

  /** A recorded note is any object the caller passes; the store never looks inside. */
  type RecordedNote = Payload

  datatype AppState = AppState(
    currentSoundBank: string,
    audioSettings: AudioSettings,
    isAudioInitialized: bool,
    isConnected: bool,
    currentUser: Option<User>,
    onlineUsers: seq<User>,
    isRecording: bool,
    recordedNotes: seq<RecordedNote>)

  /** The fields an action can write, the six audio settings counted one by one. */
  datatype Field = CurrentSoundBank | Volume | IsMuted | Reverb | Delay | Attack | Release
                 | IsAudioInitialized | IsConnected | CurrentUser | OnlineUsers | IsRecording | RecordedNotes

  /** `r` agrees with `s` on every field but `f`. */
  predicate OthersAgree(s: AppState, r: AppState, f: Field)
  {
    (f != CurrentSoundBank ==> r.currentSoundBank == s.currentSoundBank) &&
    (f != Volume ==> r.audioSettings.volume == s.audioSettings.volume) &&
    (f != IsMuted ==> r.audioSettings.isMuted == s.audioSettings.isMuted) &&
    (f != Reverb ==> r.audioSettings.reverb == s.audioSettings.reverb) &&
    (f != Delay ==> r.audioSettings.delay == s.audioSettings.delay) &&
    (f != Attack ==> r.audioSettings.attack == s.audioSettings.attack) &&
    (f != Release ==> r.audioSettings.release == s.audioSettings.release) &&
    (f != IsAudioInitialized ==> r.isAudioInitialized == s.isAudioInitialized) &&
    (f != IsConnected ==> r.isConnected == s.isConnected) &&
    (f != CurrentUser ==> r.currentUser == s.currentUser) &&
    (f != OnlineUsers ==> r.onlineUsers == s.onlineUsers) &&
    (f != IsRecording ==> r.isRecording == s.isRecording) &&
    (f != RecordedNotes ==> r.recordedNotes == s.recordedNotes)
  }

  /** The state the store is created with; its bank is one the bank table holds. */
  function Initial(): (r: AppState)
    ensures SoundBanks.GetSoundBank(r.currentSoundBank).Some?
    ensures SoundBanks.GetSoundBank(r.currentSoundBank).value.id == r.currentSoundBank
  {
    SoundBanks.BankIds();
    AppState("strings", AudioSettings(75.0, false, 30.0, 0.0, 0.01, 0.5), false, false, None, [], false, [])
  }

  /**
   * The store starts on the strings bank, at volume 75 and unmuted,
   * disconnected with nobody known, and not recording.
   */
  lemma InitialState()
    ensures Initial().currentSoundBank == "strings"
    ensures Initial().audioSettings.volume == 75.0 && !Initial().audioSettings.isMuted
    ensures Initial().audioSettings.reverb == 30.0 && Initial().audioSettings.delay == 0.0
    ensures Initial().audioSettings.attack == 0.01 && Initial().audioSettings.release == 0.5
    ensures !Initial().isAudioInitialized && !Initial().isConnected
    ensures Initial().currentUser == None && Initial().onlineUsers == []
    ensures !Initial().isRecording && Initial().recordedNotes == []
  {
  }

  // ---------------------------------------------------------------------------
  // The actions
  // ---------------------------------------------------------------------------

  function SetCurrentSoundBank(s: AppState, bankId: string): (r: AppState)
    ensures r.currentSoundBank == bankId && OthersAgree(s, r, CurrentSoundBank)
  {
    s.(currentSoundBank := bankId)
  }

  function SetVolume(s: AppState, volume: real): (r: AppState)
    ensures r.audioSettings.volume == volume && OthersAgree(s, r, Volume)
  {
    s.(audioSettings := s.audioSettings.(volume := volume))
  }

  function SetMuted(s: AppState, isMuted: bool): (r: AppState)
    ensures r.audioSettings.isMuted == isMuted && OthersAgree(s, r, IsMuted)
  {
    s.(audioSettings := s.audioSettings.(isMuted := isMuted))
  }

  function SetReverb(s: AppState, reverb: real): (r: AppState)
    ensures r.audioSettings.reverb == reverb && OthersAgree(s, r, Reverb)
  {
    s.(audioSettings := s.audioSettings.(reverb := reverb))
  }

  function SetDelay(s: AppState, delay: real): (r: AppState)
    ensures r.audioSettings.delay == delay && OthersAgree(s, r, Delay)
  {
    s.(audioSettings := s.audioSettings.(delay := delay))
  }

  function SetAttack(s: AppState, attack: real): (r: AppState)
    ensures r.audioSettings.attack == attack && OthersAgree(s, r, Attack)
  {
    s.(audioSettings := s.audioSettings.(attack := attack))
  }

  function SetRelease(s: AppState, release: real): (r: AppState)
    ensures r.audioSettings.release == release && OthersAgree(s, r, Release)
  {
    s.(audioSettings := s.audioSettings.(release := release))
  }

  function SetAudioInitialized(s: AppState, initialized: bool): (r: AppState)
    ensures r.isAudioInitialized == initialized && OthersAgree(s, r, IsAudioInitialized)
  {
    s.(isAudioInitialized := initialized)
  }

  function SetConnected(s: AppState, connected: bool): (r: AppState)
    ensures r.isConnected == connected && OthersAgree(s, r, IsConnected)
  {
    s.(isConnected := connected)
  }

  function SetCurrentUser(s: AppState, user: Option<User>): (r: AppState)
    ensures r.currentUser == user && OthersAgree(s, r, CurrentUser)
  {
    s.(currentUser := user)
  }

  /** The new list replaces the old one wholesale. */
  function SetOnlineUsers(s: AppState, users: seq<User>): (r: AppState)
    ensures r.onlineUsers == users && OthersAgree(s, r, OnlineUsers)
  {
    s.(onlineUsers := users)
  }

  /** Recording on; the notes recorded so far stay. */
  function StartRecording(s: AppState): (r: AppState)
    ensures r.isRecording && OthersAgree(s, r, IsRecording)
  {
    s.(isRecording := true)
  }

  /** Recording off; the notes recorded so far stay. */
  function StopRecording(s: AppState): (r: AppState)
    ensures !r.isRecording && OthersAgree(s, r, IsRecording)
  {
    s.(isRecording := false)
  }

  /** The note goes at the end, whether or not recording is on. */
  function AddRecordedNote(s: AppState, note: RecordedNote): (r: AppState)
    ensures |r.recordedNotes| == |s.recordedNotes| + 1
    ensures r.recordedNotes[..|s.recordedNotes|] == s.recordedNotes
    ensures r.recordedNotes[|s.recordedNotes|] == note
    ensures OthersAgree(s, r, RecordedNotes)
  {
    s.(recordedNotes := s.recordedNotes + [note])
  }

  /** The notes go; whether recording is on stays as it was. */
  function ClearRecording(s: AppState): (r: AppState)
    ensures r.recordedNotes == [] && OthersAgree(s, r, RecordedNotes)
  {
    s.(recordedNotes := [])
  }

  // ---------------------------------------------------------------------------
  // Actions as values, for the properties that relate several of them
  // ---------------------------------------------------------------------------

  datatype Action =
    | SetCurrentSoundBankA(bankId: string)
    | SetVolumeA(volume: real)
    | SetMutedA(isMuted: bool)
    | SetReverbA(reverb: real)
    | SetDelayA(delay: real)
    | SetAttackA(attack: real)
    | SetReleaseA(release: real)
    | SetAudioInitializedA(initialized: bool)
    | SetConnectedA(connected: bool)
    | SetCurrentUserA(user: Option<User>)
    | SetOnlineUsersA(users: seq<User>)
    | StartRecordingA
    | StopRecordingA
    | AddRecordedNoteA(note: RecordedNote)
    | ClearRecordingA

  /** The field an action writes. */
  function Target(a: Action): Field
  {
    match a
    case SetCurrentSoundBankA(_) => CurrentSoundBank
    case SetVolumeA(_) => Volume
    case SetMutedA(_) => IsMuted
    case SetReverbA(_) => Reverb
    case SetDelayA(_) => Delay
    case SetAttackA(_) => Attack
    case SetReleaseA(_) => Release
    case SetAudioInitializedA(_) => IsAudioInitialized
    case SetConnectedA(_) => IsConnected
    case SetCurrentUserA(_) => CurrentUser
    case SetOnlineUsersA(_) => OnlineUsers
    case StartRecordingA => IsRecording
    case StopRecordingA => IsRecording
    case AddRecordedNoteA(_) => RecordedNotes
    case ClearRecordingA => RecordedNotes
  }

  /** Running an action on the store. */
  function Apply(s: AppState, a: Action): AppState
  {
    match a
    case SetCurrentSoundBankA(b) => SetCurrentSoundBank(s, b)
    case SetVolumeA(v) => SetVolume(s, v)
    case SetMutedA(m) => SetMuted(s, m)
    case SetReverbA(v) => SetReverb(s, v)
    case SetDelayA(v) => SetDelay(s, v)
    case SetAttackA(v) => SetAttack(s, v)
    case SetReleaseA(v) => SetRelease(s, v)
    case SetAudioInitializedA(i) => SetAudioInitialized(s, i)
    case SetConnectedA(c) => SetConnected(s, c)
    case SetCurrentUserA(u) => SetCurrentUser(s, u)
    case SetOnlineUsersA(us) => SetOnlineUsers(s, us)
    case StartRecordingA => StartRecording(s)
    case StopRecordingA => StopRecording(s)
    case AddRecordedNoteA(n) => AddRecordedNote(s, n)
    case ClearRecordingA => ClearRecording(s)
  }

  /** Every action but `addRecordedNote` sets its field to a value that does not depend on the state. */
  predicate IsSetter(a: Action)
  {
    !a.AddRecordedNoteA?
  }

  /** A setter applied twice with the same argument does what it does once. */
  lemma SetterIdempotent(s: AppState, a: Action)
    requires IsSetter(a)
    ensures Apply(Apply(s, a), a) == Apply(s, a)
  {
  }

  /** `addRecordedNote` is not idempotent: a second call records the note again. */
  lemma AddTwiceRecordsTwice(s: AppState, note: RecordedNote)
    ensures Apply(Apply(s, AddRecordedNoteA(note)), AddRecordedNoteA(note)).recordedNotes
            == s.recordedNotes + [note, note]
  {
  }

  /** The value of one field, whatever its type. */
  datatype FieldValue = Text(s: string) | Amount(r: real) | Flag(b: bool)
                      | MaybeUser(u: Option<User>) | Users(us: seq<User>) | Notes(ns: seq<RecordedNote>)

  /** The value state `s` holds in field `f`. */
  function Get(s: AppState, f: Field): FieldValue
  {
    match f
    case CurrentSoundBank => Text(s.currentSoundBank)
    case Volume => Amount(s.audioSettings.volume)
    case IsMuted => Flag(s.audioSettings.isMuted)
    case Reverb => Amount(s.audioSettings.reverb)
    case Delay => Amount(s.audioSettings.delay)
    case Attack => Amount(s.audioSettings.attack)
    case Release => Amount(s.audioSettings.release)
    case IsAudioInitialized => Flag(s.isAudioInitialized)
    case IsConnected => Flag(s.isConnected)
    case CurrentUser => MaybeUser(s.currentUser)
    case OnlineUsers => Users(s.onlineUsers)
    case IsRecording => Flag(s.isRecording)
    case RecordedNotes => Notes(s.recordedNotes)
  }

  /** Every action keeps every field but the one it writes. */
  lemma ApplyFrame(s: AppState, a: Action, g: Field)
    requires g != Target(a)
    ensures Get(Apply(s, a), g) == Get(s, g)
  {
    assert OthersAgree(s, Apply(s, a), Target(a));
  }

  /** What an action writes into its field depends on that field of the state alone. */
  lemma ApplyLocal(s: AppState, t: AppState, a: Action)
    requires Get(s, Target(a)) == Get(t, Target(a))
    ensures Get(Apply(s, a), Target(a)) == Get(Apply(t, a), Target(a))
  {
  }

  /** Two states that agree on every field are the same state. */
  lemma Extensional(s: AppState, t: AppState)
    requires forall f :: Get(s, f) == Get(t, f)
    ensures s == t
  {
    assert Get(s, CurrentSoundBank) == Get(t, CurrentSoundBank) && Get(s, Volume) == Get(t, Volume);
    assert Get(s, IsMuted) == Get(t, IsMuted) && Get(s, Reverb) == Get(t, Reverb);
    assert Get(s, Delay) == Get(t, Delay) && Get(s, Attack) == Get(t, Attack);
    assert Get(s, Release) == Get(t, Release) && Get(s, IsAudioInitialized) == Get(t, IsAudioInitialized);
    assert Get(s, IsConnected) == Get(t, IsConnected) && Get(s, CurrentUser) == Get(t, CurrentUser);
    assert Get(s, OnlineUsers) == Get(t, OnlineUsers) && Get(s, IsRecording) == Get(t, IsRecording);
    assert Get(s, RecordedNotes) == Get(t, RecordedNotes);
  }

  /** Actions that write different fields can run in either order. */
  lemma Commute(s: AppState, a: Action, b: Action)
    requires Target(a) != Target(b)
    ensures Apply(Apply(s, a), b) == Apply(Apply(s, b), a)
  {
    forall g ensures Get(Apply(Apply(s, a), b), g) == Get(Apply(Apply(s, b), a), g) {
      CommuteField(s, a, b, g);
    }
    Extensional(Apply(Apply(s, a), b), Apply(Apply(s, b), a));
  }

  lemma CommuteField(s: AppState, a: Action, b: Action, g: Field)
    requires Target(a) != Target(b)
    ensures Get(Apply(Apply(s, a), b), g) == Get(Apply(Apply(s, b), a), g)
  {
    var sa, sb := Apply(s, a), Apply(s, b);
    if g == Target(a) {
      ApplyFrame(sa, b, g);
      ApplyFrame(s, b, g);
      ApplyLocal(s, sb, a);
    } else if g == Target(b) {
      ApplyFrame(sb, a, g);
      ApplyFrame(s, a, g);
      ApplyLocal(s, sa, b);
    } else {
      ApplyFrame(s, a, g);
      ApplyFrame(sa, b, g);
      ApplyFrame(s, b, g);
      ApplyFrame(sb, a, g);
    }
  }

  /** Adding notes one after another appends them in order, recording or not. */
  function AddAll(s: AppState, notes: seq<RecordedNote>): AppState
    decreases |notes|
  {
    if notes == [] then s else AddAll(AddRecordedNote(s, notes[0]), notes[1..])
  }

  lemma {:induction false} AddAllAppends(s: AppState, notes: seq<RecordedNote>)
    ensures AddAll(s, notes).recordedNotes == s.recordedNotes + notes
    ensures OthersAgree(s, AddAll(s, notes), RecordedNotes)
    decreases |notes|
  {
    if notes != [] {
      var s' := AddRecordedNote(s, notes[0]);
      AddAllAppends(s', notes[1..]);
      assert s.recordedNotes + notes == s'.recordedNotes + notes[1..];
    }
  }

  /** A take: start, add notes, stop, gives exactly those notes after the ones already held, and not recording. */
  lemma RecordTake(s: AppState, notes: seq<RecordedNote>)
    ensures StopRecording(AddAll(StartRecording(s), notes)).recordedNotes == s.recordedNotes + notes
    ensures !StopRecording(AddAll(StartRecording(s), notes)).isRecording
    ensures StopRecording(AddAll(StartRecording(s), notes)).audioSettings == s.audioSettings
  {
    AddAllAppends(StartRecording(s), notes);
  }

  /** Clearing then adding leaves exactly the notes added after the clear. */
  lemma ClearThenAdd(s: AppState, notes: seq<RecordedNote>)
    ensures AddAll(ClearRecording(s), notes).recordedNotes == notes
    ensures AddAll(ClearRecording(s), notes).isRecording == s.isRecording
  {
    AddAllAppends(ClearRecording(s), notes);
  }
}
