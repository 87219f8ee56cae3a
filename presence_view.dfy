/**
 * What the socket provider (src/components/providers/SocketProvider.tsx,
 * lines 36-79) does with what the server sends: the own user record from
 * `userInfo`, the list of the other users from `userPresence`, and the
 * identifier of a remote note.
 */
module PresenceView {
  import opened Wrappers
  import opened NoteNames
  import opened Transport
  import opened Store

  /** The own record made from `userInfo`: its id and color, named "You". */
  function CurrentUserFrom(id: string, color: string): (u: User)
    ensures u.id == id && u.color == color && u.name == Some("You")
  {
    User(id, color, Some("You"))
  }

  /** The `userInfo` callback: the record becomes the current user and nothing else changes. */
  function OnUserInfo(s: AppState, id: string, color: string): (r: AppState)
    ensures r.currentUser == Some(User(id, color, Some("You")))
    ensures OthersAgree(s, r, CurrentUser)
  {
    SetCurrentUser(s, Some(CurrentUserFrom(id, color)))
  }

  /** The label of another user: "User " and then the id's first four characters, or all of a shorter id. */
  function DisplayName(id: string): (name: string)
    ensures |name| == 5 + (if |id| < 4 then |id| else 4)
    ensures name[..5] == "User "
    ensures name[5..] <= id
  {
    "User " + id[..if |id| < 4 then |id| else 4]
  }

  /** The filter: an entry stays unless its id is the own socket's id; with no own id nothing is dropped. */
  predicate Keep(u: Presence, self: Option<string>)
  {
    self.None? || u.id != self.value
  }

  /** The map: the entry's id and color, and its display name. */
  function ToUser(u: Presence): (user: User)
    ensures user.id == u.id && user.color == u.color
    ensures user.name.Some? && 5 <= |user.name.value| <= 9 && user.name.value[..5] == "User "
  {
    User(u.id, u.color, Some(DisplayName(u.id)))
  }

  /** The filter as a function value, as `users.filter` receives it. */
  function KeepOf(self: Option<string>): Presence -> bool
  {
    u => Keep(u, self)
  }

  /**
   * `users.filter(u => u.id !== currentUserId).map(...)`: no longer than the
   * roster, no entry carries the own id, and every entry has a display name.
   */
  function OthersFrom(roster: seq<Presence>, self: Option<string>): (others: seq<User>)
    ensures |others| <= |roster|
    ensures forall i :: 0 <= i < |others| ==> (self.Some? ==> others[i].id != self.value) && others[i].name.Some?
  {
    FilterMapSound(roster, KeepOf(self), ToUser, (u: User) => (self.Some? ==> u.id != self.value) && u.name.Some?);
    FilterMap(roster, KeepOf(self), ToUser)
  }

  /** How many roster entries carry `id`. */
  function CountId(roster: seq<Presence>, id: string): nat
  {
    if roster == [] then 0 else (if roster[0].id == id then 1 else 0) + CountId(roster[1..], id)
  }

  /** The list is as long as the roster less the entries carrying the own id. */
  lemma {:induction false} OthersLength(roster: seq<Presence>, self: Option<string>)
    ensures |OthersFrom(roster, self)| == |roster| - (if self.Some? then CountId(roster, self.value) else 0)
  {
    if roster != [] {
      OthersLength(roster[1..], self);
      assert KeepOf(self)(roster[0]) == Keep(roster[0], self);
    }
  }

  /** With no own id yet every entry is kept, in order. */
  lemma OthersWithoutSelf(roster: seq<Presence>)
    ensures |OthersFrom(roster, None)| == |roster|
    ensures forall i :: 0 <= i < |roster| ==> OthersFrom(roster, None)[i] == ToUser(roster[i])
  {
    forall i | 0 <= i < |roster| ensures KeepOf(None)(roster[i]) {
    }
    FilterMapAll(roster, KeepOf(None), ToUser);
  }

  /** The roster positions the filter keeps, in increasing order. */
  function KeptPositions(roster: seq<Presence>, self: Option<string>): seq<nat>
  {
    KeptFrom(roster, KeepOf(self), 0)
  }

  /**
   * The others list is the roster's kept entries in their roster order:
   * entry i of the list comes from a kept roster position, the positions
   * increase, and every kept position is used.
   */
  lemma OthersOrder(roster: seq<Presence>, self: Option<string>)
    ensures |KeptPositions(roster, self)| == |OthersFrom(roster, self)|
    ensures forall i :: 0 <= i < |KeptPositions(roster, self)| ==>
              Keep(roster[KeptPositions(roster, self)[i]], self) &&
              OthersFrom(roster, self)[i] == ToUser(roster[KeptPositions(roster, self)[i]])
    ensures forall i, j :: 0 <= i < j < |KeptPositions(roster, self)| ==>
              KeptPositions(roster, self)[i] < KeptPositions(roster, self)[j]
    ensures forall p :: 0 <= p < |roster| && Keep(roster[p], self) ==> p in KeptPositions(roster, self)
  {
    OthersMapped(roster, self);
    OthersKept(roster, self);
    KeptIncreasing(roster, KeepOf(self), 0);
    OthersComplete(roster, self);
  }

  lemma OthersMapped(roster: seq<Presence>, self: Option<string>)
    ensures |KeptPositions(roster, self)| == |OthersFrom(roster, self)|
    ensures forall i :: 0 <= i < |KeptPositions(roster, self)| ==>
              OthersFrom(roster, self)[i] == ToUser(roster[KeptPositions(roster, self)[i]])
  {
    var ks := KeptPositions(roster, self);
    KeptMapped(roster, KeepOf(self), ToUser, 0);
    forall i | 0 <= i < |ks| ensures OthersFrom(roster, self)[i] == ToUser(roster[ks[i]]) {
      assert ks[i] - 0 == ks[i];
    }
  }

  lemma OthersKept(roster: seq<Presence>, self: Option<string>)
    ensures forall i :: 0 <= i < |KeptPositions(roster, self)| ==> Keep(roster[KeptPositions(roster, self)[i]], self)
  {
    var ks := KeptPositions(roster, self);
    KeptAreKept(roster, KeepOf(self), 0);
    forall i | 0 <= i < |ks| ensures Keep(roster[ks[i]], self) {
      assert KeepOf(self)(roster[ks[i] - 0]);
    }
  }

  lemma OthersComplete(roster: seq<Presence>, self: Option<string>)
    ensures forall p :: 0 <= p < |roster| && Keep(roster[p], self) ==> p in KeptPositions(roster, self)
  {
    KeptComplete(roster, KeepOf(self), 0);
    forall p | 0 <= p < |roster| && Keep(roster[p], self) ensures p in KeptPositions(roster, self) {
      assert KeepOf(self)(roster[p]);
      assert 0 + p == p;
    }
  }

  // ---------------------------------------------------------------------------
  // Filter-then-map over any sequence, and the positions it keeps
  // ---------------------------------------------------------------------------

  /** `xs.filter(keep).map(f)`. */
  function FilterMap<A, B>(xs: seq<A>, keep: A -> bool, f: A -> B): (ys: seq<B>)
    ensures |ys| <= |xs|
  {
    if xs == [] then []
    else (if keep(xs[0]) then [f(xs[0])] else []) + FilterMap(xs[1..], keep, f)
  }

  /** Every element of `xs.filter(keep).map(f)` satisfies `p` when `f` maps every kept element into `p`. */
  lemma {:induction false} FilterMapSound<A, B>(xs: seq<A>, keep: A -> bool, f: A -> B, p: B -> bool)
    requires forall x :: keep(x) ==> p(f(x))
    ensures forall i :: 0 <= i < |FilterMap(xs, keep, f)| ==> p(FilterMap(xs, keep, f)[i])
  {
    if xs != [] {
      FilterMapSound(xs[1..], keep, f, p);
      var head := if keep(xs[0]) then [f(xs[0])] else [];
      assert FilterMap(xs, keep, f) == head + FilterMap(xs[1..], keep, f);
    }
  }

  /** The positions of `xs` that `keep` accepts, counted from `base`. */
  function KeptFrom<A>(xs: seq<A>, keep: A -> bool, base: nat): (ks: seq<nat>)
    ensures forall i :: 0 <= i < |ks| ==> base <= ks[i] < base + |xs|
  {
    if xs == [] then []
    else (if keep(xs[0]) then [base] else []) + KeptFrom(xs[1..], keep, base + 1)
  }

  /** Element i of the result is `f` of the element at the i-th kept position. */
  lemma {:induction false} KeptMapped<A, B>(xs: seq<A>, keep: A -> bool, f: A -> B, base: nat)
    ensures |KeptFrom(xs, keep, base)| == |FilterMap(xs, keep, f)|
    ensures forall i :: 0 <= i < |KeptFrom(xs, keep, base)| ==>
              FilterMap(xs, keep, f)[i] == f(xs[KeptFrom(xs, keep, base)[i] - base])
  {
    if xs != [] {
      KeptMapped(xs[1..], keep, f, base + 1);
      var ks := KeptFrom(xs, keep, base);
      var rest := KeptFrom(xs[1..], keep, base + 1);
      var ys := FilterMap(xs, keep, f);
      var restYs := FilterMap(xs[1..], keep, f);
      var h := if keep(xs[0]) then 1 else 0;
      assert |ks| == h + |rest| && |ys| == h + |restYs|;
      forall i | h <= i < |ks| ensures ys[i] == f(xs[ks[i] - base]) {
        assert ks[i] == rest[i - h];
        assert ys[i] == restYs[i - h];
        assert xs[1..][rest[i - h] - (base + 1)] == xs[ks[i] - base];
      }
    }
  }

  /** Every kept position holds an element `keep` accepts. */
  lemma {:induction false} KeptAreKept<A>(xs: seq<A>, keep: A -> bool, base: nat)
    ensures forall i :: 0 <= i < |KeptFrom(xs, keep, base)| ==> keep(xs[KeptFrom(xs, keep, base)[i] - base])
  {
    if xs != [] {
      KeptAreKept(xs[1..], keep, base + 1);
      var ks := KeptFrom(xs, keep, base);
      var rest := KeptFrom(xs[1..], keep, base + 1);
      var h := if keep(xs[0]) then 1 else 0;
      assert |ks| == h + |rest|;
      forall i | h <= i < |ks| ensures keep(xs[ks[i] - base]) {
        assert ks[i] == rest[i - h];
        assert xs[1..][rest[i - h] - (base + 1)] == xs[ks[i] - base];
      }
    }
  }

  /** The kept positions increase. */
  lemma {:induction false} KeptIncreasing<A>(xs: seq<A>, keep: A -> bool, base: nat)
    ensures forall i, j :: 0 <= i < j < |KeptFrom(xs, keep, base)| ==>
              KeptFrom(xs, keep, base)[i] < KeptFrom(xs, keep, base)[j]
  {
    if xs != [] {
      KeptIncreasing(xs[1..], keep, base + 1);
      var ks := KeptFrom(xs, keep, base);
      var rest := KeptFrom(xs[1..], keep, base + 1);
      var h := if keep(xs[0]) then 1 else 0;
      assert |ks| == h + |rest|;
      forall i, j | 0 <= i < j < |ks| ensures ks[i] < ks[j] {
        assert ks[j] == rest[j - h];
        if i >= h {
          assert ks[i] == rest[i - h];
        }
      }
    }
  }

  /** Every position whose element `keep` accepts is kept. */
  lemma {:induction false} KeptComplete<A>(xs: seq<A>, keep: A -> bool, base: nat)
    ensures forall p :: 0 <= p < |xs| && keep(xs[p]) ==> base + p in KeptFrom(xs, keep, base)
  {
    if xs != [] {
      KeptComplete(xs[1..], keep, base + 1);
      var ks := KeptFrom(xs, keep, base);
      var rest := KeptFrom(xs[1..], keep, base + 1);
      forall p | 0 <= p < |xs| && keep(xs[p]) ensures base + p in ks {
        if p > 0 {
          assert xs[1..][p - 1] == xs[p];
          assert base + 1 + (p - 1) in rest;
        }
      }
    }
  }

  /** When `keep` accepts every element, the result is `f` of each element, in order. */
  lemma {:induction false} FilterMapAll<A, B>(xs: seq<A>, keep: A -> bool, f: A -> B)
    requires forall i :: 0 <= i < |xs| ==> keep(xs[i])
    ensures |FilterMap(xs, keep, f)| == |xs|
    ensures forall i :: 0 <= i < |xs| ==> FilterMap(xs, keep, f)[i] == f(xs[i])
  {
    if xs != [] {
      assert keep(xs[0]);
      forall i | 0 <= i < |xs[1..]| ensures keep(xs[1..][i]) {
        assert xs[1..][i] == xs[i + 1];
      }
      FilterMapAll(xs[1..], keep, f);
      var rest := FilterMap(xs[1..], keep, f);
      assert FilterMap(xs, keep, f) == [f(xs[0])] + rest;
      forall i | 0 < i < |xs| ensures FilterMap(xs, keep, f)[i] == f(xs[i]) {
        assert xs[1..][i - 1] == xs[i];
      }
    }
  }

  /** The `userPresence` callback: the others list replaces the stored one, whatever it held. */
  function OnUserPresence(s: AppState, roster: seq<Presence>, self: Option<string>): (r: AppState)
    ensures r.onlineUsers == OthersFrom(roster, self)
    ensures OthersAgree(s, r, OnlineUsers)
  {
    SetOnlineUsers(s, OthersFrom(roster, self))
  }

  /** The identifier of a remote note: the note name, then the octave in decimal. */
  function NoteId(note: string, octave: int): (id: string)
    ensures |id| > |note| && id[..|note|] == note
    ensures octave >= 0 ==> AllDigits(id[|note|..]) && DecimalValue(id[|note|..]) == octave
    ensures octave > 0 ==> id[|note|] != '0'
    ensures octave < 0 ==> id[|note|] == '-' && AllDigits(id[|note| + 1..])
    ensures octave < 0 ==> DecimalValue(id[|note| + 1..]) == -octave && id[|note| + 1] != '0'
  {
    IntToDecimalValue(octave);
    assert (note + IntToDecimal(octave))[|note|..] == IntToDecimal(octave);
    note + IntToDecimal(octave)
  }

  /** For a key's pitch and octave the identifier is the name the MIDI conversion gives that key. */
  lemma NoteIdIsMidiName(m: nat)
    ensures NoteId(PitchNames[m % 12], m / 12 - 1) == MidiToNoteName(m)
  {
  }

  /** For a table pitch and an octave from 0 up the identifier reads back as that key's MIDI number. */
  lemma NoteIdReadsBack(k: nat, octave: nat)
    requires k < 12
    ensures NoteNameToMidi(NoteId(PitchNames[k], octave)) == Number((octave + 1) * 12 + k)
  {
    NoteNameToMidiOctave(k, octave);
  }
}
