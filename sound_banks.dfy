/**
 * Sample maps and the sound-bank table (src/lib/audio/soundBanks.ts).
 * A sample map sends a note name ("C#4") to a sample file name.
 */
module SoundBanks {
  import opened Wrappers
  import opened NoteNames

  type SampleMap = map<string, string>

  datatype SoundBankConfig = SoundBankConfig(
    id: string,
    name: string,
    description: string,
    icon: string,
    samples: SampleMap)

  // ---------------------------------------------------------------------------
  // Reference definitions
  // ---------------------------------------------------------------------------

  /** The note names of the chromatic run of MIDI numbers lo .. hi - 1. */
  function ChromaticNames(lo: nat, hi: nat): set<string>
  {
    set m: nat | lo <= m < hi :: MidiToNoteName(m)
  }

  /** Each name mapped to the file `name.wav`. */
  function WavMap(names: set<string>): SampleMap
  {
    map n | n in names :: n + ".wav"
  }

  /** Each name mapped to its URL-encoded form followed by `.wav`. */
  function EncodedWavMap(names: set<string>): SampleMap
  {
    map n | n in names :: EncodeHash(n) + ".wav"
  }

  /** Replaces every '#' by its URL encoding "%23". */
  function EncodeHash(s: string): (r: string)
    ensures '#' !in s ==> r == s
    ensures '#' !in r
  {
    if s == [] then []
    else (if s[0] == '#' then "%23" else [s[0]]) + EncodeHash(s[1..])
  }

  lemma {:induction false} ChromaticExtend(lo: nat, hi: nat)
    requires lo <= hi
    ensures ChromaticNames(lo, hi + 1) == ChromaticNames(lo, hi) + {MidiToNoteName(hi)}
  {
  }

  /** From MIDI 12 on, a chromatic run of n notes has n distinct names. */
  lemma ChromaticCount(lo: nat, hi: nat)
    requires 12 <= lo <= hi
    ensures |ChromaticNames(lo, hi)| == hi - lo
  {
    forall a: nat, b: nat | lo <= a < b < hi ensures MidiToNoteName(a) != MidiToNoteName(b) {
      if MidiToNoteName(a) == MidiToNoteName(b) {
        MidiToNoteNameInjective(a, b);
      }
    }
    var f: nat -> string := MidiToNoteName;
    ImageCount(f, lo, hi);
    var image := Image(f, lo, hi);
    forall x | x in image ensures x in ChromaticNames(lo, hi) {
      var m: nat :| lo <= m < hi && x == f(m);
      assert x == MidiToNoteName(m);
    }
    forall x | x in ChromaticNames(lo, hi) ensures x in image {
      var m: nat :| lo <= m < hi && x == MidiToNoteName(m);
      assert x == f(m);
    }
    assert image == ChromaticNames(lo, hi);
  }

  /** An injective function maps a range of n numbers onto n distinct values. */
  lemma {:induction false} ImageCount<T>(f: nat -> T, lo: nat, hi: nat)
    requires lo <= hi
    requires forall a: nat, b: nat :: lo <= a < b < hi ==> f(a) != f(b)
    ensures |Image(f, lo, hi)| == hi - lo
    decreases hi - lo
  {
    if lo < hi {
      ImageCount(f, lo, hi - 1);
      ImageExtend(f, lo, hi - 1);
      ImageFresh(f, lo, hi - 1);
      CardAddFresh(Image(f, lo, hi - 1), f(hi - 1));
    } else {
      assert Image(f, lo, hi) == {};
    }
  }

  ghost function Image<T>(f: nat -> T, lo: nat, hi: nat): set<T>
  {
    set m: nat | lo <= m < hi :: f(m)
  }

  lemma ImageExtend<T>(f: nat -> T, lo: nat, hi: nat)
    requires lo <= hi
    ensures Image(f, lo, hi + 1) == Image(f, lo, hi) + {f(hi)}
  {
    forall x | x in Image(f, lo, hi + 1) ensures x in Image(f, lo, hi) + {f(hi)} {
      var m: nat :| lo <= m < hi + 1 && x == f(m);
      if m < hi {
        assert x in Image(f, lo, hi);
      }
    }
  }

  lemma ImageFresh<T>(f: nat -> T, lo: nat, hi: nat)
    requires lo <= hi
    requires forall a: nat, b: nat :: lo <= a < b <= hi ==> f(a) != f(b)
    ensures f(hi) !in Image(f, lo, hi)
  {
  }

  lemma ChromaticEmpty(lo: nat)
    ensures ChromaticNames(lo, lo) == {}
  {
  }

  lemma CardAddFresh<T>(s: set<T>, x: T)
    requires x !in s
    ensures |s + {x}| == |s| + 1
  {
  }

  // ---------------------------------------------------------------------------
  // generateProfessionalStringsSampleMap (soundBanks.ts:58-100)
  // ---------------------------------------------------------------------------

  /**
   * The strings map, one octave group at a time as the source lists it: it
   * is exactly the chromatic run G2 (MIDI 43) to F5 (MIDI 77), each note
   * mapped to its name with '#' encoded as "%23" and `.wav` appended.
   */
  function ProfessionalStringsSampleMap(): (m: SampleMap)
    ensures m == EncodedWavMap(ChromaticNames(43, 78))
  {
    StringsKeys();
    StringsEncoded();
    EncodedIsEncodedWavMap(StringsOctave2() + StringsOctave3() + StringsOctave4() + StringsOctave5());
    StringsOctave2() + StringsOctave3() + StringsOctave4() + StringsOctave5()
  }

  function StringsOctave2(): SampleMap
  {
    map[
      "G2" := "G2.wav",
      "G#2" := "G%232.wav",
      "A2" := "A2.wav",
      "A#2" := "A%232.wav",
      "B2" := "B2.wav"]
  }

  function StringsOctave3(): SampleMap
  {
    map[
      "C3" := "C3.wav",
      "C#3" := "C%233.wav",
      "D3" := "D3.wav",
      "D#3" := "D%233.wav",
      "E3" := "E3.wav",
      "F3" := "F3.wav",
      "F#3" := "F%233.wav",
      "G3" := "G3.wav",
      "G#3" := "G%233.wav",
      "A3" := "A3.wav",
      "A#3" := "A%233.wav",
      "B3" := "B3.wav"]
  }

  function StringsOctave4(): SampleMap
  {
    map[
      "C4" := "C4.wav",
      "C#4" := "C%234.wav",
      "D4" := "D4.wav",
      "D#4" := "D%234.wav",
      "E4" := "E4.wav",
      "F4" := "F4.wav",
      "F#4" := "F%234.wav",
      "G4" := "G4.wav",
      "G#4" := "G%234.wav",
      "A4" := "A4.wav",
      "A#4" := "A%234.wav",
      "B4" := "B4.wav"]
  }

  function StringsOctave5(): SampleMap
  {
    map[
      "C5" := "C5.wav",
      "C#5" := "C%235.wav",
      "D5" := "D5.wav",
      "D#5" := "D%235.wav",
      "E5" := "E5.wav",
      "F5" := "F5.wav"]
  }

  /** Values encoded: every value of the map is its key with '#' written "%23", then `.wav`. */
  ghost predicate EncodedValues(m: SampleMap)
  {
    forall n :: n in m ==> m[n] == EncodeHash(n) + ".wav"
  }

  /** The octave-2 group has encoded values. */
  lemma StringsOctave2Encoded()
    ensures EncodedValues(StringsOctave2())
  {
    GroupEncoded(StringsOctave2());
  }

  /** The octave-2 group holds exactly the names of MIDI 43 .. 47. */
  lemma StringsOctave2Names()
    ensures StringsOctave2().Keys <= ChromaticNames(43, 48)
    ensures forall m: nat :: 43 <= m < 48 ==> MidiToNoteName(m) in StringsOctave2()
  {
    NamesOfOctave2();
    forall m: nat | 43 <= m < 48 ensures MidiToNoteName(m) in StringsOctave2() {
      assert m == 43 || m == 44 || m == 45 || m == 46 || m == 47;
    }
  }

  /** The octave-3 group has encoded values. */
  lemma StringsOctave3Encoded()
    ensures EncodedValues(StringsOctave3())
  {
    GroupEncoded(StringsOctave3());
  }

  /** The octave-3 group holds exactly the names of MIDI 48 .. 59. */
  lemma StringsOctave3Names()
    ensures StringsOctave3().Keys <= ChromaticNames(48, 60)
    ensures forall m: nat :: 48 <= m < 60 ==> MidiToNoteName(m) in StringsOctave3()
  {
    NamesOfOctave3();
    forall m: nat | 48 <= m < 60 ensures MidiToNoteName(m) in StringsOctave3() {
      assert m == 48 || m == 49 || m == 50 || m == 51 || m == 52 || m == 53 || m == 54 || m == 55 || m == 56 || m == 57 || m == 58 || m == 59;
    }
  }

  /** The octave-4 group has encoded values. */
  lemma StringsOctave4Encoded()
    ensures EncodedValues(StringsOctave4())
  {
    GroupEncoded(StringsOctave4());
  }

  /** The octave-4 group holds exactly the names of MIDI 60 .. 71. */
  lemma StringsOctave4Names()
    ensures StringsOctave4().Keys <= ChromaticNames(60, 72)
    ensures forall m: nat :: 60 <= m < 72 ==> MidiToNoteName(m) in StringsOctave4()
  {
    NamesOfOctave4();
    forall m: nat | 60 <= m < 72 ensures MidiToNoteName(m) in StringsOctave4() {
      assert m == 60 || m == 61 || m == 62 || m == 63 || m == 64 || m == 65 || m == 66 || m == 67 || m == 68 || m == 69 || m == 70 || m == 71;
    }
  }

  /** The octave-5 group has encoded values. */
  lemma StringsOctave5Encoded()
    ensures EncodedValues(StringsOctave5())
  {
    GroupEncoded(StringsOctave5());
  }

  /** The octave-5 group holds exactly the names of MIDI 72 .. 77. */
  lemma StringsOctave5Names()
    ensures StringsOctave5().Keys <= ChromaticNames(72, 78)
    ensures forall m: nat :: 72 <= m < 78 ==> MidiToNoteName(m) in StringsOctave5()
  {
    NamesOfOctave5();
    forall m: nat | 72 <= m < 78 ensures MidiToNoteName(m) in StringsOctave5() {
      assert m == 72 || m == 73 || m == 74 || m == 75 || m == 76 || m == 77;
    }
  }

  /**
   * A literal group whose plain names map to `name.wav` and whose sharp
   * names (letter, '#', digit) map to letter, "%23", digit, `.wav` has
   * encoded values.
   */
  lemma GroupEncoded(m: SampleMap)
    requires forall n :: n in m && '#' !in n ==> m[n] == n + ".wav"
    requires forall n :: n in m && '#' in n ==>
               |n| == 3 && n[1] == '#' && n[0] != '#' && n[2] != '#' && m[n] == n[..1] + "%23" + n[2..] + ".wav"
    ensures EncodedValues(m)
  {
    forall n | n in m ensures m[n] == EncodeHash(n) + ".wav" {
      if '#' in n {
        EncodeOneSharp(n);
      }
    }
  }

  /** A group whose keys lie in the run of MIDI lo .. hi - 1 and cover it is exactly the names of that run. */
  lemma GroupKeys(m: SampleMap, lo: nat, hi: nat)
    requires m.Keys <= ChromaticNames(lo, hi)
    requires forall k: nat :: lo <= k < hi ==> MidiToNoteName(k) in m
    ensures m.Keys == ChromaticNames(lo, hi)
  {
  }

  lemma ChromaticJoin(lo: nat, mid: nat, hi: nat)
    requires lo <= mid <= hi
    ensures ChromaticNames(lo, mid) + ChromaticNames(mid, hi) == ChromaticNames(lo, hi)
  {
  }

  lemma EncodedJoin(a: SampleMap, b: SampleMap)
    requires EncodedValues(a) && EncodedValues(b)
    ensures EncodedValues(a + b)
  {
  }

  lemma KeysJoin(a: SampleMap, b: SampleMap)
    ensures (a + b).Keys == a.Keys + b.Keys
  {
  }

  /** A map whose values are its encoded keys is the encoded map of its key set. */
  lemma EncodedIsEncodedWavMap(m: SampleMap)
    requires EncodedValues(m)
    ensures m == EncodedWavMap(m.Keys)
  {
  }

  /** The keys of the four octave groups together are the names of MIDI 43..77. */
  lemma StringsKeys()
    ensures (StringsOctave2() + StringsOctave3() + StringsOctave4() + StringsOctave5()).Keys == ChromaticNames(43, 78)
  {
    var o2, o3, o4, o5 := StringsOctave2(), StringsOctave3(), StringsOctave4(), StringsOctave5();
    StringsOctave2Names();
    GroupKeys(o2, 43, 48);
    StringsOctave3Names();
    GroupKeys(o3, 48, 60);
    StringsOctave4Names();
    GroupKeys(o4, 60, 72);
    StringsOctave5Names();
    GroupKeys(o5, 72, 78);
    KeysJoin(o2, o3);
    KeysJoin(o2 + o3, o4);
    KeysJoin(o2 + o3 + o4, o5);
    ChromaticJoin(43, 48, 60);
    ChromaticJoin(43, 60, 72);
    ChromaticJoin(43, 72, 78);
  }

  /** Every value of the four octave groups is its key with '#' encoded, then `.wav`. */
  lemma StringsEncoded()
    ensures EncodedValues(StringsOctave2() + StringsOctave3() + StringsOctave4() + StringsOctave5())
  {
    var o2, o3, o4, o5 := StringsOctave2(), StringsOctave3(), StringsOctave4(), StringsOctave5();
    StringsOctave2Encoded();
    StringsOctave3Encoded();
    StringsOctave4Encoded();
    StringsOctave5Encoded();
    EncodedJoin(o2, o3);
    EncodedJoin(o2 + o3, o4);
    EncodedJoin(o2 + o3 + o4, o5);
  }

  /** The strings map holds 35 notes, one for each MIDI number from G2 (43) to F5 (77). */
  lemma StringsMapSize()
    ensures |ProfessionalStringsSampleMap()| == 35
  {
    var m := ProfessionalStringsSampleMap();
    ChromaticCount(43, 78);
    assert m.Keys == ChromaticNames(43, 78);
    assert |m| == |m.Keys|;
  }

  /** A three-character name with its one '#' in the middle encodes to letter, "%23", digit. */
  lemma EncodeOneSharp(n: string)
    requires |n| == 3 && n[1] == '#' && n[0] != '#' && n[2] != '#'
    ensures EncodeHash(n) == n[..1] + "%23" + n[2..]
  {
    assert n[1..][1..] == n[2..];
    assert '#' !in n[2..];
  }

  lemma NamesOfOctave2()
    ensures MidiToNoteName(43) == "G2"
         && MidiToNoteName(44) == "G#2"
         && MidiToNoteName(45) == "A2"
         && MidiToNoteName(46) == "A#2"
         && MidiToNoteName(47) == "B2"
  {
  }

  lemma NamesOfOctave3()
    ensures MidiToNoteName(48) == "C3"
         && MidiToNoteName(49) == "C#3"
         && MidiToNoteName(50) == "D3"
         && MidiToNoteName(51) == "D#3"
         && MidiToNoteName(52) == "E3"
         && MidiToNoteName(53) == "F3"
         && MidiToNoteName(54) == "F#3"
         && MidiToNoteName(55) == "G3"
         && MidiToNoteName(56) == "G#3"
         && MidiToNoteName(57) == "A3"
         && MidiToNoteName(58) == "A#3"
         && MidiToNoteName(59) == "B3"
  {
  }

  lemma NamesOfOctave4()
    ensures MidiToNoteName(60) == "C4"
         && MidiToNoteName(61) == "C#4"
         && MidiToNoteName(62) == "D4"
         && MidiToNoteName(63) == "D#4"
         && MidiToNoteName(64) == "E4"
         && MidiToNoteName(65) == "F4"
         && MidiToNoteName(66) == "F#4"
         && MidiToNoteName(67) == "G4"
         && MidiToNoteName(68) == "G#4"
         && MidiToNoteName(69) == "A4"
         && MidiToNoteName(70) == "A#4"
         && MidiToNoteName(71) == "B4"
  {
  }

  lemma NamesOfOctave5()
    ensures MidiToNoteName(72) == "C5"
         && MidiToNoteName(73) == "C#5"
         && MidiToNoteName(74) == "D5"
         && MidiToNoteName(75) == "D#5"
         && MidiToNoteName(76) == "E5"
         && MidiToNoteName(77) == "F5"
  {
  }


  // ---------------------------------------------------------------------------
  // generateSampleMap (soundBanks.ts:24-40)
  // ---------------------------------------------------------------------------

  /** The map generateSampleMap builds: C3 (MIDI 48) up to C6 (MIDI 84), each to `name.wav`. */
  function ThreeOctaveSampleMap(): SampleMap
  {
    WavMap(ChromaticNames(48, 85))
  }

  /**
   * For octaves 3, 4, 5 and each of the twelve pitch names, insert
   * `name -> name.wav`; then add C6.  The bank name is not used.
   */
  method GenerateSampleMap(bankName: string) returns (sampleMap: SampleMap)
    ensures sampleMap == ThreeOctaveSampleMap()
  {
    var notes := PitchNames;
    var octaves: seq<nat> := [3, 4, 5];
    ThreeOctaveTop();
    sampleMap := map[];
    StartEmpty();
    for oi := 0 to |octaves|
      invariant sampleMap == WavMap(ChromaticNames(48, 48 + 12 * oi))
    {
      var octave := octaves[oi];
      assert octave == oi + 3;
      for ni := 0 to |notes|
        invariant sampleMap == WavMap(ChromaticNames(48, 48 + 12 * oi + ni))
      {
        var noteName := notes[ni] + NatToDecimal(octave);
        InsertNextNote(oi, ni);
        sampleMap := sampleMap[noteName := noteName + ".wav"];
      }
    }
    // then the top note, C6
    sampleMap := sampleMap["C6" := "C6.wav"];
  }

  /** The three-octave run is the run C3..B5 with C6 added on top. */
  lemma ThreeOctaveTop()
    ensures ThreeOctaveSampleMap() == WavMap(ChromaticNames(48, 84))["C6" := "C6.wav"]
  {
    assert MidiToNoteName(84) == "C6";
    ExtendWith(48, 84, "C6");
    assert "C6" + ".wav" == "C6.wav";
  }

  lemma StartEmpty()
    ensures WavMap(ChromaticNames(48, 48)) == map[]
  {
    ChromaticEmpty(48);
  }

  /** Inserting pitch ni of octave oi + 3 extends the run by that note. */
  lemma InsertNextNote(oi: nat, ni: nat)
    requires oi < 3 && ni < 12
    ensures WavMap(ChromaticNames(48, 48 + 12 * oi + ni))[PitchNames[ni] + NatToDecimal(oi + 3) := PitchNames[ni] + NatToDecimal(oi + 3) + ".wav"]
         == WavMap(ChromaticNames(48, 48 + 12 * oi + ni + 1))
  {
    var midi := 48 + 12 * oi + ni;
    var name := PitchNames[ni] + NatToDecimal(oi + 3);
    MidiToNoteNameAt(oi + 3, ni);
    assert (oi + 3 + 1) * 12 + ni == midi;
    assert MidiToNoteName(midi) == name;
    ExtendWith(48, midi, name);
  }

  /** Inserting the name of the next note extends the run by one. */
  lemma ExtendWith(lo: nat, hi: nat, n: string)
    requires lo <= hi && MidiToNoteName(hi) == n
    ensures WavMap(ChromaticNames(lo, hi))[n := n + ".wav"] == WavMap(ChromaticNames(lo, hi + 1))
  {
    ChromaticExtend(lo, hi);
    WavMapAdd(ChromaticNames(lo, hi), n);
  }

  lemma WavMapAdd(names: set<string>, n: string)
    ensures WavMap(names + {n}) == WavMap(names)[n := n + ".wav"]
  {
  }

  /**
   * The three-octave map has exactly 37 entries: every pitch name in octaves
   * 3, 4 and 5, and C6; every value is its key followed by `.wav`.
   */
  lemma ThreeOctaveShape()
    ensures |ThreeOctaveSampleMap()| == 37
    ensures forall o: nat, k: nat :: 3 <= o <= 5 && k < 12 ==> PitchNames[k] + NatToDecimal(o) in ThreeOctaveSampleMap()
    ensures "C6" in ThreeOctaveSampleMap()
    ensures forall n :: n in ThreeOctaveSampleMap() ==> ThreeOctaveSampleMap()[n] == n + ".wav"
  {
    ThreeOctaveCount();
    ThreeOctaveNotes();
    ThreeOctaveTop();
  }

  lemma ThreeOctaveCount()
    ensures |ThreeOctaveSampleMap()| == 37
  {
    ChromaticCount(48, 85);
    KeysOfWavMap(ChromaticNames(48, 85));
  }

  lemma KeysOfWavMap(names: set<string>)
    ensures WavMap(names).Keys == names
    ensures |WavMap(names)| == |names|
  {
  }

  lemma ThreeOctaveNotes()
    ensures forall o: nat, k: nat :: 3 <= o <= 5 && k < 12 ==> PitchNames[k] + NatToDecimal(o) in ThreeOctaveSampleMap()
  {
    forall o: nat, k: nat | 3 <= o <= 5 && k < 12 ensures PitchNames[k] + NatToDecimal(o) in ThreeOctaveSampleMap() {
      MidiToNoteNameAt(o, k);
      ChromaticMember(48, 85, (o + 1) * 12 + k);
    }
  }

  lemma ChromaticMember(lo: nat, hi: nat, m: nat)
    requires lo <= m < hi
    ensures MidiToNoteName(m) in ChromaticNames(lo, hi)
  {
  }

  // ---------------------------------------------------------------------------
  // generateMinimalSampleMap (soundBanks.ts:46-51)
  // ---------------------------------------------------------------------------

  /** The two-note map: middle C (MIDI 60) and the D above it (MIDI 62), as `.wav` files. */
  function MinimalSampleMap(): (m: SampleMap)
    ensures m == WavMap({MidiToNoteName(60), MidiToNoteName(62)})
  {
    assert MidiToNoteName(60) == "C4" && MidiToNoteName(62) == "D4";
    var w := WavMap({"C4", "D4"});
    assert w.Keys == {"C4", "D4"} && w["C4"] == "C4.wav" && w["D4"] == "D4.wav";
    map["C4" := "C4.wav", "D4" := "D4.wav"]
  }

  /** The minimal map has exactly the keys C4 and D4, each mapped to its `.wav` file. */
  lemma MinimalSampleMapNotes()
    ensures MinimalSampleMap().Keys == {"C4", "D4"}
    ensures MinimalSampleMap()["C4"] == "C4.wav" && MinimalSampleMap()["D4"] == "D4.wav"
  {
    assert MidiToNoteName(60) == "C4" && MidiToNoteName(62) == "D4";
  }

  // ---------------------------------------------------------------------------
  // The bank table, getSoundBank and getAllSoundBanks (soundBanks.ts:106-149)
  // ---------------------------------------------------------------------------

  /** The table of banks, in the order the source lists them; no two share an id. */
  function Banks(): (r: seq<SoundBankConfig>)
    ensures |r| == 4
    ensures forall i, j :: 0 <= i < j < |r| ==> r[i].id != r[j].id
  {
    [
      SoundBankConfig("strings", "Strings", "Lush orchestral strings (violins, cellos)", "\U{1F3BB}",
                      ProfessionalStringsSampleMap()),
      SoundBankConfig("choir", "Choir", "Mellotron's iconic choir sound", "\U{1F3A4}",
                      ThreeOctaveSampleMap()),
      SoundBankConfig("flutes", "Flutes", "Soft, melodic flute ensemble", "\U{1F3B5}",
                      ThreeOctaveSampleMap()),
      SoundBankConfig("brass", "Brass", "Bold brass section", "\U{1F3BA}",
                      ThreeOctaveSampleMap())
    ]
  }

  /** `Array.prototype.find` on the banks: the first bank with that id. */
  function FindBank(banks: seq<SoundBankConfig>, id: string): (r: Option<SoundBankConfig>)
    ensures r.Some? ==> r.value in banks && r.value.id == id
    ensures r.None? <==> forall i :: 0 <= i < |banks| ==> banks[i].id != id
    ensures r.Some? ==> exists i :: 0 <= i < |banks| && banks[i] == r.value &&
                          forall j :: 0 <= j < i ==> banks[j].id != id
  {
    if |banks| == 0 then None
    else if banks[0].id == id then Some(banks[0])
    else
      var r := FindBank(banks[1..], id);
      assert forall i :: 1 <= i < |banks| ==> banks[i] == banks[1..][i - 1];
      r
  }

  /** `getSoundBank`: a bank of the table carrying that id, or undefined exactly when none does. */
  function GetSoundBank(id: string): (r: Option<SoundBankConfig>)
    ensures r.Some? ==> r.value in Banks() && r.value.id == id
    ensures r.None? <==> forall i :: 0 <= i < |Banks()| ==> Banks()[i].id != id
  {
    FindBank(Banks(), id)
  }

  /** `getAllSoundBanks`: four banks, each of which `getSoundBank` finds by its id. */
  function GetAllSoundBanks(): (r: seq<SoundBankConfig>)
    ensures |r| == 4
    ensures forall i :: 0 <= i < |r| ==> GetSoundBank(r[i].id) == Some(r[i])
  {
    AllBanksFound();
    Banks()
  }

  /** Every bank of the table is what `getSoundBank` returns for its id. */
  lemma AllBanksFound()
    ensures forall i :: 0 <= i < |Banks()| ==> GetSoundBank(Banks()[i].id) == Some(Banks()[i])
  {
    forall i | 0 <= i < |Banks()|
      ensures GetSoundBank(Banks()[i].id) == Some(Banks()[i])
    {
      FindDistinct(Banks(), i);
    }
  }

  /** Four banks, strings, choir, flutes and brass in that order, with distinct ids. */
  lemma BankIds()
    ensures |GetAllSoundBanks()| == 4
    ensures GetAllSoundBanks()[0].id == "strings" && GetAllSoundBanks()[1].id == "choir"
    ensures GetAllSoundBanks()[2].id == "flutes" && GetAllSoundBanks()[3].id == "brass"
    ensures forall i, j :: 0 <= i < j < |GetAllSoundBanks()| ==> GetAllSoundBanks()[i].id != GetAllSoundBanks()[j].id
  {
  }

  /**
   * The strings bank plays the chromatic run G2..F5; the other three share
   * one three-octave map, so the bank name given to generateSampleMap makes
   * no difference.
   */
  lemma BankSamples()
    ensures GetAllSoundBanks()[0].samples == EncodedWavMap(ChromaticNames(43, 78))
    ensures GetAllSoundBanks()[1].samples == WavMap(ChromaticNames(48, 85))
    ensures GetAllSoundBanks()[2].samples == GetAllSoundBanks()[1].samples
    ensures GetAllSoundBanks()[3].samples == GetAllSoundBanks()[1].samples
  {
    var banks := GetAllSoundBanks();
    assert banks[0].samples == ProfessionalStringsSampleMap();
    assert banks[1].samples == banks[2].samples == banks[3].samples == ThreeOctaveSampleMap();
  }

  /** In a table with distinct ids, finding the id of entry i gives entry i. */
  lemma FindDistinct(banks: seq<SoundBankConfig>, i: nat)
    requires i < |banks|
    requires forall a, b :: 0 <= a < b < |banks| ==> banks[a].id != banks[b].id
    ensures FindBank(banks, banks[i].id) == Some(banks[i])
  {
    var r := FindBank(banks, banks[i].id);
    var k :| 0 <= k < |banks| && banks[k] == r.value && forall j :: 0 <= j < k ==> banks[j].id != banks[i].id;
    assert !(k < i) && !(i < k);
  }

  /** Any other id finds nothing. */
  lemma GetSoundBankUnknown(id: string)
    requires id != "strings" && id != "choir" && id != "flutes" && id != "brass"
    ensures GetSoundBank(id) == None
  {
  }
}
