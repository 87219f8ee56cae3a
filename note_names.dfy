/**
 * Note names and MIDI numbers (src/lib/utils.ts): `midiToNoteName`,
 * `noteNameToMidi` and the user colour palette.
 */
module NoteNames {
  import opened Wrappers

  /** The twelve pitch names, indexed by pitch class (MIDI number mod 12). */
  const PitchNames: seq<string> := ["C", "C#", "D", "D#", "E", "F", "F#", "G", "G#", "A", "A#", "B"]

  /** The eight-entry user colour palette. */
  const UserColors: seq<string> :=
    ["#8B5CF6", "#10B981", "#F59E0B", "#EF4444", "#3B82F6", "#EC4899", "#14B8A6", "#F97316"]

  predicate IsDigit(c: char) { '0' <= c <= '9' }

  predicate IsPitchLetter(c: char) { 'A' <= c <= 'G' }

  predicate AllDigits(s: string) { forall i :: 0 <= i < |s| ==> IsDigit(s[i]) }

  // ---------------------------------------------------------------------------
  // Decimal rendering and parsing of integers (template literals, parseInt)
  // ---------------------------------------------------------------------------

  function DigitChar(d: nat): (c: char)
    requires d < 10
    ensures IsDigit(c) && (c as int) - ('0' as int) == d
  {
    (('0' as int) + d) as char
  }

  function DigitValue(c: char): nat
    requires IsDigit(c)
  {
    (c as int) - ('0' as int)
  }

  /** The decimal numeral of `n`, without leading zeros, as JavaScript prints it. */
  function NatToDecimal(n: nat): (s: string)
    ensures |s| > 0 && AllDigits(s)
    ensures n > 0 ==> s[0] != '0'
    decreases n
  {
    if n < 10 then [DigitChar(n)] else NatToDecimal(n / 10) + [DigitChar(n % 10)]
  }

  /** The decimal numeral of an integer, as a template literal prints it, with a leading '-' when negative. */
  function IntToDecimal(i: int): (s: string)
    ensures i >= 0 ==> |s| > 0 && AllDigits(s)
    ensures i < 0 ==> |s| > 1 && s[0] == '-' && AllDigits(s[1..])
  {
    if i < 0 then "-" + NatToDecimal(-i) else NatToDecimal(i)
  }

  /** The digits of an integer's numeral read back as its magnitude, with no leading zero unless it is 0. */
  lemma IntToDecimalValue(i: int)
    ensures i >= 0 ==> DecimalValue(IntToDecimal(i)) == i && (i > 0 ==> IntToDecimal(i)[0] != '0')
    ensures i < 0 ==> DecimalValue(IntToDecimal(i)[1..]) == -i && IntToDecimal(i)[1] != '0'
  {
    if i < 0 {
      DecimalRoundTrip(-i);
      assert IntToDecimal(i)[1..] == NatToDecimal(-i);
    } else {
      DecimalRoundTrip(i);
    }
  }

  /** The value of a run of decimal digits (parseInt on a string of digits); it is 0 only for a run of zeros. */
  function DecimalValue(s: string): (v: nat)
    requires AllDigits(s)
    ensures v == 0 <==> forall i :: 0 <= i < |s| ==> s[i] == '0'
  {
    if s == [] then 0 else DecimalValue(s[..|s| - 1]) * 10 + DigitValue(s[|s| - 1])
  }

  lemma {:induction false} DecimalRoundTrip(n: nat)
    ensures DecimalValue(NatToDecimal(n)) == n
    decreases n
  {
    var s := NatToDecimal(n);
    if n < 10 {
    } else {
      DecimalRoundTrip(n / 10);
      assert s[..|s| - 1] == NatToDecimal(n / 10);
    }
  }

  /** A canonical numeral (no leading zero unless it is "0") is the rendering of its value. */
  lemma {:induction false} DecimalCanonical(s: string)
    requires |s| > 0 && AllDigits(s) && (s[0] == '0' ==> |s| == 1)
    ensures NatToDecimal(DecimalValue(s)) == s
    decreases |s|
  {
    var p := s[..|s| - 1];
    var d := DigitValue(s[|s| - 1]);
    if |s| == 1 {
      assert DecimalValue(s) == DecimalValue(p) * 10 + d;
      assert p == [];
    } else {
      assert s[0] == p[0];
      DecimalCanonical(p);
      DecimalPositive(p);
      var v := DecimalValue(p);
      assert DecimalValue(s) == v * 10 + d;
      assert (v * 10 + d) / 10 == v && (v * 10 + d) % 10 == d;
      assert s == p + [s[|s| - 1]];
    }
  }

  lemma {:induction false} DecimalPositive(s: string)
    requires |s| > 0 && AllDigits(s) && s[0] != '0'
    ensures DecimalValue(s) > 0
    decreases |s|
  {
    if |s| > 1 {
      var p := s[..|s| - 1];
      assert p[0] == s[0];
      DecimalPositive(p);
    }
  }

  // ---------------------------------------------------------------------------
  // midiToNoteName (utils.ts:17-22)
  // ---------------------------------------------------------------------------

  /**
   * `midiToNoteName`: the pitch name of `midi % 12` followed by the decimal
   * numeral of `floor(midi / 12) - 1`.  For MIDI 0..11 the octave is -1.
   */
  function MidiToNoteName(midi: nat): (name: string)
    ensures midi < 12 ==> name == PitchNames[midi] + "-1"
  {
    PitchNames[midi % 12] + IntToDecimal(midi / 12 - 1)
  }

  // ---------------------------------------------------------------------------
  // noteNameToMidi (utils.ts:29-40)
  // ---------------------------------------------------------------------------

  /** The pitch table of `noteNameToMidi` (an object literal; E# and B# are not keys). */
  const PitchTable: map<string, nat> :=
    map["C" := 0, "C#" := 1, "D" := 2, "D#" := 3, "E" := 4, "F" := 5,
        "F#" := 6, "G" := 7, "G#" := 8, "A" := 9, "A#" := 10, "B" := 11]

  /** A number as JavaScript computes it here: an integer, or NaN from a missing table key. */
  datatype JsNumber = Number(n: int) | NaN

  /** A successful match of /([A-G]#?)(\d+)/: the pitch group and the digit group. */
  datatype NoteMatch = NoteMatch(pitch: string, digits: string)

  /** Length of the longest run of digits of `s` starting at `j` (greedy `\d+`). */
  function DigitRun(s: string, j: nat): (n: nat)
    requires j <= |s|
    ensures j + n <= |s|
    ensures AllDigits(s[j..j + n])
    ensures j + n < |s| ==> !IsDigit(s[j + n])
    decreases |s| - j
  {
    if j < |s| && IsDigit(s[j]) then
      var k := DigitRun(s, j + 1);
      assert s[j..j + 1 + k] == [s[j]] + s[j + 1..j + 1 + k];
      1 + k
    else 0
  }

  /** Offset of the digits when the regex matches at position `i`, if it does. */
  function MatchEnd(s: string, i: nat): (r: Option<nat>)
    requires i < |s|
    ensures r.Some? ==> IsPitchLetter(s[i]) && i < r.value <= i + 2 && r.value < |s| && IsDigit(s[r.value])
    ensures r.Some? ==> (r.value == i + 2 <==> s[i + 1] == '#')
    ensures IsPitchLetter(s[i]) && i + 1 < |s| && IsDigit(s[i + 1]) ==> r.Some?
    ensures IsPitchLetter(s[i]) && i + 2 < |s| && s[i + 1] == '#' && IsDigit(s[i + 2]) ==> r.Some?
  {
    if !IsPitchLetter(s[i]) then None
    // first alternative of `#?`: take the sharp, then demand a digit
    else if i + 2 < |s| && s[i + 1] == '#' && IsDigit(s[i + 2]) then Some(i + 2)
    // second alternative: no sharp, a digit right after the letter
    else if i + 1 < |s| && IsDigit(s[i + 1]) then Some(i + 1)
    else None
  }

  /** The leftmost match of the regex starting at position `i` or later. */
  function MatchFrom(s: string, i: nat): (m: Option<NoteMatch>)
    requires i <= |s|
    ensures m.Some? ==> |m.value.digits| > 0 && AllDigits(m.value.digits)
    ensures m.Some? ==> 1 <= |m.value.pitch| <= 2 && IsPitchLetter(m.value.pitch[0])
    ensures m.Some? && |m.value.pitch| == 2 ==> m.value.pitch[1] == '#'
    ensures m.None? <==> forall k :: i <= k < |s| ==> MatchEnd(s, k).None?
    decreases |s| - i
  {
    if i == |s| then None
    else match MatchEnd(s, i)
      case Some(j) =>
        var n := DigitRun(s, j);
        Some(NoteMatch(s[i..j], s[j..j + n]))
      case None => MatchFrom(s, i + 1)
  }

  /**
   * `noteNameToMidi`: 60 when the regex does not match; otherwise
   * (octave + 1) * 12 + table[pitch], which is NaN for a pitch missing
   * from the table.
   */
  function NoteNameToMidi(name: string): (r: JsNumber)
    ensures r.NaN? ==> MatchFrom(name, 0).Some? && MatchFrom(name, 0).value.pitch !in PitchTable
  {
    match MatchFrom(name, 0)
    case None => Number(60)
    case Some(m) =>
      if m.pitch in PitchTable then Number((DecimalValue(m.digits) + 1) * 12 + PitchTable[m.pitch])
      else NaN
  }

  // ---------------------------------------------------------------------------
  // Properties
  // ---------------------------------------------------------------------------

  /** The two tables agree: the name of pitch class k is a key of the object, mapped to k. */
  lemma TablesAgree(k: nat)
    requires k < 12
    ensures PitchNames[k] in PitchTable && PitchTable[PitchNames[k]] == k
  {
    if k == 0 {} else if k == 1 {} else if k == 2 {} else if k == 3 {}
    else if k == 4 {} else if k == 5 {} else if k == 6 {} else if k == 7 {}
    else if k == 8 {} else if k == 9 {} else if k == 10 {} else {}
  }

  /** Shape of a table pitch name: a letter A-G, optionally followed by '#'. */
  lemma PitchShape(k: nat)
    requires k < 12
    ensures |PitchNames[k]| == 1 || |PitchNames[k]| == 2
    ensures IsPitchLetter(PitchNames[k][0])
    ensures |PitchNames[k]| == 2 ==> PitchNames[k][1] == '#'
  {
  }

  /** When no position of the name starts a match, the result is 60. */
  lemma NoMatchGivesMiddleC(name: string)
    requires forall k :: 0 <= k < |name| ==> MatchEnd(name, k).None?
    ensures NoteNameToMidi(name) == Number(60)
  {
  }

  /** Matching a name `p + digits` for the pitch name `p` of class k reads `p` and the whole digit run. */
  lemma MatchPitchDigits(k: nat, d: string)
    requires k < 12 && |d| > 0 && AllDigits(d)
    ensures MatchFrom(PitchNames[k] + d, 0) == Some(NoteMatch(PitchNames[k], d))
  {
    PitchShape(k);
    ShapedMatch(PitchNames[k], d);
  }

  lemma ShapedMatch(p: string, d: string)
    requires |p| == 1 || |p| == 2
    requires IsPitchLetter(p[0]) && (|p| == 2 ==> p[1] == '#')
    requires |d| > 0 && AllDigits(d)
    ensures MatchFrom(p + d, 0) == Some(NoteMatch(p, d))
  {
    var s := p + d;
    var j := |p|;
    assert s[0] == p[0];
    assert s[j] == d[0];
    assert j == 2 ==> s[1] == '#';
    assert MatchEnd(s, 0) == Some(j);
    assert AllDigits(s[j..]) by { assert s[j..] == d; }
    DigitRunToEnd(s, j);
    assert s[j..j + |d|] == d;
    assert s[0..j] == p;
  }

  lemma {:induction false} DigitRunToEnd(s: string, j: nat)
    requires j <= |s| && AllDigits(s[j..])
    ensures DigitRun(s, j) == |s| - j
    decreases |s| - j
  {
    if j < |s| {
      assert s[j] == s[j..][0];
      assert s[j + 1..] == s[j..][1..];
      DigitRunToEnd(s, j + 1);
    }
  }

  /** Any digit string after a table pitch is read in full; leading zeros are accepted. */
  lemma NoteNameToMidiDigits(k: nat, d: string)
    requires k < 12 && |d| > 0 && AllDigits(d)
    ensures NoteNameToMidi(PitchNames[k] + d) == Number((DecimalValue(d) + 1) * 12 + k)
  {
    MatchPitchDigits(k, d);
    TablesAgree(k);
  }

  /** For pitch class k and octave o >= 0, the MIDI number is (o + 1) * 12 + k. */
  lemma NoteNameToMidiOctave(k: nat, o: nat)
    requires k < 12
    ensures NoteNameToMidi(PitchNames[k] + NatToDecimal(o)) == Number((o + 1) * 12 + k)
  {
    NoteNameToMidiDigits(k, NatToDecimal(o));
    DecimalRoundTrip(o);
  }

  /** Raising the octave by one adds exactly 12. */
  lemma OctaveStep(k: nat, o: nat)
    requires k < 12
    ensures var lower := NoteNameToMidi(PitchNames[k] + NatToDecimal(o));
            var upper := NoteNameToMidi(PitchNames[k] + NatToDecimal(o + 1));
            lower.Number? && upper.Number? && upper.n == lower.n + 12
  {
    NoteNameToMidiOctave(k, o);
    NoteNameToMidiOctave(k, o + 1);
  }

  /** midiToNoteName of (o + 1) * 12 + k names pitch class k in octave o. */
  lemma MidiToNoteNameAt(o: nat, k: nat)
    requires k < 12
    ensures MidiToNoteName((o + 1) * 12 + k) == PitchNames[k] + NatToDecimal(o)
  {
    var m := (o + 1) * 12 + k;
    DivModTwelve(o + 1, k);
    assert m / 12 == o + 1 && m % 12 == k;
    MidiToNoteNameParts(m, o, k);
  }

  // Kept apart from the arithmetic: unfolding NatToDecimal next to
  // symbolic division is what makes the solver slow.
  lemma MidiToNoteNameParts(m: nat, o: nat, k: nat)
    requires m / 12 == o + 1 && m % 12 == k
    ensures MidiToNoteName(m) == PitchNames[k] + NatToDecimal(o)
  {
  }

  lemma DivModTwelve(q: nat, k: nat)
    requires k < 12
    ensures (q * 12 + k) / 12 == q && (q * 12 + k) % 12 == k
  {
  }

  /** Round trip: for every MIDI number from 12 on, noteNameToMidi(midiToNoteName(m)) == m. */
  lemma MidiRoundTrip(m: nat)
    requires m >= 12
    ensures NoteNameToMidi(MidiToNoteName(m)) == Number(m)
  {
    var o: nat := m / 12 - 1;
    var k := m % 12;
    assert m == (o + 1) * 12 + k;
    MidiToNoteNameAt(o, k);
    NoteNameToMidiOctave(k, o);
  }

  /**
   * The converse round trip: a table pitch name followed by an octave
   * numeral without leading zeros reads as a MIDI number from 12 on whose
   * name is the same string.
   */
  lemma NameRoundTrip(k: nat, d: string)
    requires k < 12 && |d| > 0 && AllDigits(d) && (d[0] == '0' ==> |d| == 1)
    ensures var r := NoteNameToMidi(PitchNames[k] + d);
            r.Number? && r.n >= 12 && MidiToNoteName(r.n) == PitchNames[k] + d
  {
    var o := DecimalValue(d);
    NoteNameToMidiDigits(k, d);
    DecimalCanonical(d);
    MidiToNoteNameAt(o, k);
  }

  /** Names of MIDI 0..11 carry octave -1; the `\d+` cannot read the '-', so they parse to 60. */
  lemma LowOctaveNotParsed(m: nat)
    requires m < 12
    ensures NoteNameToMidi(MidiToNoteName(m)) == Number(60)
  {
    var s := MidiToNoteName(m);
    var p := PitchNames[m];
    PitchShape(m);
    assert s == p + "-1";
    forall i | 0 <= i < |s| ensures MatchEnd(s, i).None? {
      if |p| == 2 {
        assert s[1] == '#' && s[2] == '-' && s[3] == '1';
      } else {
        assert s[1] == '-' && s[2] == '1';
      }
    }
  }

  /** midiToNoteName is one-to-one from MIDI 12 on. */
  lemma MidiToNoteNameInjective(a: nat, b: nat)
    requires a >= 12 && b >= 12 && MidiToNoteName(a) == MidiToNoteName(b)
    ensures a == b
  {
    MidiRoundTrip(a);
    MidiRoundTrip(b);
  }

  // ---------------------------------------------------------------------------
  // generateUserColor (utils.ts:46-58)
  // ---------------------------------------------------------------------------

  /**
   * `generateUserColor`: `Math.floor(Math.random() * 8)` is abstracted as
   * the index `pick`, which the random source keeps below 8.
   */
  function GenerateUserColor(pick: nat): (color: string)
    requires pick < |UserColors|
    ensures color in UserColors
  {
    UserColors[pick]
  }

  /** Every palette colour can be chosen, and the palette has eight entries. */
  lemma PaletteCovered(color: string)
    requires color in UserColors
    ensures exists pick :: 0 <= pick < |UserColors| && GenerateUserColor(pick) == color
    ensures |UserColors| == 8
  {
    var k :| 0 <= k < |UserColors| && UserColors[k] == color;
    assert GenerateUserColor(k) == color;
  }
}
