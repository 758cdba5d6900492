/** The first, single-file version of the tool (`index.js`): module-level variables for the
    tempo, the beats per measure and enharmonic simplification, one chord per measure, and
    a progress bar of block characters with the chord and a dimmed preview of the next one. */
module IndexScript {
  import opened Text
  import opened TheoryConstants
  import opened RandomChord
  import Rendering

  // ----- Chord qualities ------------------------------------------------------------------

  /** The groups of the script's own quality table, section by section. Each group lists
      the spellings of one chord; the script draws a group and then one spelling of it. */
  const LEGACY_TRIADS: seq<seq<string>> := [["", "M"], ["m", "-"], ["dim", "°"], ["aug", "+"]]
  const LEGACY_SUSPENSIONS: seq<seq<string>> := [["sus2", "sus4", "6"], ["-sus4", "-6"]]
  const LEGACY_SEVENTHS: seq<seq<string>> :=
    [["7"], ["M7", "Δ7", "Maj7"], ["-7", "m7", "min7"], ["dim7", "°7"], ["ø7", "m7b5"]]
  const LEGACY_NINTHS: seq<seq<string>> := [["9"], ["M9", "Δ9", "Maj9"], ["-9", "m9", "min9"]]
  const LEGACY_ELEVENTHS: seq<seq<string>> := [["11"], ["M11", "Δ11", "Maj11"], ["-11", "m11", "min11"]]
  const LEGACY_THIRTEENTHS: seq<seq<string>> := [["13"], ["M13", "Δ13", "Maj13"], ["-13", "m13", "min13"]]

  /** The flat table the script draws from: twenty chords. */
  const LEGACY_QUALITIES: seq<seq<string>> :=
    LEGACY_TRIADS + LEGACY_SUSPENSIONS + LEGACY_SEVENTHS + LEGACY_NINTHS + LEGACY_ELEVENTHS + LEGACY_THIRTEENTHS

  /** A table with at least one chord, and no chord without a spelling. */
  predicate Spelt(table: seq<seq<string>>) {
    |table| > 0 && forall a :: 0 <= a < |table| ==> |table[a]| > 0
  }

  lemma SpeltAppend(a: seq<seq<string>>, b: seq<seq<string>>)
    requires Spelt(a) && Spelt(b)
    ensures Spelt(a + b)
  {
    forall i | 0 <= i < |a + b| ensures |(a + b)[i]| > 0 {
      if i < |a| {
        assert (a + b)[i] == a[i];
      } else {
        assert (a + b)[i] == b[i - |a|];
      }
    }
  }

  /** Twenty chords, each with at least one spelling, so both draws are always defined. */
  lemma LegacyQualitiesShape()
    ensures |LEGACY_QUALITIES| == 20
    ensures Spelt(LEGACY_QUALITIES)
  {
    var t, su, se := LEGACY_TRIADS, LEGACY_SUSPENSIONS, LEGACY_SEVENTHS;
    var n, e, th := LEGACY_NINTHS, LEGACY_ELEVENTHS, LEGACY_THIRTEENTHS;
    assert |t[0]| == 2 && |t[1]| == 2 && |t[2]| == 2 && |t[3]| == 2;
    assert |su[0]| == 3 && |su[1]| == 2;
    assert |se[0]| == 1 && |se[1]| == 3 && |se[2]| == 3 && |se[3]| == 2 && |se[4]| == 2;
    assert |n[0]| == 1 && |n[1]| == 3 && |n[2]| == 3;
    assert |e[0]| == 1 && |e[1]| == 3 && |e[2]| == 3;
    assert |th[0]| == 1 && |th[1]| == 3 && |th[2]| == 3;
    SpeltAppend(t, su);
    SpeltAppend(t + su, se);
    SpeltAppend(t + su + se, n);
    SpeltAppend(t + su + se + n, e);
    SpeltAppend(t + su + se + n + e, th);
  }

  /** `pickRandom(pickRandom(QUALITIES))`: one spelling of one chord of the table. */
  function LegacyQuality(group: real, chord: real): (q: string)
    requires IsRandom(group) && IsRandom(chord)
    ensures exists g, c :: 0 <= g < |LEGACY_QUALITIES| && 0 <= c < |LEGACY_QUALITIES[g]| && q == LEGACY_QUALITIES[g][c]
  {
    LegacyQualitiesShape();
    var g := PickIndex(|LEGACY_QUALITIES|, group);
    var c := PickIndex(|LEGACY_QUALITIES[g]|, chord);
    assert PickRandom(PickRandom(LEGACY_QUALITIES, group), chord) == LEGACY_QUALITIES[g][c];
    PickRandom(PickRandom(LEGACY_QUALITIES, group), chord)
  }

  /** Every spelling of every chord can be drawn. */
  lemma AnyLegacyQualityReachable(g: nat, c: nat)
    requires g < |LEGACY_QUALITIES| && c < |LEGACY_QUALITIES[g]|
    ensures IsRandom(g as real / |LEGACY_QUALITIES| as real)
    ensures IsRandom(c as real / |LEGACY_QUALITIES[g]| as real)
    ensures LegacyQuality(g as real / |LEGACY_QUALITIES| as real, c as real / |LEGACY_QUALITIES[g]| as real)
         == LEGACY_QUALITIES[g][c]
  {
    PickIndexReaches(|LEGACY_QUALITIES|, g);
    PickIndexReaches(|LEGACY_QUALITIES[g]|, c);
  }

  /** The chord `genChord()` returns for the given draws: the first accepted tonic followed
      directly by the one drawn spelling; None when the finite draws run out first. */
  function GenChordOf(simplifyEnharmonics: bool, draws: seq<TonicDraw>, group: real, chord: real): Option<string>
    requires ValidDraws(draws) && IsRandom(group) && IsRandom(chord)
  {
    match FirstAccepted(simplifyEnharmonics, draws)
    case None => None
    case Some(i) => Some(Tonic(draws[i]) + LegacyQuality(group, chord))
  }

  /** `genChord()`: redraw the tonic while simplification is on and it is one of the four
      enharmonic spellings, then append one spelling of a random chord. */
  method GenChord(simplifyEnharmonics: bool, draws: seq<TonicDraw>, group: real, chord: real)
    returns (r: Option<string>)
    requires ValidDraws(draws) && IsRandom(group) && IsRandom(chord)
    ensures r == GenChordOf(simplifyEnharmonics, draws, group, chord)
    ensures r.Some? ==> exists t, g, c :: IsTonicSpelling(t) && !Rejected(simplifyEnharmonics, t)
                          && 0 <= g < |LEGACY_QUALITIES| && 0 <= c < |LEGACY_QUALITIES[g]|
                          && r.value == t + LEGACY_QUALITIES[g][c]
    ensures !simplifyEnharmonics && draws != [] ==> r.Some?
  {
    var tonic, _ := PickTonic(simplifyEnharmonics, draws);
    if tonic.None? {
      return None;
    }
    var quality := LegacyQuality(group, chord);
    r := Some(tonic.value + quality);
    ghost var g, c :| 0 <= g < |LEGACY_QUALITIES| && 0 <= c < |LEGACY_QUALITIES[g]| && quality == LEGACY_QUALITIES[g][c];
    assert IsTonicSpelling(tonic.value) && !Rejected(simplifyEnharmonics, tonic.value);
  }

  // ----- The two screen lines -------------------------------------------------------------

  const DIM_ON := "\U{1B}[2m"
  const DIM_OFF := "\U{1B}[22m"

  /** `dimText(str)`: str between the terminal's dim and normal-intensity codes. */
  function DimText(s: string): (r: string)
    ensures |r| == |s| + 9
  {
    DIM_ON + s + DIM_OFF
  }

  /** The dimmed text can be taken back out from between the two codes. */
  lemma DimTextParts(s: string)
    ensures var r := DimText(s);
      |r| == |s| + 9 && r[..4] == DIM_ON && r[4..|r| - 5] == s && r[|r| - 5..] == DIM_OFF
  {
    var r := DimText(s);
    assert r == DIM_ON + s + DIM_OFF;
    assert |DIM_ON| == 4 && |DIM_OFF| == 5;
    assert r[..4] == DIM_ON;
    assert r[4..|r| - 5] == s;
    assert r[|r| - 5..] == DIM_OFF;
  }

  /** The progress bar: beat + 1 filled cells, then empty cells up to the measure length.
      `repeat` throws for a negative count, so the bar needs beat >= -1. */
  function ProgressBar(beat: int, beatsPerMeasure: int): string
    requires beat >= -1
  {
    Repeat("▓", beat + 1) + Repeat("░", Max(beatsPerMeasure - beat - 1, 0))
  }

  /** The bar is as long as the measure when the beat lies inside it, and longer only when
      the beat has run past it; cell i is filled exactly when i <= beat. */
  lemma ProgressBarShape(beat: int, beatsPerMeasure: int)
    requires beat >= -1
    ensures |ProgressBar(beat, beatsPerMeasure)| == Max(beatsPerMeasure, beat + 1)
    ensures forall i :: 0 <= i < |ProgressBar(beat, beatsPerMeasure)| ==>
      (ProgressBar(beat, beatsPerMeasure)[i] == '▓' <==> i <= beat)
    ensures forall i :: 0 <= i < |ProgressBar(beat, beatsPerMeasure)| ==>
      (ProgressBar(beat, beatsPerMeasure)[i] == '░' <==> i > beat)
  {
    var full, empty := Repeat("▓", beat + 1), Repeat("░", Max(beatsPerMeasure - beat - 1, 0));
    var bar := ProgressBar(beat, beatsPerMeasure);
    assert bar == full + empty;
    forall i | 0 <= i < |bar| ensures (bar[i] == '▓' <==> i <= beat) && (bar[i] == '░' <==> i > beat) {
      if i <= beat {
        assert bar[i] == full[i] && full[i] in full;
      } else {
        assert bar[i] == empty[i - |full|] && empty[i - |full|] in empty;
      }
    }
  }

  /** The first line the script draws: four filled-out cells with the first one filled. */
  lemma FirstBeatBar()
    ensures ProgressBar(0, 4) == "▓░░░"
  {
    ProgressBarShape(0, 4);
    var bar := ProgressBar(0, 4);
    assert |bar| == 4 && bar[0] == '▓' && bar[1] == '░' && bar[2] == '░' && bar[3] == '░';
  }

  /** The preview of the next chord, or nothing when there is none (an empty string is
      falsy in the template's test). */
  function NextChordPart(nextChord: string): string {
    if nextChord != "" then DimText("(next: " + nextChord + ")") else ""
  }

  /** `genChordLine(beat, chord, nextChord)`. */
  function ChordLineText(beat: int, beatsPerMeasure: int, chord: string, nextChord: string): string
    requires beat >= -1
  {
    ProgressBar(beat, beatsPerMeasure) + " " + chord + " " + NextChordPart(nextChord)
  }

  /** For a beat inside the measure the line is the measure's cells, a space, the chord and
      a space; it ends there exactly when there is no next chord, and otherwise goes on
      with the dimmed preview. */
  lemma ChordLineShape(beat: int, beatsPerMeasure: int, chord: string, nextChord: string)
    requires 0 <= beat < beatsPerMeasure
    ensures var line := ChordLineText(beat, beatsPerMeasure, chord, nextChord);
      && |line| >= beatsPerMeasure + 2 + |chord|
      && (forall i :: 0 <= i < beatsPerMeasure ==> (line[i] == '▓' <==> i <= beat))
      && line[beatsPerMeasure] == ' '
      && line[beatsPerMeasure + 1..beatsPerMeasure + 1 + |chord|] == chord
      && line[beatsPerMeasure + 1 + |chord|] == ' '
      && (|line| == beatsPerMeasure + 2 + |chord| <==> nextChord == "")
      && (nextChord != "" ==> line[beatsPerMeasure + 2 + |chord|..] == DimText("(next: " + nextChord + ")"))
  {
    ProgressBarShape(beat, beatsPerMeasure);
    var bar := ProgressBar(beat, beatsPerMeasure);
    var tail := NextChordPart(nextChord);
    LineLayout(bar, chord, tail);
  }

  /** Where the parts of `${bar} ${chord} ${tail}` sit. */
  lemma LineLayout(bar: string, chord: string, tail: string)
    ensures var line := bar + " " + chord + " " + tail;
      && |line| == |bar| + 2 + |chord| + |tail|
      && line[..|bar|] == bar && line[|bar|] == ' '
      && line[|bar| + 1..|bar| + 1 + |chord|] == chord && line[|bar| + 1 + |chord|] == ' '
      && line[|bar| + 2 + |chord|..] == tail
  {
  }

  /** `genFeedbackLine()`: the settings in one dimmed line. */
  function FeedbackLine(o: ScriptOptions): string {
    DimText("Tempo " + IntToString(o.tempo) + " | Time Sig " + IntToString(o.beatsPerMeasure)
            + "/4 | Simplify " + (if o.simplifyEnharmonics then "ON" else "OFF"))
  }

  /** The feedback line holds, between the dim codes, the tempo and the beats per measure
      written so that they read back as the numbers, and ON or OFF for simplification. */
  lemma FeedbackReadsBack(o: ScriptOptions)
    ensures var t, b := IntToString(o.tempo), IntToString(o.beatsPerMeasure);
      var flag := if o.simplifyEnharmonics then "ON" else "OFF";
      var line := FeedbackLine(o);
      && |line| == 41 + |t| + |b| + |flag|
      && line[10..10 + |t|] == t
      && line[22 + |t|..22 + |t| + |b|] == b
      && line[36 + |t| + |b|..36 + |t| + |b| + |flag|] == flag
      && (o.tempo >= 0 ==> JsNumber(t) == Some(o.tempo))
      && (o.beatsPerMeasure >= 0 ==> JsNumber(b) == Some(o.beatsPerMeasure))
  {
    var t, b := IntToString(o.tempo), IntToString(o.beatsPerMeasure);
    var flag := if o.simplifyEnharmonics then "ON" else "OFF";
    var p, m, n := DIM_ON + "Tempo ", " | Time Sig ", "/4 | Simplify ";
    assert |p| == 10 && |m| == 12 && |n| == 14 && |DIM_OFF| == 5;
    assert FeedbackLine(o) == p + t + m + b + n + flag + DIM_OFF;
    FieldLayout(p, t, m, b, n, flag, DIM_OFF);
    if o.tempo >= 0 {
      JsNumberOfNatToString(o.tempo);
    }
    if o.beatsPerMeasure >= 0 {
      JsNumberOfNatToString(o.beatsPerMeasure);
    }
  }

  /** Where the seven parts of p + t + m + b + n + f + d sit. */
  lemma FieldLayout(p: string, t: string, m: string, b: string, n: string, f: string, d: string)
    ensures var s := p + t + m + b + n + f + d;
      var i1 := |p|;
      var i2 := i1 + |t|;
      var i3 := i2 + |m|;
      var i4 := i3 + |b|;
      var i5 := i4 + |n|;
      var i6 := i5 + |f|;
      && |s| == i6 + |d|
      && s[..i1] == p && s[i1..i2] == t && s[i2..i3] == m && s[i3..i4] == b
      && s[i4..i5] == n && s[i5..i6] == f && s[i6..] == d
  {
  }

  /** What one run of the main loop writes: a carriage return, the feedback line, a newline
      and the chord line. */
  function Screen(o: ScriptOptions, m: Measure): string
    requires m.beat >= -1
  {
    "\r" + FeedbackLine(o) + "\n" + ChordLineText(m.beat, o.beatsPerMeasure, m.chord, m.nextChord)
  }

  /** The feedback line and the chord line can be taken back out of a screen. */
  lemma ScreenParts(o: ScriptOptions, m: Measure)
    requires m.beat >= -1
    ensures var f, c := FeedbackLine(o), ChordLineText(m.beat, o.beatsPerMeasure, m.chord, m.nextChord);
      var screen := Screen(o, m);
      && |screen| == |f| + |c| + 2
      && screen[0] == '\r' && screen[1..1 + |f|] == f
      && screen[1 + |f|] == '\n' && screen[2 + |f|..] == c
  {
    var f, c := FeedbackLine(o), ChordLineText(m.beat, o.beatsPerMeasure, m.chord, m.nextChord);
    assert Screen(o, m) == "\r" + f + "\n" + c;
    Between("\r", f, "\n", c);
  }

  /** Where the parts of a + f + b + c sit when a and b are single characters. */
  lemma Between(a: string, f: string, b: string, c: string)
    requires |a| == 1 && |b| == 1
    ensures var s := a + f + b + c;
      && |s| == |f| + |c| + 2
      && s[0] == a[0] && s[1..1 + |f|] == f
      && s[1 + |f|] == b[0] && s[2 + |f|..] == c
  {
  }

  // ----- Keys -----------------------------------------------------------------------------

  /** The three settings the script's keys change. */
  datatype ScriptOptions = ScriptOptions(tempo: int, beatsPerMeasure: int, simplifyEnharmonics: bool)

  /** The values the script starts with. */
  const START_OPTIONS := ScriptOptions(60, 4, false)

  predicate ValidOptions(o: ScriptOptions) {
    o.tempo >= 20 && o.beatsPerMeasure >= 1
  }

  datatype KeyEffect = KeyEffect(exit: bool, options: ScriptOptions)

  /** The key handler's switch: up adds 20 to the tempo, down takes 20 off but not below 20,
      "e" toggles simplification, and any other key sets the beats per measure when
      `Number(key)` is a non-zero number and exits otherwise. The right and left arrows
      and "m" have no case of their own here and so exit. */
  function OptionsKey(o: ScriptOptions, key: string): KeyEffect {
    if key == KeyUp then KeyEffect(false, o.(tempo := o.tempo + 20))
    else if key == KeyDown then KeyEffect(false, o.(tempo := Max(o.tempo - 20, 20)))
    else if key == "e" then KeyEffect(false, o.(simplifyEnharmonics := !o.simplifyEnharmonics))
    else match JsNumber(key)
      case Some(n) => if n != 0 then KeyEffect(false, o.(beatsPerMeasure := n)) else KeyEffect(true, o)
      case None => KeyEffect(true, o)
  }

  lemma StartOptionsValid()
    ensures ValidOptions(START_OPTIONS)
    ensures Rendering.MsPerBeat(START_OPTIONS.tempo) == 1000.0
  {
    Rendering.DefaultBeatLengths();
  }

  lemma OptionsKeyKeepsValid(o: ScriptOptions, key: string)
    requires ValidOptions(o)
    ensures ValidOptions(OptionsKey(o, key).options)
  {
  }

  /** Up raises the tempo by 20 without limit, down lowers it by 20 with a floor of 20, and
      down undoes up; "e" flips simplification and undoes itself. */
  lemma TempoAndToggleKeys(o: ScriptOptions)
    requires ValidOptions(o)
    ensures OptionsKey(o, KeyUp) == KeyEffect(false, o.(tempo := o.tempo + 20))
    ensures OptionsKey(o, KeyDown).options.tempo == if o.tempo >= 40 then o.tempo - 20 else 20
    ensures OptionsKey(OptionsKey(o, KeyUp).options, KeyDown) == KeyEffect(false, o)
    ensures OptionsKey(o, "e") == KeyEffect(false, o.(simplifyEnharmonics := !o.simplifyEnharmonics))
    ensures OptionsKey(OptionsKey(o, "e").options, "e").options == o
  {
    assert |KeyUp| == 3 && |KeyDown| == 3 && KeyUp[2] == 'A' && KeyDown[2] == 'B';
  }

  /** A key that is neither up, down nor "e" goes to the number test. */
  lemma NumberKey(o: ScriptOptions, key: string)
    requires key != KeyUp && key != KeyDown && key != "e"
    ensures OptionsKey(o, key) == match JsNumber(key)
      case Some(n) => if n != 0 then KeyEffect(false, o.(beatsPerMeasure := n)) else KeyEffect(true, o)
      case None => KeyEffect(true, o)
  {
  }

  /** An escape sequence such as an arrow key is not a number. */
  lemma EscapeNotNumber(key: string)
    requires |key| > 0 && key[0] == '\U{1B}' && !IsJsSpace(key[|key| - 1])
    ensures JsNumber(key) == None
  {
    assert TrimStart(key) == key;
    assert TrimEnd(key) == key;
    assert !IsDigit(key[0]);
  }

  /** The right and left arrows and "m" have no case of their own here: they reach the
      number test, are no number, and exit. */
  lemma UnlistedKeysExit(o: ScriptOptions)
    ensures OptionsKey(o, KeyRight) == KeyEffect(true, o)
    ensures OptionsKey(o, KeyLeft) == KeyEffect(true, o)
    ensures OptionsKey(o, "m") == KeyEffect(true, o)
  {
    ArrowExits(o, KeyRight);
    ArrowExits(o, KeyLeft);
    DigitKeys(o, 'm');
  }

  lemma ArrowExits(o: ScriptOptions, key: string)
    requires key == KeyRight || key == KeyLeft
    ensures OptionsKey(o, key) == KeyEffect(true, o)
  {
    ArrowsDistinct();
    EscapeNotNumber(key);
    NumberKey(o, key);
  }

  lemma ArrowsDistinct()
    ensures KeyRight != KeyUp && KeyRight != KeyDown && KeyRight != "e"
    ensures KeyLeft != KeyUp && KeyLeft != KeyDown && KeyLeft != "e"
  {
    var up, down, right, left := KeyUp, KeyDown, KeyRight, KeyLeft;
    assert up[2] == 'A' && down[2] == 'B' && right[2] == 'C' && left[2] == 'D';
    assert |right| == 3 && |left| == 3;
  }

  /** A digit key from 1 to 9 sets the beats per measure to that digit; "0" and any other
      single character that is not a number, blank ones included, exit. */
  lemma DigitKeys(o: ScriptOptions, c: char)
    requires c != 'e'
    ensures '1' <= c <= '9' ==> OptionsKey(o, [c]) == KeyEffect(false, o.(beatsPerMeasure := DigitValue(c)))
    ensures c == '0' || !IsDigit(c) ==> OptionsKey(o, [c]) == KeyEffect(true, o)
  {
    OneCharacterKey(c);
    NumberKey(o, [c]);
    SingleKeyNumber(c);
  }

  lemma OneCharacterKey(c: char)
    requires c != 'e'
    ensures [c] != KeyUp && [c] != KeyDown && [c] != "e"
  {
    var key, up, down := [c], KeyUp, KeyDown;
    assert |key| == 1 && |up| == 3 && |down| == 3;
    assert key[0] == c;
  }

  /** Exactly the keys that are neither up, down nor "e" and whose `Number` is 0 or NaN
      exit, and an exit changes nothing. */
  lemma ExitKeys(o: ScriptOptions, key: string)
    ensures OptionsKey(o, key).exit <==>
      key != KeyUp && key != KeyDown && key != "e" && (JsNumber(key).None? || JsNumber(key) == Some(0))
    ensures OptionsKey(o, key).exit ==> OptionsKey(o, key).options == o
  {
  }

  // ----- Measures -------------------------------------------------------------------------

  /** The beat counter and the two chords on screen. */
  datatype Measure = Measure(beat: int, chord: string, nextChord: string)

  /** `nextMeasure()`: beat 0, the previewed chord becomes current (a fresh draw when there
      is no preview yet), and a fresh draw becomes the preview. */
  function NextMeasure(m: Measure, drawn1: string, drawn2: string): Measure {
    Measure(0, if m.nextChord != "" then m.nextChord else drawn1, drawn2)
  }

  /** The measure state `mainLoop()` draws: a new measure first when the beat has reached
      the measure length. */
  function Drawn(m: Measure, beatsPerMeasure: int, drawn1: string, drawn2: string): Measure {
    if m.beat >= beatsPerMeasure then NextMeasure(m, drawn1, drawn2) else m
  }

  /** The measure state `mainLoop()` leaves: the drawn one with the beat counted. */
  function Tick(m: Measure, beatsPerMeasure: int, drawn1: string, drawn2: string): Measure {
    var d := Drawn(m, beatsPerMeasure, drawn1, drawn2);
    d.(beat := d.beat + 1)
  }

  /** The drawn beat always lies inside the measure, even right after the measure length
      was lowered below it, so the bar never overflows; a new measure hands the previewed
      chord on. */
  lemma DrawnBeatInMeasure(m: Measure, beatsPerMeasure: int, drawn1: string, drawn2: string)
    requires m.beat >= 0 && beatsPerMeasure >= 1
    ensures var d := Drawn(m, beatsPerMeasure, drawn1, drawn2);
      && 0 <= d.beat < beatsPerMeasure
      && (m.beat < beatsPerMeasure ==> d == m)
      && (m.beat >= beatsPerMeasure ==>
            d.beat == 0 && d.nextChord == drawn2 && (m.nextChord != "" ==> d.chord == m.nextChord))
      && |ProgressBar(d.beat, beatsPerMeasure)| == beatsPerMeasure
  {
    var d := Drawn(m, beatsPerMeasure, drawn1, drawn2);
    ProgressBarShape(d.beat, beatsPerMeasure);
  }

  /** The beat counter after one main-loop run. */
  function NextBeat(beat: int, beatsPerMeasure: int): int {
    (if beat >= beatsPerMeasure then 0 else beat) + 1
  }

  /** The beat counter after n runs, with the measure length held fixed. */
  function BeatAfterRuns(beat: int, beatsPerMeasure: int, n: nat): int
    decreases n
  {
    if n == 0 then beat else NextBeat(BeatAfterRuns(beat, beatsPerMeasure, n - 1), beatsPerMeasure)
  }

  lemma TickBeat(m: Measure, beatsPerMeasure: int, drawn1: string, drawn2: string)
    ensures Tick(m, beatsPerMeasure, drawn1, drawn2).beat == NextBeat(m.beat, beatsPerMeasure)
  {
  }

  /** From the counter the first run leaves (1), the counter after n more runs is
      n mod P + 1, so the drawn beats go 0, 1, ..., P - 1 and round again. */
  lemma {:induction false} MeasureCycle(beatsPerMeasure: int, n: nat)
    requires beatsPerMeasure >= 1
    ensures BeatAfterRuns(1, beatsPerMeasure, n) == n % beatsPerMeasure + 1
    decreases n
  {
    if n > 0 {
      MeasureCycle(beatsPerMeasure, n - 1);
      ModStep(n, beatsPerMeasure);
    }
  }

  lemma ModStep(k: int, p: int)
    requires k >= 1 && p >= 1
    ensures (k - 1) % p == p - 1 ==> k % p == 0
    ensures (k - 1) % p < p - 1 ==> k % p == (k - 1) % p + 1
  {
    var q, r := (k - 1) / p, (k - 1) % p;
    assert k - 1 == q * p + r;
    if r == p - 1 {
      assert k == (q + 1) * p + 0;
      MultiplePlus(q + 1, p, 0);
    } else {
      assert k == q * p + (r + 1);
      MultiplePlus(q, p, r + 1);
    }
  }

  // ----- The script's state ---------------------------------------------------------------

  /** The module-level variables of the script. */
  class Script {
    var tempo: int
    var beatsPerMeasure: int
    var simplifyEnharmonics: bool
    var beat: int
    var chord: string
    var nextChord: string
    /** The delays of the `setTimeout` calls not yet fired or cleared. */
    var timers: seq<real>
    /** The screens written to the terminal so far. */
    var written: seq<string>

    function Opts(): ScriptOptions
      reads this
    {
      ScriptOptions(tempo, beatsPerMeasure, simplifyEnharmonics)
    }

    function Current(): Measure
      reads this
    {
      Measure(beat, chord, nextChord)
    }

    /** Between events: valid settings, a beat counted, and exactly one timer armed. */
    predicate Valid()
      reads this
    {
      ValidOptions(Opts()) && beat >= 1 && |timers| == 1
    }

    /** Start-up: the initial values, `nextMeasure()` with no preview yet, then
        `mainLoop()`. */
    constructor (drawn1: string, drawn2: string)
      ensures Valid() && Opts() == START_OPTIONS
      ensures Current() == Measure(1, drawn1, drawn2)
      ensures timers == [1000.0]
      ensures written == [Screen(START_OPTIONS, Measure(0, drawn1, drawn2))]
    {
      tempo, beatsPerMeasure, simplifyEnharmonics := 60, 4, false;
      beat, chord, nextChord := 0, "", "";
      timers, written := [], [];
      new;
      StartOptionsValid();
      BeginMeasure(drawn1, drawn2);
      MainLoop(drawn1, drawn2);
    }

    /** `nextMeasure()`. */
    method BeginMeasure(drawn1: string, drawn2: string)
      modifies this
      ensures Opts() == old(Opts()) && timers == old(timers) && written == old(written)
      ensures Current() == NextMeasure(old(Current()), drawn1, drawn2)
    {
      beat := 0;
      chord := if nextChord != "" then nextChord else drawn1;
      nextChord := drawn2;
    }

    /** `mainLoop()`: start a measure when due, write the screen, count the beat and arm
        the next timer. */
    method MainLoop(drawn1: string, drawn2: string)
      requires ValidOptions(Opts()) && beat >= 0
      modifies this
      ensures Opts() == old(Opts())
      ensures Current() == Tick(old(Current()), beatsPerMeasure, drawn1, drawn2)
      ensures beat >= 1
      ensures written == old(written) + [Screen(Opts(), Drawn(old(Current()), beatsPerMeasure, drawn1, drawn2))]
      ensures timers == old(timers) + [Rendering.MsPerBeat(tempo)]
    {
      if beat >= beatsPerMeasure {
        BeginMeasure(drawn1, drawn2);
      }
      written := written + [Screen(Opts(), Current())];
      beat := beat + 1;
      timers := timers + [Rendering.MsPerBeat(tempo)];
    }

    /** The armed timer fires and the main loop runs. */
    method TimerFires(drawn1: string, drawn2: string)
      requires Valid()
      modifies this
      ensures Valid() && Opts() == old(Opts())
      ensures Current() == Tick(old(Current()), beatsPerMeasure, drawn1, drawn2)
      ensures written == old(written) + [Screen(Opts(), Drawn(old(Current()), beatsPerMeasure, drawn1, drawn2))]
      ensures timers == [Rendering.MsPerBeat(tempo)]
    {
      timers := timers[1..];
      MainLoop(drawn1, drawn2);
    }

    /** The key handler: change the settings, and unless the key exits, clear the armed
        timer and run the main loop at once, which also counts a beat. */
    method HandleKeyboardInput(key: string, drawn1: string, drawn2: string) returns (exit: bool)
      requires Valid()
      modifies this
      ensures KeyEffect(exit, Opts()) == OptionsKey(old(Opts()), key)
      ensures exit ==> Current() == old(Current()) && timers == old(timers) && written == old(written)
      ensures !exit ==> Valid() && timers == [Rendering.MsPerBeat(tempo)]
      ensures !exit ==> Current() == Tick(old(Current()), beatsPerMeasure, drawn1, drawn2)
      ensures !exit ==> written == old(written) + [Screen(Opts(), Drawn(old(Current()), beatsPerMeasure, drawn1, drawn2))]
    {
      OptionsKeyKeepsValid(Opts(), key);
      exit := ChangeOption(key);
      if exit {
        return;
      }
      timers := [];
      MainLoop(drawn1, drawn2);
    }

    /** The switch of the key handler. */
    method ChangeOption(key: string) returns (exit: bool)
      modifies this
      ensures KeyEffect(exit, Opts()) == OptionsKey(old(Opts()), key)
      ensures Current() == old(Current()) && timers == old(timers) && written == old(written)
    {
      exit := false;
      if key == KeyUp {
        tempo := tempo + 20;
      } else if key == KeyDown {
        tempo := Max(tempo - 20, 20);
      } else if key == "e" {
        simplifyEnharmonics := !simplifyEnharmonics;
      } else {
        var asNumber := JsNumber(key);
        if asNumber.Some? && asNumber.value != 0 {
          beatsPerMeasure := asNumber.value;
        } else {
          exit := true;
        }
      }
    }
  }
}
