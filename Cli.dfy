/** The earlier command-line app (`CLI`): its options live in its own state and change by
    direct key presses, its beat starts at -2 and each phrase at 0, and its measure
    formatter throws for chords longer than eight characters. `setTimeout` is a list of
    pending delays, the player a list of sounds, each random chord a value the caller
    supplies, and an exception that would end the process is recorded in `failure`. */
module Cli {
  import opened Text
  import opened Rendering
  import App
  import RandomChord

  // ----- Options and their keys -----------------------------------------------------------

  /** The user-configurable part of `state`. */
  datatype Options = Options(tempo: int, timeSignature: int, barsPerPhrase: int,
                             metronome: bool, simplifyEnharmonics: bool)

  const DEFAULT_OPTIONS: Options := Options(120, 4, 2, true, false)

  /** The bounds the key handler keeps: tempo never below 20, a positive time signature and
      at least one bar per phrase. */
  predicate ValidOptions(o: Options) {
    o.tempo >= 20 && o.timeSignature >= 1 && o.barsPerPhrase >= 1
  }

  datatype KeyEffect = KeyEffect(exit: bool, options: Options)

  /** `handleKeyboardInput(key)` on the options: up and down change the tempo by 5 (not
      below 20), right and left the bars per phrase by 1 (not below 1), "m" and "e" toggle,
      and any other key sets the time signature when `Number(key)` is a nonzero number, and
      exits otherwise. */
  function OptionsKey(o: Options, key: string): KeyEffect {
    if key == KeyUp then KeyEffect(false, o.(tempo := o.tempo + 5))
    else if key == KeyDown then KeyEffect(false, o.(tempo := Max(o.tempo - 5, 20)))
    else if key == KeyRight then KeyEffect(false, o.(barsPerPhrase := o.barsPerPhrase + 1))
    else if key == KeyLeft then KeyEffect(false, o.(barsPerPhrase := Max(o.barsPerPhrase - 1, 1)))
    else if key == "m" then KeyEffect(false, o.(metronome := !o.metronome))
    else if key == "e" then KeyEffect(false, o.(simplifyEnharmonics := !o.simplifyEnharmonics))
    else
      match JsNumber(key)
      case Some(n) => if n != 0 then KeyEffect(false, o.(timeSignature := n)) else KeyEffect(true, o)
      case None => KeyEffect(true, o)
  }

  /** No key takes an option out of its bounds. */
  lemma OptionsKeyKeepsValid(o: Options, key: string)
    requires ValidOptions(o)
    ensures ValidOptions(OptionsKey(o, key).options)
  {
  }

  /** The tempo keys: up raises by 5 without limit, down lowers by 5 but not below 20, and
      down undoes up; likewise for bars with step 1 and floor 1. */
  lemma TempoAndBarKeys(o: Options)
    requires ValidOptions(o)
    ensures OptionsKey(o, KeyUp) == KeyEffect(false, o.(tempo := o.tempo + 5))
    ensures OptionsKey(o, KeyDown).options.tempo == if o.tempo >= 25 then o.tempo - 5 else 20
    ensures OptionsKey(OptionsKey(o, KeyUp).options, KeyDown) == KeyEffect(false, o)
    ensures OptionsKey(o, KeyRight) == KeyEffect(false, o.(barsPerPhrase := o.barsPerPhrase + 1))
    ensures OptionsKey(o, KeyLeft).options.barsPerPhrase == if o.barsPerPhrase >= 2 then o.barsPerPhrase - 1 else 1
    ensures OptionsKey(OptionsKey(o, KeyRight).options, KeyLeft) == KeyEffect(false, o)
  {
    assert KeyDown != KeyUp;
    assert KeyLeft != KeyUp && KeyLeft != KeyDown && KeyLeft != KeyRight;
  }

  /** "m" and "e" each flip one option, leave every other one alone, and undo themselves. */
  lemma ToggleKeys(o: Options)
    ensures OptionsKey(o, "m") == KeyEffect(false, o.(metronome := !o.metronome))
    ensures OptionsKey(o, "e") == KeyEffect(false, o.(simplifyEnharmonics := !o.simplifyEnharmonics))
    ensures OptionsKey(OptionsKey(o, "m").options, "m").options == o
    ensures OptionsKey(OptionsKey(o, "e").options, "e").options == o
  {
    NotArrows();
  }

  /** The six keys with a case of their own are all different. */
  lemma NotArrows()
    ensures !IsArrowKey("m") && !IsArrowKey("e")
    ensures KeyUp != KeyDown && KeyUp != KeyRight && KeyUp != KeyLeft
    ensures KeyDown != KeyRight && KeyDown != KeyLeft && KeyRight != KeyLeft
  {
    assert |KeyUp| == 3 && |KeyDown| == 3 && |KeyRight| == 3 && |KeyLeft| == 3;
    assert KeyUp[2] == 'A' && KeyDown[2] == 'B' && KeyRight[2] == 'C' && KeyLeft[2] == 'D';
  }

  /** A digit key from 1 to 9 sets the time signature to that digit, with no upper bound
      check; "0" and any other single character that is not a number exit. */
  lemma DigitKeys(o: Options, c: char)
    requires c != 'm' && c != 'e'
    ensures '1' <= c <= '9' ==> OptionsKey(o, [c]) == KeyEffect(false, o.(timeSignature := DigitValue(c)))
    ensures c == '0' || !IsDigit(c) ==> OptionsKey(o, [c]) == KeyEffect(true, o)
  {
    OneCharacterKey(c);
    NumberKey(o, [c]);
    SingleKeyNumber(c);
  }

  lemma OneCharacterKey(c: char)
    requires c != 'm' && c != 'e'
    ensures !IsArrowKey([c]) && [c] != "m" && [c] != "e"
  {
    var key, up, down, right, left := [c], KeyUp, KeyDown, KeyRight, KeyLeft;
    assert |key| == 1 && |up| == 3 && |down| == 3 && |right| == 3 && |left| == 3;
    assert key[0] == c;
  }

  /** A key that is no arrow and no toggle goes to the number test. */
  lemma NumberKey(o: Options, key: string)
    requires !IsArrowKey(key) && key != "m" && key != "e"
    ensures OptionsKey(o, key) == match JsNumber(key)
      case Some(n) => if n != 0 then KeyEffect(false, o.(timeSignature := n)) else KeyEffect(true, o)
      case None => KeyEffect(true, o)
  {
  }

  /** The keys that exit: no arrow, no toggle, and `Number(key)` is 0 or NaN. */
  lemma ExitKeys(o: Options, key: string)
    ensures OptionsKey(o, key).exit <==>
      !IsArrowKey(key) && key != "m" && key != "e" && (JsNumber(key).None? || JsNumber(key) == Some(0))
    ensures OptionsKey(o, key).exit ==> OptionsKey(o, key).options == o
  {
  }

  // ----- The beat -------------------------------------------------------------------------

  /** `getProgress()`: `(beat + 1) / (timeSignature * barsPerPhrase)`. */
  function Progress(beat: int, phraseLength: int): real
    requires phraseLength > 0
  {
    (beat + 1) as real / phraseLength as real
  }

  /** The test at the top of `mainLoop`, on the already incremented beat. */
  predicate StartsPhrase(beat: int, phraseLength: int)
    requires phraseLength > 0
  {
    beat == -1 || Progress(beat, phraseLength) > 1.0
  }

  /** What `nextPhrase()` does: back to beat 0 with the chord handoff. */
  function NewPhrase(p: App.Phrase, drawn1: string, drawn2: string): App.Phrase {
    App.Phrase(0, if p.nextChord != "" then p.nextChord else drawn1, drawn2)
  }

  /** The beat and chords after one run of `mainLoop`. */
  function Advance(p: App.Phrase, phraseLength: int, drawn1: string, drawn2: string): App.Phrase
    requires phraseLength > 0
  {
    var b := p.beat + 1;
    if StartsPhrase(b, phraseLength) then NewPhrase(p, drawn1, drawn2) else p.(beat := b)
  }

  /** A beat starts at -2, so the first tick reaches -1 and forces a phrase at beat 0. */
  lemma FirstTickStartsPhrase(phraseLength: int, drawn1: string, drawn2: string)
    requires phraseLength > 0
    ensures Advance(App.Phrase(-2, "", ""), phraseLength, drawn1, drawn2) == App.Phrase(0, drawn1, drawn2)
  {
  }

  /** From any beat of a phrase the next one lies in 0..P-1; a phrase starts exactly after
      the last beat P - 1 (or beyond it, if P shrank), with the chord handoff. */
  lemma AdvanceFacts(p: App.Phrase, phraseLength: int, drawn1: string, drawn2: string)
    requires phraseLength > 0 && p.beat >= 0
    ensures var q := Advance(p, phraseLength, drawn1, drawn2);
      && (StartsPhrase(p.beat + 1, phraseLength) <==> p.beat + 1 >= phraseLength)
      && 0 <= q.beat < phraseLength
      && 0.0 < Progress(q.beat, phraseLength) <= 1.0
      && (StartsPhrase(p.beat + 1, phraseLength) ==>
            q == App.Phrase(0, if p.nextChord != "" then p.nextChord else drawn1, drawn2))
      && (!StartsPhrase(p.beat + 1, phraseLength) ==> q == p.(beat := p.beat + 1))
  {
    App.ProgressVsBeat(p.beat + 2, phraseLength);
    var q := Advance(p, phraseLength, drawn1, drawn2);
    App.ProgressVsBeat(q.beat + 1, phraseLength);
  }

  /** This counter is the final app's shifted down by one: both start a phrase on the same
      ticks, so it also starts one phrase every P ticks and runs through 0..P-1. */
  lemma ShiftedCounter(p: App.Phrase, phraseLength: int, drawn1: string, drawn2: string)
    requires phraseLength > 0 && p.beat >= 0
    ensures StartsPhrase(p.beat + 1, phraseLength) <==> App.StartsPhrase(p.beat + 2, phraseLength)
    ensures Advance(p, phraseLength, drawn1, drawn2).beat + 1
         == App.Advance(p.(beat := p.beat + 1), phraseLength, drawn1, drawn2).beat
    ensures Advance(p, phraseLength, drawn1, drawn2).chord
         == App.Advance(p.(beat := p.beat + 1), phraseLength, drawn1, drawn2).chord
  {
    App.ProgressVsBeat(p.beat + 2, phraseLength);
  }

  /** The beat alone, tick after tick, with the phrase length held fixed. */
  function NextBeat(beat: int, phraseLength: int): int
    requires phraseLength > 0
  {
    if StartsPhrase(beat + 1, phraseLength) then 0 else beat + 1
  }

  function BeatAfterTicks(beat: int, phraseLength: int, n: nat): int
    requires phraseLength > 0
    decreases n
  {
    if n == 0 then beat else BeatAfterTicks(NextBeat(beat, phraseLength), phraseLength, n - 1)
  }

  /** How many of the next n ticks start a phrase. */
  function PhrasesStarted(beat: int, phraseLength: int, n: nat): nat
    requires phraseLength > 0
    decreases n
  {
    if n == 0 then 0
    else (if StartsPhrase(beat + 1, phraseLength) then 1 else 0)
         + PhrasesStarted(NextBeat(beat, phraseLength), phraseLength, n - 1)
  }

  lemma AdvanceBeat(p: App.Phrase, phraseLength: int, drawn1: string, drawn2: string)
    requires phraseLength > 0
    ensures Advance(p, phraseLength, drawn1, drawn2).beat == NextBeat(p.beat, phraseLength)
  {
  }

  /** Over any number of ticks this counter stays one below the final app's, and both
      start the same number of phrases. */
  lemma {:induction false} ShiftedTicks(beat: int, phraseLength: int, n: nat)
    requires phraseLength > 0 && beat >= 0
    ensures BeatAfterTicks(beat, phraseLength, n) + 1 == App.BeatAfterTicks(beat + 1, phraseLength, n)
    ensures PhrasesStarted(beat, phraseLength, n) == App.PhrasesStarted(beat + 1, phraseLength, n)
    decreases n
  {
    if n > 0 {
      App.ProgressVsBeat(beat + 2, phraseLength);
      assert NextBeat(beat, phraseLength) + 1 == App.NextBeat(beat + 1, phraseLength);
      ShiftedTicks(NextBeat(beat, phraseLength), phraseLength, n - 1);
    }
  }

  /** With the phrase length P held fixed, from any beat 0..P-1 the next P ticks start
      exactly one phrase and come back to the same beat. */
  lemma OnePhraseEveryPTicks(beat: int, phraseLength: int)
    requires phraseLength > 0 && 0 <= beat < phraseLength
    ensures BeatAfterTicks(beat, phraseLength, phraseLength) == beat
    ensures PhrasesStarted(beat, phraseLength, phraseLength) == 1
  {
    ShiftedTicks(beat, phraseLength, phraseLength);
    App.OnePhraseEveryPTicks(beat + 1, phraseLength);
  }

  /** `doMetronome()`: high when `beat % timeSignature === 0`, so on beat 0 of the phrase
      and on the first beat of every bar; with one beat per bar every click is high. */
  function MetronomeSound(metronome: bool, beat: int, timeSignature: int): seq<Sound>
    requires timeSignature > 0
  {
    if !metronome then []
    else if JsRem(beat, timeSignature) == 0 then [High]
    else [Low]
  }

  lemma AccentOnBarStart(beat: int, timeSignature: int)
    requires beat >= 0 && timeSignature >= 1
    ensures MetronomeSound(false, beat, timeSignature) == []
    ensures MetronomeSound(true, beat, timeSignature) == if beat % timeSignature == 0 then [High] else [Low]
    ensures MetronomeSound(true, 0, timeSignature) == [High]
    ensures timeSignature == 1 ==> MetronomeSound(true, beat, timeSignature) == [High]
  {
  }

  // ----- The chord line -------------------------------------------------------------------

  /** `formatMeasure(str)`: a bar line and str centred in 8 columns. For a string longer
      than 8 characters the left padding count is negative and `repeat` throws. */
  function FormatMeasure(s: string): (r: Result<string>)
    ensures r.Failure? <==> |s| > 8
    ensures |s| <= 7 ==> r == Success(App.FormatMeasure(s))
    ensures |s| == 8 ==> r == Success("|" + s)
  {
    var len := 8 - |s|;
    var left, right := len / 2, (len + 1) / 2;
    if left < 0 then
      Failure("RangeError: Invalid count value: " + IntToString(left))
    else
      var r := "|" + Spaces(left) + s + Spaces(right);
      assert |s| <= 7 ==> r == App.FormatMeasure(s);
      assert |s| == 8 ==> Spaces(left) == "" && Spaces(right) == "" && r == "|" + s;
      Success(r)
  }

  /** A chord of 9 characters or more cannot be drawn. C# minor is one: the tonic C#
      followed by the minor triad's spellings "min", "m" and "-" joined by commas gives
      "C#min,m,-". */
  lemma LongChordThrows(draws: seq<RandomChord.TonicDraw>, group: real, chord: real)
    requires |draws| == 1 && draws[0].key == 2.0 / 7.0 && draws[0].accidental == 2.0 / 3.0
    requires group == 0.0 && chord == 0.1
    ensures RandomChord.ValidDraws(draws) && RandomChord.IsRandom(group) && RandomChord.IsRandom(chord)
    ensures RandomChord.RandomChordOf(false, draws, group, chord) == Some("C#min,m,-")
    ensures FormatMeasure("C#min,m,-").Failure?
  {
    RandomChord.MinorChordExample(draws, group, chord);
  }

  /** An eight-character chord just fits: the bar line is followed directly by the chord,
      with no padding on either side. */
  lemma EightCharacterChordLine(chord: string, nextChord: string, barsPerPhrase: int, progress: real)
    requires |chord| == 8 && barsPerPhrase >= 1
    ensures GenChordLine(chord, nextChord, barsPerPhrase, progress).Success?
    ensures var line := GenChordLine(chord, nextChord, barsPerPhrase, progress).value;
      |Characters(line)| >= 9 && Characters(line)[..9] == "|" + chord
  {
    var measures := "|" + chord + Repeat(App.FormatMeasure("%"), barsPerPhrase - 1);
    var line := GenChordLine(chord, nextChord, barsPerPhrase, progress).value;
    ProgressBarCharacters(measures, progress);
    var bar := ProgressBarIfy(measures, progress);
    var rest := [Span(Plain, "| "), Span(Dim, nextChord), Span(Plain, " ")];
    assert line == bar + rest;
    CharactersAppend(bar, rest);
    assert Characters(line)[..9] == measures[..9];
  }

  /** `genChordLine()`, or the error drawing it throws. */
  function GenChordLine(chord: string, nextChord: string, barsPerPhrase: int, progress: real): (r: Result<seq<Span>>)
    requires barsPerPhrase >= 1
    ensures r.Failure? <==> |chord| > 8
    ensures |chord| <= 7 ==> r == Success(App.GenChordLine(chord, nextChord, barsPerPhrase, progress))
  {
    match FormatMeasure(chord)
    case Failure(e) => Failure(e)
    case Success(first) =>
      App.PercentMeasure();
      var measures := first + Repeat(App.FormatMeasure("%"), barsPerPhrase - 1);
      Success(ProgressBarIfy(measures, progress) + [Span(Plain, "| "), Span(Dim, nextChord), Span(Plain, " ")])
  }

  /** The option lines `drawInterface` prints above the chord line. */
  function OptionLines(o: Options): seq<seq<Span>> {
    [ [Span(Plain, "Tempo: " + IntToString(o.tempo) + " "), Span(Dim, "-- change: [↑] & [↓]")],
      [Span(Plain, "Time Signature: " + IntToString(o.timeSignature) + "/4 "), Span(Dim, "-- change: [1-9]")],
      [Span(Plain, "Bars per Phrase: " + IntToString(o.barsPerPhrase) + " "), Span(Dim, "-- change: [←] & [→]")],
      [Span(Plain, "Metronome: " + (if o.metronome then "ON" else "OFF") + " "), Span(Dim, "-- toggle: [m]")],
      [Span(Plain, "Simplify (Cb→B, etc): " + (if o.simplifyEnharmonics then "ON" else "OFF") + " "), Span(Dim, "-- toggle: [e]")],
      [Span(Plain, "Press any other key to exit.")],
      [Span(Plain, "")] ]
  }

  // ----- The CLI object -------------------------------------------------------------------

  class CLI {
    var tempo: int
    var timeSignature: int
    var barsPerPhrase: int
    var metronome: bool
    var simplifyEnharmonics: bool
    var beat: int
    var chord: string
    var nextChord: string
    /** The delays of the `setTimeout` calls not yet fired. */
    var timers: seq<real>
    /** The sounds handed to the player so far. */
    var played: seq<Sound>
    /** The exception that ended the process, if one was thrown. */
    var failure: Option<string>

    function Opts(): Options
      reads this
    {
      Options(tempo, timeSignature, barsPerPhrase, metronome, simplifyEnharmonics)
    }

    function Current(): App.Phrase
      reads this
    {
      App.Phrase(beat, chord, nextChord)
    }

    predicate Valid()
      reads this
    {
      ValidOptions(Opts()) && beat >= 0 && |timers| <= 1
    }

    /** The line `genChordLine()` gives in the current state, or the error it throws. */
    function ChordLine(): Result<seq<Span>>
      reads this
      requires ValidOptions(Opts())
    {
      GenChordLine(chord, nextChord, barsPerPhrase, Progress(beat, timeSignature * barsPerPhrase))
    }

    /** The CLI as the constructor leaves it: default options and the first tick run. */
    constructor (drawn1: string, drawn2: string)
      ensures Valid() && Opts() == DEFAULT_OPTIONS
      ensures Current() == App.Phrase(0, drawn1, drawn2) && played == [High]
      ensures failure.None? <==> |drawn1| <= 8
      ensures failure.None? ==> timers == [500.0]
      ensures failure.Some? ==> timers == []
    {
      tempo, timeSignature, barsPerPhrase := 120, 4, 2;
      metronome, simplifyEnharmonics := true, false;
      beat, chord, nextChord := -2, "", "";
      timers, played, failure := [], [], None;
      new;
      assert JsRem(0, 4) == 0 && MsPerBeat(120) == 500.0;
      var lines, line := MainLoop(drawn1, drawn2);
    }

    /** `mainLoop()`: advance the beat, start a phrase when due, play the metronome, draw,
      and arm the next timer. When drawing throws, the exception ends the process and no
      timer is armed. */
    method MainLoop(drawn1: string, drawn2: string) returns (lines: seq<seq<Span>>, chordLine: seq<Span>)
      requires ValidOptions(Opts()) && beat >= -2 && failure.None?
      modifies this
      ensures Opts() == old(Opts()) && beat >= 0
      ensures Current() == Advance(old(Current()), timeSignature * barsPerPhrase, drawn1, drawn2)
      ensures played == old(played) + MetronomeSound(metronome, beat, timeSignature)
      ensures failure.None? <==> ChordLine().Success?
      ensures failure.None? ==> timers == old(timers) + [MsPerBeat(tempo)]
                                && lines == OptionLines(Opts()) && chordLine == ChordLine().value
      ensures failure.Some? ==> timers == old(timers) && failure == Some(ChordLine().error)
    {
      AdvanceBeat(drawn1, drawn2);
      DoMetronome();
      lines, chordLine := DrawInterface();
      if failure.None? {
        timers := timers + [MsPerBeat(tempo)];
      }
    }

    /** The first half of `mainLoop()`: count the beat and start a new phrase when due. */
    method AdvanceBeat(drawn1: string, drawn2: string)
      requires ValidOptions(Opts()) && beat >= -2
      modifies this
      ensures Opts() == old(Opts()) && timers == old(timers) && played == old(played) && failure == old(failure)
      ensures Current() == Advance(old(Current()), timeSignature * barsPerPhrase, drawn1, drawn2)
      ensures beat >= 0
    {
      var phraseLength := timeSignature * barsPerPhrase;
      ghost var after := Advance(Current(), phraseLength, drawn1, drawn2);
      if beat >= 0 {
        AdvanceFacts(Current(), phraseLength, drawn1, drawn2);
      }
      beat := beat + 1;
      if beat == -1 || Progress(beat, phraseLength) > 1.0 {
        NextPhrase(drawn1, drawn2);
      }
      assert Current() == after;
    }

    /** The pending timer fires: it leaves the list and the main loop runs. */
    method TimerFires(drawn1: string, drawn2: string) returns (lines: seq<seq<Span>>, chordLine: seq<Span>)
      requires Valid() && |timers| == 1 && failure.None?
      modifies this
      ensures Valid() && Opts() == old(Opts())
      ensures Current() == Advance(old(Current()), timeSignature * barsPerPhrase, drawn1, drawn2)
      ensures played == old(played) + MetronomeSound(metronome, beat, timeSignature)
      ensures failure.None? <==> ChordLine().Success?
      ensures failure.None? ==> timers == [MsPerBeat(tempo)]
                                && lines == OptionLines(Opts()) && chordLine == ChordLine().value
      ensures failure.Some? ==> timers == [] && failure == Some(ChordLine().error)
    {
      timers := timers[1..];
      lines, chordLine := MainLoop(drawn1, drawn2);
    }

    method NextPhrase(drawn1: string, drawn2: string)
      modifies this
      ensures Current() == NewPhrase(old(Current()), drawn1, drawn2)
      ensures Opts() == old(Opts()) && timers == old(timers) && played == old(played) && failure == old(failure)
    {
      beat := 0;
      chord := if nextChord != "" then nextChord else drawn1;
      nextChord := drawn2;
    }

    method DoMetronome()
      requires timeSignature > 0
      modifies this
      ensures Opts() == old(Opts()) && Current() == old(Current()) && timers == old(timers) && failure == old(failure)
      ensures played == old(played) + MetronomeSound(metronome, beat, timeSignature)
    {
      if metronome {
        if JsRem(beat, timeSignature) == 0 {
          played := played + [High];
        } else {
          played := played + [Low];
        }
      }
    }

    /** `drawInterface()`: the option lines, then the chord line; a throw is recorded. */
    method DrawInterface() returns (lines: seq<seq<Span>>, chordLine: seq<Span>)
      requires ValidOptions(Opts()) && failure.None?
      modifies this
      ensures Opts() == old(Opts()) && Current() == old(Current())
      ensures timers == old(timers) && played == old(played)
      ensures failure.None? <==> ChordLine().Success?
      ensures failure.None? ==> lines == OptionLines(Opts()) && chordLine == ChordLine().value
      ensures failure.Some? ==> failure == Some(ChordLine().error)
    {
      lines := OptionLines(Opts());
      var line := GenChordLine(chord, nextChord, barsPerPhrase, Progress(beat, timeSignature * barsPerPhrase));
      match line
      case Failure(e) =>
        failure := Some(e);
        chordLine := [];
      case Success(l) =>
        chordLine := l;
    }

    /** A key press: change the options as OptionsKey says, then redraw at once (which may
      throw); an exit key ends the process before anything is drawn. */
    method HandleKeyboardInput(key: string) returns (exit: bool, lines: seq<seq<Span>>, chordLine: seq<Span>)
      requires Valid() && failure.None?
      modifies this
      ensures Valid()
      ensures KeyEffect(exit, Opts()) == OptionsKey(old(Opts()), key)
      ensures Current() == old(Current()) && timers == old(timers) && played == old(played)
      ensures exit ==> failure.None?
      ensures !exit ==> (failure.None? <==> ChordLine().Success?)
      ensures !exit && failure.None? ==> lines == OptionLines(Opts()) && chordLine == ChordLine().value
      ensures !exit && failure.Some? ==> failure == Some(ChordLine().error)
    {
      OptionsKeyKeepsValid(Opts(), key);
      exit := ChangeOption(key);
      if exit {
        return true, [], [];
      }
      lines, chordLine := DrawInterface();
    }

    /** The option change a key press makes, before anything is drawn. */
    method ChangeOption(key: string) returns (exit: bool)
      requires ValidOptions(Opts())
      modifies this
      ensures KeyEffect(exit, Opts()) == OptionsKey(old(Opts()), key)
      ensures Current() == old(Current()) && timers == old(timers) && played == old(played) && failure == old(failure)
    {
      NotArrows();
      exit := false;
      if key == KeyUp {
        tempo := tempo + 5;
      } else if key == KeyDown {
        tempo := Max(tempo - 5, 20);
      } else if key == KeyRight {
        barsPerPhrase := barsPerPhrase + 1;
      } else if key == KeyLeft {
        barsPerPhrase := Max(barsPerPhrase - 1, 1);
      } else if key == "m" {
        metronome := !metronome;
      } else if key == "e" {
        simplifyEnharmonics := !simplifyEnharmonics;
      } else {
        var asNumber := JsNumber(key);
        if asNumber.Some? && asNumber.value != 0 {
          timeSignature := asNumber.value;
        } else {
          exit := true;
        }
      }
    }
  }
}
