/** The final app (`ChordChartPracticeApp`): a 1-based beat counter advanced on every
    timer tick, phrases of timeSignature * barsPerPhrase beats, the current/next chord
    handoff at each phrase start, the metronome accent, the key dispatch between the app and
    its settings panel, and the chord line it draws. `setTimeout` is a list of pending
    delays, the player a list of sounds played, and each random chord a value the caller
    supplies. */
module App {
  import opened Text
  import opened Settings
  import opened Rendering

  // ----- Progress through a phrase --------------------------------------------------------

  /** `getProgress()`: `beat / (timeSignature * barsPerPhrase)`. */
  function Progress(beat: int, phraseLength: int): real
    requires phraseLength > 0
  {
    beat as real / phraseLength as real
  }

  /** Progress passes 1 exactly when the beat passes the phrase length, and lies in (0, 1]
      for a beat inside the phrase. */
  lemma ProgressVsBeat(beat: int, phraseLength: int)
    requires phraseLength > 0
    ensures Progress(beat, phraseLength) > 1.0 <==> beat > phraseLength
    ensures 1 <= beat <= phraseLength ==> 0.0 < Progress(beat, phraseLength) <= 1.0
  {
    var x, p := Progress(beat, phraseLength), phraseLength as real;
    assert x * p == beat as real;
    if x > 1.0 {
      ScaleWeak(1.0, x, p);
    } else {
      ScaleWeak(x, 1.0, p);
    }
    if 1 <= beat {
      if x <= 0.0 {
        ScaleWeak(x, 0.0, p);
      }
    }
  }

  /** The test at the top of `mainLoop`, on the already incremented beat. */
  predicate StartsPhrase(beat: int, phraseLength: int)
    requires phraseLength > 0
  {
    beat == 1 || Progress(beat, phraseLength) > 1.0
  }

  // ----- The main loop on values ----------------------------------------------------------

  /** The part of `state` the main loop changes. */
  datatype Phrase = Phrase(beat: int, chord: string, nextChord: string)

  /** What `nextPhrase()` does: back to beat 1, the waiting chord becomes current (a freshly drawn one
      when none waits, as `||` treats "" as false), and a new chord waits. drawn1 and drawn2
      are what the two `getRandomChord` calls return. */
  function NewPhrase(p: Phrase, drawn1: string, drawn2: string): Phrase {
    Phrase(1, if p.nextChord != "" then p.nextChord else drawn1, drawn2)
  }

  /** The beat and chords after one run of `mainLoop`. */
  function Advance(p: Phrase, phraseLength: int, drawn1: string, drawn2: string): Phrase
    requires phraseLength > 0
  {
    var b := p.beat + 1;
    if StartsPhrase(b, phraseLength) then NewPhrase(p, drawn1, drawn2) else p.(beat := b)
  }

  /** One tick: a phrase starts after beat 0 (the first tick) and after the last beat of a
      phrase; then the waiting chord moves up and a new one is drawn. Otherwise the beat
      goes up by one and the chords stay. Either way the new beat lies in 1..P, so the
      progress lies in (0, 1]. */
  lemma AdvanceFacts(p: Phrase, phraseLength: int, drawn1: string, drawn2: string)
    requires phraseLength > 0 && p.beat >= 0
    ensures var q := Advance(p, phraseLength, drawn1, drawn2);
      && (StartsPhrase(p.beat + 1, phraseLength) <==> p.beat == 0 || p.beat >= phraseLength)
      && 1 <= q.beat <= phraseLength
      && 0.0 < Progress(q.beat, phraseLength) <= 1.0
      && (StartsPhrase(p.beat + 1, phraseLength) ==>
            q.beat == 1 && q.nextChord == drawn2
            && q.chord == (if p.nextChord != "" then p.nextChord else drawn1))
      && (!StartsPhrase(p.beat + 1, phraseLength) ==>
            q == Phrase(p.beat + 1, p.chord, p.nextChord))
  {
    ProgressVsBeat(p.beat + 1, phraseLength);
    var q := Advance(p, phraseLength, drawn1, drawn2);
    ProgressVsBeat(q.beat, phraseLength);
  }

  /** At start-up beat is 0, so the first tick always starts a phrase at beat 1. */
  lemma FirstTickStartsPhrase(phraseLength: int, drawn1: string, drawn2: string)
    requires phraseLength > 0
    ensures StartsPhrase(1, phraseLength)
    ensures Advance(Phrase(0, "", ""), phraseLength, drawn1, drawn2) == Phrase(1, drawn1, drawn2)
  {
  }

  /** The beat alone, tick after tick, with the phrase length held fixed. */
  function NextBeat(beat: int, phraseLength: int): int
    requires phraseLength > 0
  {
    if StartsPhrase(beat + 1, phraseLength) then 1 else beat + 1
  }

  function BeatAfterTicks(beat: int, phraseLength: int, n: nat): int
    requires phraseLength > 0
    decreases n
  {
    if n == 0 then beat else BeatAfterTicks(NextBeat(beat, phraseLength), phraseLength, n - 1)
  }

  /** How many of the next n ticks start a phrase. */
  function PhrasesStarted(beat: int, phraseLength: int, n: nat): nat
    requires phraseLength > 0
    decreases n
  {
    if n == 0 then 0
    else (if StartsPhrase(beat + 1, phraseLength) then 1 else 0)
         + PhrasesStarted(NextBeat(beat, phraseLength), phraseLength, n - 1)
  }

  lemma AdvanceBeat(p: Phrase, phraseLength: int, drawn1: string, drawn2: string)
    requires phraseLength > 0
    ensures Advance(p, phraseLength, drawn1, drawn2).beat == NextBeat(p.beat, phraseLength)
  {
  }

  /** Inside a phrase the beat climbs by one per tick and no phrase starts. */
  lemma {:induction false} QuietStretch(beat: int, phraseLength: int, k: nat)
    requires phraseLength > 0 && 1 <= beat && beat + k <= phraseLength
    ensures BeatAfterTicks(beat, phraseLength, k) == beat + k
    ensures PhrasesStarted(beat, phraseLength, k) == 0
    decreases k
  {
    if k > 0 {
      ProgressVsBeat(beat + 1, phraseLength);
      assert NextBeat(beat, phraseLength) == beat + 1;
      QuietStretch(beat + 1, phraseLength, k - 1);
    }
  }

  lemma {:induction false} TicksCompose(beat: int, phraseLength: int, m: nat, n: nat)
    requires phraseLength > 0
    ensures BeatAfterTicks(beat, phraseLength, m + n)
         == BeatAfterTicks(BeatAfterTicks(beat, phraseLength, m), phraseLength, n)
    ensures PhrasesStarted(beat, phraseLength, m + n)
         == PhrasesStarted(beat, phraseLength, m) + PhrasesStarted(BeatAfterTicks(beat, phraseLength, m), phraseLength, n)
    decreases m
  {
    if m > 0 {
      TicksCompose(NextBeat(beat, phraseLength), phraseLength, m - 1, n);
      assert m + n - 1 == (m - 1) + n;
    }
  }

  /** With the phrase length P held fixed, from any beat of a phrase the next P ticks start
      exactly one phrase and return to the same beat: the beat cycles through 1..P. */
  lemma OnePhraseEveryPTicks(beat: int, phraseLength: int)
    requires phraseLength > 0 && 1 <= beat <= phraseLength
    ensures BeatAfterTicks(beat, phraseLength, phraseLength) == beat
    ensures PhrasesStarted(beat, phraseLength, phraseLength) == 1
  {
    var k := phraseLength - beat;
    QuietStretch(beat, phraseLength, k);
    ProgressVsBeat(phraseLength + 1, phraseLength);
    assert BeatAfterTicks(phraseLength, phraseLength, 1) == 1;
    assert PhrasesStarted(phraseLength, phraseLength, 1) == 1;
    QuietStretch(1, phraseLength, beat - 1);
    TicksCompose(phraseLength, phraseLength, 1, beat - 1);
    TicksCompose(beat, phraseLength, k, 1 + (beat - 1));
  }

  /** A 4/4 phrase of two bars lasts 8 ticks: from start-up, the first tick starts a phrase,
      the next seven do not, and the ninth starts the next phrase. */
  lemma EightTicksPerPhraseExample()
    ensures BeatAfterTicks(0, 4 * 2, 8) == 8
    ensures PhrasesStarted(0, 4 * 2, 8) == 1
    ensures PhrasesStarted(0, 4 * 2, 9) == 2
  {
    assert NextBeat(0, 8) == 1 && StartsPhrase(1, 8);
    assert BeatAfterTicks(0, 8, 1) == 1 && PhrasesStarted(0, 8, 1) == 1;
    QuietStretch(1, 8, 7);
    TicksCompose(0, 8, 1, 7);
    ProgressVsBeat(9, 8);
    assert BeatAfterTicks(8, 8, 1) == 1 && PhrasesStarted(8, 8, 1) == 1;
    TicksCompose(0, 8, 8, 1);
  }

  // ----- Metronome ------------------------------------------------------------------------

  /** `doMetronome()`: with the metronome on, high when `beat % timeSignature === 1`, low
      otherwise; nothing with it off. */
  function MetronomeSound(metronome: bool, beat: int, timeSignature: int): seq<Sound>
    requires timeSignature > 0
  {
    if !metronome then []
    else if JsRem(beat, timeSignature) == 1 then [High]
    else [Low]
  }

  /** On the beats of a phrase (1 and up) the high sound marks the first beat of every bar
      (beats 1, ts + 1, 2ts + 1, ...), and never sounds when a bar has one beat. */
  lemma AccentOnFirstBeatOfBar(beat: int, timeSignature: int)
    requires beat >= 1 && timeSignature >= 1
    ensures MetronomeSound(false, beat, timeSignature) == []
    ensures MetronomeSound(true, beat, timeSignature)
         == if timeSignature >= 2 && (beat - 1) % timeSignature == 0 then [High] else [Low]
    ensures timeSignature == 1 ==> MetronomeSound(true, beat, timeSignature) == [Low]
  {
    assert JsRem(beat, timeSignature) == beat % timeSignature;
    if timeSignature >= 2 {
      RemainderOne(beat, timeSignature);
    }
  }

  /** For a divisor of at least 2, `b % n == 1` exactly when b - 1 is a multiple of n. */
  lemma RemainderOne(b: int, n: int)
    requires n >= 2
    ensures b % n == 1 <==> (b - 1) % n == 0
  {
    var q, r := b / n, b % n;
    assert b == q * n + r;
    if r >= 1 {
      MultiplePlus(q, n, r - 1);
      assert b - 1 == q * n + (r - 1);
    } else {
      MultiplePlus(q - 1, n, n - 1);
      assert b - 1 == (q - 1) * n + (n - 1);
    }
  }

  // ----- Key dispatch ---------------------------------------------------------------------

  datatype Dispatch = Dispatch(exit: bool, settingsOpen: bool, registry: Registry)

  /** `handleKeyboardInput(key)`: with the panel open, the settings manager gets the key
      first; otherwise "s" toggles the panel and puts the cursor on the first row, and any
      other key exits. */
  function DispatchKey(settingsOpen: bool, r: Registry, key: string): Dispatch
    requires 0 <= r.selectedRow < |r.settings|
  {
    if settingsOpen && ApplyKey(r, key).handled then Dispatch(false, settingsOpen, ApplyKey(r, key).registry)
    else if key == "s" then Dispatch(false, !settingsOpen, r.(selectedRow := 0))
    else Dispatch(true, settingsOpen, r)
  }

  /** With the panel open an arrow key edits the settings and nothing else happens; with it
      closed the arrows exit like any key but "s". "s" leaves every value as it was, and two
      presses bring the panel back to where it was with the cursor on the first row. */
  lemma DispatchFacts(settingsOpen: bool, r: Registry, key: string)
    requires 0 <= r.selectedRow < |r.settings|
    ensures settingsOpen && IsArrowKey(key) ==>
      DispatchKey(settingsOpen, r, key) == Dispatch(false, true, ApplyKey(r, key).registry)
    ensures !settingsOpen && key != "s" ==> DispatchKey(settingsOpen, r, key) == Dispatch(true, false, r)
    ensures settingsOpen && !IsArrowKey(key) && key != "s" ==> DispatchKey(settingsOpen, r, key) == Dispatch(true, true, r)
    ensures key == "s" ==> DispatchKey(settingsOpen, r, key) == Dispatch(false, !settingsOpen, r.(selectedRow := 0))
    ensures var once := DispatchKey(settingsOpen, r, "s");
      DispatchKey(once.settingsOpen, once.registry, "s") == Dispatch(false, settingsOpen, r.(selectedRow := 0))
  {
    assert !IsArrowKey("s") by {
      assert KeyUp[0] != 's' && KeyDown[0] != 's' && KeyRight[0] != 's' && KeyLeft[0] != 's';
    }
  }

  /** Whatever key arrives, the settings stay in bounds and the cursor on a row. */
  lemma DispatchKeepsValid(settingsOpen: bool, r: Registry, key: string)
    requires ValidRegistry(r)
    ensures ValidRegistry(DispatchKey(settingsOpen, r, key).registry)
  {
    ApplyKeyKeepsValid(r, key);
  }

  // ----- The chord line -------------------------------------------------------------------

  /** Columns of padding before a measure's text. */
  function LeftPad(s: string): nat {
    if |s| > 7 then 1 else (8 - |s|) / 2
  }

  /** `formatMeasure(str)`: a bar line, then str centred in 8 columns (the extra column of
      an odd padding goes right); a string too long for that gets one space on each side. */
  function FormatMeasure(s: string): (r: string)
    ensures |s| <= 7 ==> |r| == 9
    ensures |s| > 7 ==> |r| == |s| + 3
    ensures r[0] == '|'
    ensures r[1 + LeftPad(s)..1 + LeftPad(s) + |s|] == s
    ensures var right := |r| - 1 - LeftPad(s) - |s|; LeftPad(s) <= right <= LeftPad(s) + 1
    ensures forall i :: 1 <= i < 1 + LeftPad(s) || 1 + LeftPad(s) + |s| <= i < |r| ==> r[i] == ' '
  {
    if |s| > 7 then
      var r := "| " + s + " ";
      assert r[2..2 + |s|] == s;
      r
    else
      var len := 8 - |s|;
      var left, right := Spaces(len / 2), Spaces((len + 1) / 2);
      var r := "|" + left + s + right;
      assert r[1 + |left|..1 + |left| + |s|] == s;
      assert forall i :: 1 <= i < 1 + |left| ==> r[i] == left[i - 1];
      assert forall i :: 1 + |left| + |s| <= i < |r| ==> r[i] == right[i - 1 - |left| - |s|];
      r
  }

  /** The repeat marks after the first measure: "|   %    ". */
  lemma PercentMeasure()
    ensures FormatMeasure("%") == "|   %    "
  {
    assert Spaces(3) == "   " && Spaces(4) == "    ";
  }

  /** The measures of the current phrase: the chord, then a repeat mark for every further
      bar. */
  function PhraseMeasures(chord: string, barsPerPhrase: int): string
    requires barsPerPhrase >= 1
  {
    FormatMeasure(chord) + Repeat(FormatMeasure("%"), barsPerPhrase - 1)
  }

  /** `genChordLine()`: the measures with the progress bar over them, then the next chord
      dimmed after a bar line, then a space. */
  function GenChordLine(chord: string, nextChord: string, barsPerPhrase: int, progress: real): seq<Span>
    requires barsPerPhrase >= 1
  {
    ProgressBarIfy(PhraseMeasures(chord, barsPerPhrase), progress)
    + [Span(Plain, "| "), Span(Dim, nextChord), Span(Plain, " ")]
  }

  /** The line reads the measures, "| ", the next chord and a space; a chord that fits
      gives 9 columns per bar; the gray part covers the rounded share of the measures the
      progress gives. */
  lemma ChordLineShape(chord: string, nextChord: string, barsPerPhrase: int, progress: real)
    requires barsPerPhrase >= 1
    ensures var line := GenChordLine(chord, nextChord, barsPerPhrase, progress);
      var measures := PhraseMeasures(chord, barsPerPhrase);
      && Characters(line) == measures + "| " + nextChord + " "
      && line[0].style == Gray && |line[0].text| == CutPoint(measures, progress)
      && line[3] == Span(Dim, nextChord)
      && (|chord| <= 7 ==> |measures| == 9 * barsPerPhrase)
  {
    var measures := PhraseMeasures(chord, barsPerPhrase);
    var bar := ProgressBarIfy(measures, progress);
    var tail := [Span(Plain, "| "), Span(Dim, nextChord), Span(Plain, " ")];
    ProgressBarCharacters(measures, progress);
    CharactersAppend(bar, tail);
    assert Characters(tail[2..]) == " ";
    assert Characters(tail[1..]) == nextChord + " ";
    assert (bar + tail)[0] == bar[0] && (bar + tail)[3] == tail[1];
    assert |Repeat(FormatMeasure("%"), barsPerPhrase - 1)| == (barsPerPhrase - 1) * 9 by {
      PercentMeasure();
    }
  }

  /** The help shown while the settings panel is closed. */
  const MAIN_HELP: seq<Span> :=
    [Span(Dim, "Open Settings: [s]"), Span(Dim, "Press any other key to exit."), Span(Plain, "")]

  // ----- The app object -------------------------------------------------------------------

  class ChordChartPracticeApp {
    var beat: int
    var chord: string
    var nextChord: string
    var settingsOpen: bool
    const settings: SettingsManager
    /** The delays of the `setTimeout` calls not yet fired. */
    var timers: seq<real>
    /** The sounds handed to the player so far. */
    var played: seq<Sound>

    predicate Valid()
      reads this, settings, settings.settings
    {
      settings.Valid() && beat >= 1 && |timers| == 1
    }

    function Current(): Phrase
      reads this
    {
      Phrase(beat, chord, nextChord)
    }

    function Values(): seq<Setting>
      reads settings, settings.settings
    {
      settings.settings[..]
    }

    function PhraseLength(): (p: int)
      reads settings, settings.settings
      requires settings.Valid()
      ensures p >= 1
    {
      TimeSignatureOf(Values()) * BarsPerPhraseOf(Values())
    }

    /** The line `genChordLine()` returns in the current state. */
    function ChordLine(): seq<Span>
      reads this, settings, settings.settings
      requires settings.Valid()
    {
      GenChordLine(chord, nextChord, BarsPerPhraseOf(Values()), Progress(beat, PhraseLength()))
    }

    /** The app as the constructor leaves it: default settings, the first tick already run
      (beat 1, high sound, one timer of 500 ms pending). */
    constructor (drawn1: string, drawn2: string)
      ensures Valid() && fresh(settings) && fresh(settings.settings)
      ensures settings.State() == Registry(DEFAULT_SETTINGS, 0) && !settingsOpen
      ensures Current() == Phrase(1, drawn1, drawn2)
      ensures timers == [500.0] && played == [High]
    {
      settings := new SettingsManager();
      beat, chord, nextChord := 0, "", "";
      settingsOpen := false;
      timers, played := [], [];
      new;
      FirstTickWithDefaults(drawn1, drawn2);
      assert Values() == DEFAULT_SETTINGS;
      var lines, line := MainLoop(drawn1, drawn2);
    }

    /** `mainLoop()`: advance the beat, start a phrase when due, play the metronome, draw,
      and arm the next timer for one beat at the current tempo. */
    method MainLoop(drawn1: string, drawn2: string) returns (lines: seq<Span>, chordLine: seq<Span>)
      requires settings.Valid() && beat >= 0
      modifies this
      ensures settings.Valid() && beat >= 1
      ensures Current() == Advance(old(Current()), PhraseLength(), drawn1, drawn2)
      ensures played == old(played) + MetronomeSound(MetronomeOf(Values()), beat, TimeSignatureOf(Values()))
      ensures timers == old(timers) + [MsPerBeat(TempoOf(Values()))]
      ensures settingsOpen == old(settingsOpen)
      ensures !settingsOpen ==> lines == MAIN_HELP
      ensures settingsOpen ==> ShowsSettings(lines, settings.State())
      ensures chordLine == ChordLine()
    {
      var values := Values();
      AdvanceBeat(drawn1, drawn2);
      assert Values() == values;
      DoMetronome();
      lines, chordLine := DrawInterface();
      timers := timers + [MsPerBeat(TempoOf(values))];
    }

    /** The first half of `mainLoop()`: count the beat and start a new phrase when due. */
    method AdvanceBeat(drawn1: string, drawn2: string)
      requires settings.Valid() && beat >= 0
      modifies this
      ensures Current() == Advance(old(Current()), PhraseLength(), drawn1, drawn2)
      ensures beat >= 1
      ensures settingsOpen == old(settingsOpen) && timers == old(timers) && played == old(played)
    {
      var phraseLength := PhraseLength();
      ghost var after := Advance(Current(), phraseLength, drawn1, drawn2);
      AdvanceFacts(Current(), phraseLength, drawn1, drawn2);
      beat := beat + 1;
      if beat == 1 || Progress(beat, phraseLength) > 1.0 {
        NextPhrase(drawn1, drawn2);
      }
      assert Current() == after;
    }

    /** The pending timer fires: it leaves the list and the main loop runs. */
    method TimerFires(drawn1: string, drawn2: string) returns (lines: seq<Span>, chordLine: seq<Span>)
      requires Valid()
      modifies this
      ensures Valid() && timers == [MsPerBeat(TempoOf(Values()))]
      ensures Current() == Advance(old(Current()), PhraseLength(), drawn1, drawn2)
      ensures played == old(played) + MetronomeSound(MetronomeOf(Values()), beat, TimeSignatureOf(Values()))
      ensures settingsOpen == old(settingsOpen)
      ensures !settingsOpen ==> lines == MAIN_HELP
      ensures settingsOpen ==> ShowsSettings(lines, settings.State())
      ensures chordLine == ChordLine()
    {
      timers := timers[1..];
      lines, chordLine := MainLoop(drawn1, drawn2);
    }

    method NextPhrase(drawn1: string, drawn2: string)
      modifies this
      ensures Current() == NewPhrase(old(Current()), drawn1, drawn2)
      ensures settingsOpen == old(settingsOpen) && timers == old(timers) && played == old(played)
    {
      beat := 1;
      chord := if nextChord != "" then nextChord else drawn1;
      nextChord := drawn2;
    }

    method DoMetronome()
      requires settings.Valid()
      modifies this
      ensures played == old(played) + MetronomeSound(MetronomeOf(Values()), beat, TimeSignatureOf(Values()))
      ensures Current() == old(Current()) && settingsOpen == old(settingsOpen) && timers == old(timers)
    {
      var ts := TimeSignatureOf(Values());
      if MetronomeOf(Values()) {
        if JsRem(beat, ts) == 1 {
          played := played + [High];
        } else {
          played := played + [Low];
        }
      }
    }

    /** `drawInterface()`: the settings panel or the help lines, then the chord line. */
    method DrawInterface() returns (lines: seq<Span>, chordLine: seq<Span>)
      requires settings.Valid()
      ensures !settingsOpen ==> lines == MAIN_HELP
      ensures settingsOpen ==> ShowsSettings(lines, settings.State())
      ensures chordLine == ChordLine()
    {
      if settingsOpen {
        lines := settings.DrawInterface();
      } else {
        lines := MAIN_HELP;
      }
      chordLine := GenChordLine(chord, nextChord, BarsPerPhraseOf(Values()), Progress(beat, PhraseLength()));
    }

    /** A key press. On exit nothing is drawn and the state is left as it was; otherwise the
      interface is redrawn at once. The timer is not touched. */
    method HandleKeyboardInput(key: string) returns (exit: bool, lines: seq<Span>, chordLine: seq<Span>)
      requires Valid()
      modifies this, settings, settings.settings
      ensures Valid()
      ensures var d := DispatchKey(old(settingsOpen), old(settings.State()), key);
        exit == d.exit && settingsOpen == d.settingsOpen && settings.State() == d.registry
      ensures Current() == old(Current()) && timers == old(timers) && played == old(played)
      ensures !exit && !settingsOpen ==> lines == MAIN_HELP
      ensures !exit && settingsOpen ==> ShowsSettings(lines, settings.State())
      ensures !exit ==> chordLine == ChordLine()
    {
      DispatchKeepsValid(settingsOpen, settings.State(), key);
      exit := Dispatch(key);
      if exit {
        return true, [], [];
      }
      lines, chordLine := DrawInterface();
    }

    /** Where `handleKeyboardInput(key)` sends the key, before anything is drawn. */
    method Dispatch(key: string) returns (exit: bool)
      requires settings.Valid() && 0 <= settings.selectedRow < settings.settings.Length
      modifies this, settings, settings.settings
      ensures var d := DispatchKey(old(settingsOpen), old(settings.State()), key);
        exit == d.exit && settingsOpen == d.settingsOpen && settings.State() == d.registry
      ensures Current() == old(Current()) && timers == old(timers) && played == old(played)
    {
      var handled := false;
      if settingsOpen {
        handled := settings.HandleKeyboardInput(key);
      }
      if settingsOpen && handled {
      } else if key == "s" {
        settingsOpen := !settingsOpen;
        settings.selectedRow := 0;
      } else {
        return true;
      }
      exit := false;
    }
  }

  /** The values the defaults give the main loop: tempo 120, 4/4, two bars, metronome on. */
  lemma DefaultValues()
    ensures Conforms(DEFAULT_SETTINGS)
    ensures TempoOf(DEFAULT_SETTINGS) == 120 && TimeSignatureOf(DEFAULT_SETTINGS) == 4
    ensures BarsPerPhraseOf(DEFAULT_SETTINGS) == 2 && MetronomeOf(DEFAULT_SETTINGS)
  {
    DefaultsConform();
    var d := DEFAULT_SETTINGS;
    assert d[TEMPO] == TEMPO_DEFAULT && d[TIME_SIGNATURE] == TIME_SIGNATURE_DEFAULT;
    assert d[BARS_PER_PHRASE] == BARS_PER_PHRASE_DEFAULT && d[METRONOME] == METRONOME_DEFAULT;
  }

  /** The first tick of the default app: beat 1 of an 8-beat phrase, a high click, and a
      500 ms timer. */
  lemma FirstTickWithDefaults(drawn1: string, drawn2: string)
    ensures Conforms(DEFAULT_SETTINGS)
    ensures TimeSignatureOf(DEFAULT_SETTINGS) * BarsPerPhraseOf(DEFAULT_SETTINGS) == 8
    ensures Advance(Phrase(0, "", ""), 8, drawn1, drawn2) == Phrase(1, drawn1, drawn2)
    ensures MetronomeSound(MetronomeOf(DEFAULT_SETTINGS), 1, TimeSignatureOf(DEFAULT_SETTINGS)) == [High]
    ensures MsPerBeat(TempoOf(DEFAULT_SETTINGS)) == 500.0
  {
    DefaultValues();
    assert JsRem(1, 4) == 1;
  }
}
