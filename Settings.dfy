/** The settings registry of the final app: six typed settings, a cursor over them, and
    the arrow-key editing that moves the cursor or changes the selected setting in place. */
module Settings {
  import opened Text

  /** One setting, one variant per kind. A number may have a lower bound, an upper bound
      and a step (each absent when the source leaves it undefined); an enum holds the index
      of its current choice. `valueSuffix` is "" when the source has none. */
  datatype Setting =
    | NumberSetting(name: string, displayName: string, value: int,
                    min: Option<int>, max: Option<int>, increment: Option<int>, valueSuffix: string)
    | BooleanSetting(name: string, displayName: string, on: bool, valueSuffix: string)
    | EnumSetting(name: string, displayName: string, index: int, choices: seq<string>, valueSuffix: string)

  /** What `get` hands back: a number (an enum yields its index) or a boolean. */
  datatype Value = Number(n: int) | Boolean(b: bool)

  function ValueOf(s: Setting): Value {
    match s
    case NumberSetting(_, _, v, _, _, _, _) => Number(v)
    case BooleanSetting(_, _, on, _) => Boolean(on)
    case EnumSetting(_, _, i, _, _) => Number(i)
  }

  /** Two settings that differ at most in their current value. */
  predicate SameShape(a: Setting, b: Setting) {
    match a
    case NumberSetting(n, d, _, lo, hi, inc, suf) =>
      b.NumberSetting? && b.name == n && b.displayName == d && b.min == lo && b.max == hi
      && b.increment == inc && b.valueSuffix == suf
    case BooleanSetting(n, d, _, suf) =>
      b.BooleanSetting? && b.name == n && b.displayName == d && b.valueSuffix == suf
    case EnumSetting(n, d, _, cs, suf) =>
      b.EnumSetting? && b.name == n && b.displayName == d && b.choices == cs && b.valueSuffix == suf
  }

  /** The step of a number setting: `increment ?? 1`. */
  function StepOf(s: Setting): int
    requires s.NumberSetting?
  {
    match s.increment
    case None => 1
    case Some(k) => k
  }

  /** A setting whose bounds make sense: the step is not negative, the lower bound is not
      above the upper one, and an enum has at least one choice. */
  predicate WellFormed(s: Setting) {
    match s
    case NumberSetting(_, _, _, lo, hi, _, _) =>
      StepOf(s) >= 0 && (lo.Some? && hi.Some? ==> lo.value <= hi.value)
    case BooleanSetting(_, _, _, _) => true
    case EnumSetting(_, _, _, cs, _) => |cs| > 0
  }

  /** The current value lies within the setting's bounds. */
  predicate InBounds(s: Setting) {
    match s
    case NumberSetting(_, _, v, lo, hi, _, _) =>
      (lo.Some? ==> lo.value <= v) && (hi.Some? ==> v <= hi.value)
    case BooleanSetting(_, _, _, _) => true
    case EnumSetting(_, _, i, cs, _) => 0 <= i < |cs|
  }

  const COMPLEXITY_LABELS: seq<string> :=
    ["Triads & Suspensions", "7ths", "Chord Extensions", "Altered Chords"]

  const TEMPO_DEFAULT: Setting := NumberSetting("tempo", "Tempo", 120, Some(20), None, Some(5), "")
  const TIME_SIGNATURE_DEFAULT: Setting :=
    NumberSetting("timeSignature", "Time Signature", 4, Some(1), Some(12), None, "/4")
  const BARS_PER_PHRASE_DEFAULT: Setting :=
    NumberSetting("barsPerPhrase", "Bars per Phrase", 2, Some(1), None, None, "")
  const COMPLEXITY_DEFAULT: Setting := EnumSetting("complexity", "Complexity", 3, COMPLEXITY_LABELS, "")
  const METRONOME_DEFAULT: Setting := BooleanSetting("metronome", "Metronome", true, "")
  const SIMPLIFY_DEFAULT: Setting :=
    BooleanSetting("simplifyEnharmonics", "Simplify Enharmonics (Cb→B, etc)", false, "")

  /** The initial contents of the `settings` array, in display order. */
  const DEFAULT_SETTINGS: seq<Setting> :=
    [TEMPO_DEFAULT, TIME_SIGNATURE_DEFAULT, BARS_PER_PHRASE_DEFAULT,
     COMPLEXITY_DEFAULT, METRONOME_DEFAULT, SIMPLIFY_DEFAULT]

  /** Positions of the settings in DEFAULT_SETTINGS. */
  const TEMPO: nat := 0
  const TIME_SIGNATURE: nat := 1
  const BARS_PER_PHRASE: nat := 2
  const COMPLEXITY: nat := 3
  const METRONOME: nat := 4
  const SIMPLIFY_ENHARMONICS: nat := 5

  /** A registry whose settings are the defaults with values kept in bounds: the six
      settings, in order, each with its default kind, name and bounds. */
  predicate Conforms(ss: seq<Setting>) {
    |ss| == |DEFAULT_SETTINGS|
    && forall i :: 0 <= i < |ss| ==> SameShape(DEFAULT_SETTINGS[i], ss[i]) && InBounds(ss[i])
  }

  lemma DefaultsWellFormed()
    ensures |DEFAULT_SETTINGS| == 6
    ensures forall i :: 0 <= i < |DEFAULT_SETTINGS| ==> WellFormed(DEFAULT_SETTINGS[i])
  {
    var d := DEFAULT_SETTINGS;
    assert d == [TEMPO_DEFAULT, TIME_SIGNATURE_DEFAULT, BARS_PER_PHRASE_DEFAULT,
                 COMPLEXITY_DEFAULT, METRONOME_DEFAULT, SIMPLIFY_DEFAULT];
    forall i | 0 <= i < |d| ensures WellFormed(d[i]) {
      assert i == 0 || i == 1 || i == 2 || i == 3 || i == 4 || i == 5;
    }
  }

  /** The defaults start in bounds, so they conform. */
  lemma DefaultsConform()
    ensures Conforms(DEFAULT_SETTINGS)
  {
    var d := DEFAULT_SETTINGS;
    assert d == [TEMPO_DEFAULT, TIME_SIGNATURE_DEFAULT, BARS_PER_PHRASE_DEFAULT,
                 COMPLEXITY_DEFAULT, METRONOME_DEFAULT, SIMPLIFY_DEFAULT];
    forall i | 0 <= i < |d| ensures SameShape(d[i], d[i]) && InBounds(d[i]) {
      assert i == 0 || i == 1 || i == 2 || i == 3 || i == 4 || i == 5;
    }
  }

  /** A conforming registry is made of well-formed settings. */
  lemma ConformingWellFormed(ss: seq<Setting>, i: int)
    requires Conforms(ss) && 0 <= i < |ss|
    ensures WellFormed(ss[i]) && SameShape(DEFAULT_SETTINGS[i], ss[i])
  {
    DefaultsWellFormed();
    assert WellFormed(DEFAULT_SETTINGS[i]);
  }

  // ----- get ------------------------------------------------------------------------------

  /** `settings.find(s => s.name === name)`: the position of the first setting so named. */
  function Find(ss: seq<Setting>, name: string): (r: Option<nat>)
    ensures r.Some? ==> r.value < |ss| && ss[r.value].name == name
    ensures r.Some? ==> forall j :: 0 <= j < r.value ==> ss[j].name != name
    ensures r.None? ==> forall j :: 0 <= j < |ss| ==> ss[j].name != name
  {
    if ss == [] then None
    else if ss[0].name == name then Some(0)
    else
      match Find(ss[1..], name)
      case None => None
      case Some(k) => Some(k + 1)
  }

  function NotFound(name: string): string {
    "Setting \"" + name + "\" not found!"
  }

  /** What `get(name)` returns or throws. */
  function GetResult(ss: seq<Setting>, name: string): Result<Value>
  {
    match Find(ss, name)
    case None => Failure(NotFound(name))
    case Some(i) => Success(ValueOf(ss[i]))
  }

  /** `get` throws exactly when no setting has the name, and otherwise yields the value of
      the first setting that has it. */
  lemma GetResultSpec(ss: seq<Setting>, name: string)
    ensures var r := GetResult(ss, name);
      && (r.Failure? <==> forall j :: 0 <= j < |ss| ==> ss[j].name != name)
      && (r.Failure? ==> r.error == NotFound(name))
      && (r.Success? ==> exists j :: 0 <= j < |ss| && ss[j].name == name && r.value == ValueOf(ss[j])
                                     && forall k :: 0 <= k < j ==> ss[k].name != name)
  {
  }

  /** In a conforming registry each setting is found at its own position, so `get` never
      throws for the six names and yields a value of the setting's kind. */
  lemma FindInConforming(ss: seq<Setting>, i: nat)
    requires Conforms(ss) && i < |ss|
    ensures Find(ss, DEFAULT_SETTINGS[i].name) == Some(i)
    ensures GetResult(ss, DEFAULT_SETTINGS[i].name) == Success(ValueOf(ss[i]))
  {
    var d := DEFAULT_SETTINGS;
    assert d == [TEMPO_DEFAULT, TIME_SIGNATURE_DEFAULT, BARS_PER_PHRASE_DEFAULT,
                 COMPLEXITY_DEFAULT, METRONOME_DEFAULT, SIMPLIFY_DEFAULT];
    DistinctDefaultNames();
    var r := Find(ss, d[i].name);
    forall j | 0 <= j < |ss| ensures ss[j].name == d[j].name {
      assert SameShape(d[j], ss[j]);
    }
    assert ss[i].name == d[i].name;
    assert r.Some?;
    assert r.value == i by {
      assert ss[r.value].name == d[i].name;
    }
  }

  lemma DistinctDefaultNames()
    ensures forall i, j :: 0 <= i < j < |DEFAULT_SETTINGS| ==> DEFAULT_SETTINGS[i].name != DEFAULT_SETTINGS[j].name
  {
    var d := DEFAULT_SETTINGS;
    assert d == [TEMPO_DEFAULT, TIME_SIGNATURE_DEFAULT, BARS_PER_PHRASE_DEFAULT,
                 COMPLEXITY_DEFAULT, METRONOME_DEFAULT, SIMPLIFY_DEFAULT];
    assert d[0].name[0] == 't' && d[0].name[1] == 'e';
    assert d[1].name[0] == 't' && d[1].name[1] == 'i';
    assert d[2].name[0] == 'b';
    assert d[3].name[0] == 'c';
    assert d[4].name[0] == 'm';
    assert d[5].name[0] == 's';
  }

  /** A name no setting carries makes `get` throw. */
  lemma GetUnknown(ss: seq<Setting>, name: string)
    requires forall j :: 0 <= j < |ss| ==> ss[j].name != name
    ensures GetResult(ss, name) == Failure("Setting \"" + name + "\" not found!")
  {
  }

  /** The kinds and bounds every conforming registry has. */
  lemma ConformingKinds(ss: seq<Setting>)
    requires Conforms(ss)
    ensures ss[TEMPO].NumberSetting? && ss[TEMPO].value >= 20
    ensures ss[TIME_SIGNATURE].NumberSetting? && 1 <= ss[TIME_SIGNATURE].value <= 12
    ensures ss[BARS_PER_PHRASE].NumberSetting? && ss[BARS_PER_PHRASE].value >= 1
    ensures ss[COMPLEXITY].EnumSetting? && 0 <= ss[COMPLEXITY].index < 4
    ensures ss[METRONOME].BooleanSetting? && ss[SIMPLIFY_ENHARMONICS].BooleanSetting?
  {
    var d := DEFAULT_SETTINGS;
    assert d == [TEMPO_DEFAULT, TIME_SIGNATURE_DEFAULT, BARS_PER_PHRASE_DEFAULT,
                 COMPLEXITY_DEFAULT, METRONOME_DEFAULT, SIMPLIFY_DEFAULT];
    assert SameShape(d[0], ss[0]) && InBounds(ss[0]);
    assert SameShape(d[1], ss[1]) && InBounds(ss[1]);
    assert SameShape(d[2], ss[2]) && InBounds(ss[2]);
    assert SameShape(d[3], ss[3]) && InBounds(ss[3]);
    assert SameShape(d[4], ss[4]) && SameShape(d[5], ss[5]);
  }

  /** `get('tempo')` on a conforming registry: never below 20. */
  function TempoOf(ss: seq<Setting>): (t: int)
    requires Conforms(ss)
    ensures t >= 20 && GetResult(ss, "tempo") == Success(Number(t))
  {
    ConformingKinds(ss);
    FindInConforming(ss, TEMPO);
    ss[TEMPO].value
  }

  /** `get('timeSignature')`: between 1 and 12. */
  function TimeSignatureOf(ss: seq<Setting>): (t: int)
    requires Conforms(ss)
    ensures 1 <= t <= 12 && GetResult(ss, "timeSignature") == Success(Number(t))
  {
    ConformingKinds(ss);
    FindInConforming(ss, TIME_SIGNATURE);
    ss[TIME_SIGNATURE].value
  }

  /** `get('barsPerPhrase')`: at least 1. */
  function BarsPerPhraseOf(ss: seq<Setting>): (b: int)
    requires Conforms(ss)
    ensures b >= 1 && GetResult(ss, "barsPerPhrase") == Success(Number(b))
  {
    ConformingKinds(ss);
    FindInConforming(ss, BARS_PER_PHRASE);
    ss[BARS_PER_PHRASE].value
  }

  /** `get('complexity')`: an index into the four complexity labels. */
  function ComplexityOf(ss: seq<Setting>): (c: int)
    requires Conforms(ss)
    ensures 0 <= c < 4 && GetResult(ss, "complexity") == Success(Number(c))
  {
    ConformingKinds(ss);
    FindInConforming(ss, COMPLEXITY);
    ss[COMPLEXITY].index
  }

  /** `get('metronome')`. */
  function MetronomeOf(ss: seq<Setting>): (on: bool)
    requires Conforms(ss)
    ensures GetResult(ss, "metronome") == Success(Boolean(on))
  {
    ConformingKinds(ss);
    FindInConforming(ss, METRONOME);
    ss[METRONOME].on
  }

  /** `get('simplifyEnharmonics')`. */
  function SimplifyOf(ss: seq<Setting>): (on: bool)
    requires Conforms(ss)
    ensures GetResult(ss, "simplifyEnharmonics") == Success(Boolean(on))
  {
    ConformingKinds(ss);
    FindInConforming(ss, SIMPLIFY_ENHARMONICS);
    ss[SIMPLIFY_ENHARMONICS].on
  }

  // ----- Editing one setting --------------------------------------------------------------

  datatype Direction = Increase | Decrease

  /** What the right (Increase) or left (Decrease) arrow does to the selected setting: a
      boolean toggles; a number steps and is capped at max or floored at min; an enum steps
      and wraps around its choices. */
  function Step(s: Setting, d: Direction): (r: Setting)
    ensures SameShape(s, r)
  {
    match s
    case BooleanSetting(_, _, on, _) => s.(on := !on)
    case NumberSetting(_, _, v, lo, hi, _, _) =>
      if d == Increase then
        s.(value := if hi.Some? then Min(v + StepOf(s), hi.value) else v + StepOf(s))
      else
        s.(value := if lo.Some? then Max(v - StepOf(s), lo.value) else v - StepOf(s))
    case EnumSetting(_, _, i, cs, _) =>
      if d == Increase then
        s.(index := if i + 1 > |cs| - 1 then 0 else i + 1)
      else
        s.(index := if i - 1 < 0 then |cs| - 1 else i - 1)
  }

  /** A toggle ignores the direction and undoes itself. */
  lemma ToggleEitherWay(s: Setting, d: Direction, e: Direction)
    requires s.BooleanSetting?
    ensures Step(s, d).on == !s.on
    ensures Step(s, Increase) == Step(s, Decrease)
    ensures Step(Step(s, d), e) == s
  {
  }

  /** Right never lowers a number and never passes max; left never raises it and never
      goes below min. A step that was not clamped moves the value by exactly the step, and
      one that would overshoot lands exactly on the bound. */
  lemma NumberStepBounds(s: Setting)
    requires s.NumberSetting? && WellFormed(s) && InBounds(s)
    ensures var up := Step(s, Increase).value;
      && s.value <= up <= s.value + StepOf(s)
      && (s.max.Some? ==> up <= s.max.value)
      && (s.max.None? || s.value + StepOf(s) <= s.max.value ==> up == s.value + StepOf(s))
    ensures var down := Step(s, Decrease).value;
      && s.value - StepOf(s) <= down <= s.value
      && (s.min.Some? ==> s.min.value <= down)
      && (s.min.None? || s.min.value <= s.value - StepOf(s) ==> down == s.value - StepOf(s))
    ensures s.max.Some? && s.value + StepOf(s) > s.max.value ==> Step(s, Increase).value == s.max.value
    ensures s.min.Some? && s.value - StepOf(s) < s.min.value ==> Step(s, Decrease).value == s.min.value
  {
  }

  /** Left then right gives the value back when left was not clamped (and right after
      left is the same when right was not clamped). */
  lemma NumberRoundTrip(s: Setting)
    requires s.NumberSetting? && WellFormed(s) && InBounds(s)
    ensures s.min.None? || s.min.value <= s.value - StepOf(s) ==> Step(Step(s, Decrease), Increase) == s
    ensures s.max.None? || s.value + StepOf(s) <= s.max.value ==> Step(Step(s, Increase), Decrease) == s
  {
    NumberStepBounds(s);
  }

  /** An enum in range steps around its choices modulo their number. */
  lemma EnumModular(s: Setting)
    requires s.EnumSetting? && InBounds(s)
    ensures Step(s, Increase).index == (s.index + 1) % |s.choices|
    ensures Step(s, Decrease).index == (s.index + |s.choices| - 1) % |s.choices|
    ensures Step(Step(s, Increase), Decrease) == s && Step(Step(s, Decrease), Increase) == s
  {
    WrapNext(s.index, |s.choices|);
    WrapPrevious(s.index, |s.choices|);
  }

  lemma WrapNext(i: int, n: int)
    requires 0 <= i < n
    ensures (i + 1) % n == if i + 1 > n - 1 then 0 else i + 1
  {
    if i + 1 == n {
      assert (i + 1) % n == n % n == 0;
    }
  }

  lemma WrapPrevious(i: int, n: int)
    requires 0 <= i < n
    ensures (i + n - 1) % n == if i - 1 < 0 then n - 1 else i - 1
  {
    if i > 0 {
      assert (i + n - 1) % n == ((i - 1) + n) % n == i - 1;
    }
  }

  /** Every step keeps a well-formed setting within its bounds. */
  lemma StepKeepsBounds(s: Setting, d: Direction)
    requires WellFormed(s) && InBounds(s)
    ensures InBounds(Step(s, d))
  {
  }

  /** Tempo 25 (min 20, step 5) reads 20 after one, two and three presses of left. */
  lemma TempoFloorExample()
    ensures var s0 := TEMPO_DEFAULT.(value := 25);
      var s1 := Step(s0, Decrease); var s2 := Step(s1, Decrease); var s3 := Step(s2, Decrease);
      s1.value == 20 && s2.value == 20 && s3.value == 20
  {
    var s0 := TEMPO_DEFAULT.(value := 25);
    assert StepOf(s0) == 5 && s0.min == Some(20);
    var s1 := Step(s0, Decrease);
    assert s1.value == 20;
    var s2 := Step(s1, Decrease);
    assert s2.value == 20;
  }

  /** Complexity wraps from the last choice to the first on right, and back on left. */
  lemma ComplexityWrapExample()
    ensures Step(COMPLEXITY_DEFAULT, Increase).index == 0
    ensures Step(COMPLEXITY_DEFAULT.(index := 0), Decrease).index == 3
  {
    assert |COMPLEXITY_LABELS| == 4;
  }

  // ----- The registry and its key handler -------------------------------------------------

  /** The state of a SettingsManager as a value. */
  datatype Registry = Registry(settings: seq<Setting>, selectedRow: int)

  predicate ValidRegistry(r: Registry) {
    Conforms(r.settings) && 0 <= r.selectedRow < |r.settings|
  }

  datatype KeyOutcome = KeyOutcome(handled: bool, registry: Registry)

  /** `handleKeyboardInput(key)`: what it returns and the state it leaves. Up and down move
      the cursor with wraparound, right and left step the selected setting, and any other
      key is left for the app. */
  function ApplyKey(r: Registry, key: string): (o: KeyOutcome)
    requires 0 <= r.selectedRow < |r.settings|
    ensures o.handled <==> IsArrowKey(key)
    ensures !o.handled ==> o.registry == r
    ensures |o.registry.settings| == |r.settings|
  {
    var n := |r.settings|;
    var row := r.selectedRow;
    if key == KeyUp then
      KeyOutcome(true, r.(selectedRow := if row - 1 < 0 then n - 1 else row - 1))
    else if key == KeyDown then
      KeyOutcome(true, r.(selectedRow := if row + 1 > n - 1 then 0 else row + 1))
    else if key == KeyRight then
      KeyOutcome(true, r.(settings := r.settings[row := Step(r.settings[row], Increase)]))
    else if key == KeyLeft then
      KeyOutcome(true, r.(settings := r.settings[row := Step(r.settings[row], Decrease)]))
    else
      KeyOutcome(false, r)
  }

  /** Up and down move the cursor by one, modulo the number of settings, and change no
      setting; they undo each other. */
  lemma CursorKeys(r: Registry)
    requires 0 <= r.selectedRow < |r.settings|
    ensures var up := ApplyKey(r, KeyUp).registry;
      && up.settings == r.settings && 0 <= up.selectedRow < |r.settings|
      && (up.selectedRow + 1) % |r.settings| == r.selectedRow
      && ApplyKey(up, KeyDown).registry == r
    ensures var down := ApplyKey(r, KeyDown).registry;
      && down.settings == r.settings && 0 <= down.selectedRow < |r.settings|
      && down.selectedRow == (r.selectedRow + 1) % |r.settings|
      && ApplyKey(down, KeyUp).registry == r
  {
    var n := |r.settings|;
    if r.selectedRow == n - 1 {
      assert (r.selectedRow + 1) % n == 0;
    } else {
      assert (r.selectedRow + 1) % n == r.selectedRow + 1;
    }
    if r.selectedRow == 0 {
      assert (n - 1 + 1) % n == 0;
    } else {
      assert (r.selectedRow - 1 + 1) % n == r.selectedRow;
    }
  }

  /** Right and left change only the selected setting, only its value, and leave the
      cursor where it is. */
  lemma ValueKeys(r: Registry, key: string)
    requires 0 <= r.selectedRow < |r.settings|
    requires key == KeyRight || key == KeyLeft
    ensures var next := ApplyKey(r, key).registry;
      && next.selectedRow == r.selectedRow
      && SameShape(r.settings[r.selectedRow], next.settings[r.selectedRow])
      && forall i :: 0 <= i < |r.settings| && i != r.selectedRow ==> next.settings[i] == r.settings[i]
  {
    assert KeyRight != KeyUp && KeyRight != KeyDown;
    assert KeyLeft != KeyUp && KeyLeft != KeyDown && KeyLeft != KeyRight;
  }

  /** Every key keeps a valid registry valid: the cursor stays on a row and every value
      stays within its bounds. */
  lemma ApplyKeyKeepsValid(r: Registry, key: string)
    requires ValidRegistry(r)
    ensures ValidRegistry(ApplyKey(r, key).registry)
  {
    var next := ApplyKey(r, key).registry;
    var row := r.selectedRow;
    if key == KeyRight || key == KeyLeft {
      ValueKeys(r, key);
      ConformingWellFormed(r.settings, row);
      StepKeepsBounds(r.settings[row], if key == KeyRight then Increase else Decrease);
      forall i | 0 <= i < |next.settings|
        ensures SameShape(DEFAULT_SETTINGS[i], next.settings[i]) && InBounds(next.settings[i])
      {
        if i == row {
          SameShapeTransitive(DEFAULT_SETTINGS[i], r.settings[i], next.settings[i]);
        }
      }
    } else if key == KeyUp || key == KeyDown {
      CursorKeys(r);
    }
  }

  lemma SameShapeTransitive(a: Setting, b: Setting, c: Setting)
    requires SameShape(a, b) && SameShape(b, c)
    ensures SameShape(a, c)
  {
  }

  /** The registry after a sequence of key presses. */
  function ApplyKeys(r: Registry, keys: seq<string>): (o: Registry)
    requires ValidRegistry(r)
    ensures ValidRegistry(o)
    decreases |keys|
  {
    if keys == [] then r
    else
      ApplyKeyKeepsValid(r, keys[0]);
      ApplyKeys(ApplyKey(r, keys[0]).registry, keys[1..])
  }

  /** From the defaults, any sequence of key presses keeps every number within [min, max],
      every enum index within its choices, and the cursor on a row. */
  lemma {:induction false} AnyKeysKeepBounds(keys: seq<string>)
    ensures ValidRegistry(Registry(DEFAULT_SETTINGS, 0))
    ensures var r := ApplyKeys(Registry(DEFAULT_SETTINGS, 0), keys);
      forall i :: 0 <= i < |r.settings| ==> InBounds(r.settings[i])
  {
    DefaultsConform();
  }

  // ----- Display --------------------------------------------------------------------------

  /** `setting.enum[value]` inside a template literal: an index out of range reads as
      "undefined". */
  function EnumLabel(choices: seq<string>, i: int): string {
    if 0 <= i < |choices| then choices[i] else "undefined"
  }

  /** The value part of a settings line: ON/OFF for booleans, "<index> (<label>)" for enums
      ("undefined" standing in for a label out of range), the number otherwise, then the
      suffix if there is one. */
  function PrettyValue(s: Setting): string
  {
    var base :=
      match s
      case BooleanSetting(_, _, on, _) => if on then "ON" else "OFF"
      case NumberSetting(_, _, v, _, _, _, _) => IntToString(v)
      case EnumSetting(_, _, i, cs, _) =>
        IntToString(i) + " (" + EnumLabel(cs, i) + ")";
    if s.valueSuffix != "" then base + s.valueSuffix else base
  }

  /** A settings line: the display name, a colon and a space, then the value text. */
  function SettingLine(s: Setting): string {
    s.displayName + ": " + PrettyValue(s)
  }

  /** The printed value reads back: a number is `String(value)` followed by the suffix, and
      its digits read back as the value; an enum is its index's digits, then the label in
      parentheses ("undefined" for an index out of range), then the suffix. */
  lemma PrettyValueShape(s: Setting)
    ensures |s.valueSuffix| < |PrettyValue(s)|
    ensures PrettyValue(s)[|PrettyValue(s)| - |s.valueSuffix|..] == s.valueSuffix
    ensures s.BooleanSetting? ==> PrettyValue(s) == (if s.on then "ON" else "OFF") + s.valueSuffix
    ensures s.NumberSetting? && s.value >= 0 && s.valueSuffix == "" ==> JsNumber(PrettyValue(s)) == Some(s.value)
    ensures s.NumberSetting? && s.value >= 0 ==>
      JsNumber(PrettyValue(s)[..|PrettyValue(s)| - |s.valueSuffix|]) == Some(s.value)
    ensures s.EnumSetting? && 0 <= s.index ==> EnumText(s, PrettyValue(s))
  {
    NumberReadsBack(s);
    if s.NumberSetting? && s.value >= 0 {
      JsNumberOfNatToString(s.value);
    }
    if s.EnumSetting? && 0 <= s.index {
      EnumReadsBack(s);
    }
  }

  /** p is an enum's value text: digits that read back as its index, then " (", the label,
      ")" and the suffix. */
  predicate EnumText(s: Setting, p: string)
    requires s.EnumSetting? && 0 <= s.index
  {
    var tail := " (" + EnumLabel(s.choices, s.index) + ")" + s.valueSuffix;
    && |tail| < |p|
    && p[|p| - |tail|..] == tail
    && AllDigits(p[..|p| - |tail|])
    && JsNumber(p[..|p| - |tail|]) == Some(s.index)
  }

  lemma NumberReadsBack(s: Setting)
    ensures s.NumberSetting? && s.value >= 0 ==>
      JsNumber(PrettyValue(s)[..|PrettyValue(s)| - |s.valueSuffix|]) == Some(s.value)
  {
    if s.NumberSetting? && s.value >= 0 {
      var p := PrettyValue(s);
      var d := NatToString(s.value);
      assert p == d + s.valueSuffix;
      assert p[..|p| - |s.valueSuffix|] == d;
      JsNumberOfNatToString(s.value);
    }
  }

  lemma EnumReadsBack(s: Setting)
    requires s.EnumSetting? && 0 <= s.index
    ensures EnumText(s, PrettyValue(s))
  {
    var d := NatToString(s.index);
    var tail := " (" + EnumLabel(s.choices, s.index) + ")" + s.valueSuffix;
    var p := PrettyValue(s);
    assert p == d + tail;
    assert p[..|p| - |tail|] == d;
    JsNumberOfNatToString(s.index);
  }

  /** The default lines read "Time Signature: 4/4", "Complexity: 3 (Altered Chords)" and
      "Metronome: ON". */
  lemma DefaultLinesExample()
    ensures SettingLine(TIME_SIGNATURE_DEFAULT) == "Time Signature: 4/4"
    ensures SettingLine(COMPLEXITY_DEFAULT) == "Complexity: 3 (Altered Chords)"
    ensures SettingLine(METRONOME_DEFAULT) == "Metronome: ON"
  {
    TimeSignatureLine();
    ComplexityLine();
    MetronomeLine();
  }

  lemma TimeSignatureLine()
    ensures SettingLine(TIME_SIGNATURE_DEFAULT) == "Time Signature: 4/4"
  {
    assert IntToString(4) == "4";
  }

  lemma ComplexityLine()
    ensures SettingLine(COMPLEXITY_DEFAULT) == "Complexity: 3 (Altered Chords)"
  {
    assert IntToString(3) == "3";
    assert COMPLEXITY_LABELS[3] == "Altered Chords";
  }

  lemma MetronomeLine()
    ensures SettingLine(METRONOME_DEFAULT) == "Metronome: ON"
  {
  }

  /** The settings screen: two dim help lines and a blank one, then one line per setting,
      gray on the selected row, then a blank line. */
  predicate ShowsSettings(lines: seq<Span>, r: Registry) {
    && |lines| == |SETTINGS_HEADER| + |r.settings| + 1
    && lines[..|SETTINGS_HEADER|] == SETTINGS_HEADER
    && (forall i :: 0 <= i < |r.settings| ==>
         lines[|SETTINGS_HEADER| + i] == Span(if i == r.selectedRow then Gray else Plain, SettingLine(r.settings[i])))
    && lines[|lines| - 1] == Span(Plain, "")
  }

  const SETTINGS_HEADER: seq<Span> :=
    [Span(Dim, "Close Settings: [s] - Move: [↑ ↓] - Change: [← →]"),
     Span(Dim, "Press any other key to exit."),
     Span(Plain, "")]

  /** The settings object of the app. `settings` is the array whose elements are updated in
      place; `selectedRow` is the cursor. */
  class SettingsManager {
    const settings: array<Setting>
    var selectedRow: int

    function State(): Registry
      reads this, settings
    {
      Registry(settings[..], selectedRow)
    }

    predicate Valid()
      reads this, settings
    {
      ValidRegistry(State())
    }

    constructor ()
      ensures Valid() && fresh(settings)
      ensures State() == Registry(DEFAULT_SETTINGS, 0)
    {
      DefaultsConform();
      var a := new Setting[6];
      a[0], a[1], a[2] := TEMPO_DEFAULT, TIME_SIGNATURE_DEFAULT, BARS_PER_PHRASE_DEFAULT;
      a[3], a[4], a[5] := COMPLEXITY_DEFAULT, METRONOME_DEFAULT, SIMPLIFY_DEFAULT;
      settings := a;
      selectedRow := 0;
      new;
      assert settings[..] == DEFAULT_SETTINGS;
    }

    /** `get(name)`: the value of the first setting with that name, or the error thrown. */
    method Get(name: string) returns (r: Result<Value>)
      ensures r == GetResult(settings[..], name)
    {
      var i := 0;
      while i < settings.Length && settings[i].name != name
        invariant 0 <= i <= settings.Length
        invariant forall j :: 0 <= j < i ==> settings[j].name != name
      {
        i := i + 1;
      }
      if i == settings.Length {
        r := Failure("Setting \"" + name + "\" not found!");
      } else {
        assert settings[..][i].name == name;
        r := Success(ValueOf(settings[i]));
      }
    }

    /** `handleKeyboardInput(keyString)`: true when the key was one of the four arrows and
      was handled here. */
    method HandleKeyboardInput(key: string) returns (handled: bool)
      requires 0 <= selectedRow < settings.Length
      modifies this, settings
      ensures KeyOutcome(handled, State()) == ApplyKey(old(State()), key)
      ensures old(Valid()) ==> Valid()
    {
      ghost var before := State();
      ApplyKeyKeepsValidIf(before, key);
      var setting := settings[selectedRow];
      if key == KeyUp {
        selectedRow := selectedRow - 1;
        if selectedRow < 0 {
          selectedRow := settings.Length - 1;
        }
      } else if key == KeyDown {
        selectedRow := selectedRow + 1;
        if selectedRow > settings.Length - 1 {
          selectedRow := 0;
        }
      } else if key == KeyRight {
        match setting
        case BooleanSetting(_, _, on, _) =>
          settings[selectedRow] := setting.(on := !on);
        case NumberSetting(_, _, v, _, hi, inc, _) =>
          var step := if inc.Some? then inc.value else 1;
          var next := if hi.Some? then Min(v + step, hi.value) else v + step;
          settings[selectedRow] := setting.(value := next);
        case EnumSetting(_, _, i, cs, _) =>
          var next := i + 1;
          if next > |cs| - 1 {
            next := 0;
          }
          settings[selectedRow] := setting.(index := next);
      } else if key == KeyLeft {
        match setting
        case BooleanSetting(_, _, on, _) =>
          settings[selectedRow] := setting.(on := !on);
        case NumberSetting(_, _, v, lo, _, inc, _) =>
          var step := if inc.Some? then inc.value else 1;
          var next := if lo.Some? then Max(v - step, lo.value) else v - step;
          settings[selectedRow] := setting.(value := next);
        case EnumSetting(_, _, i, cs, _) =>
          var next := i - 1;
          if next < 0 {
            next := |cs| - 1;
          }
          settings[selectedRow] := setting.(index := next);
      } else {
        return false;
      }
      handled := true;
    }

    /** The lines `drawInterface` prints. */
    method DrawInterface() returns (lines: seq<Span>)
      ensures ShowsSettings(lines, State())
    {
      var rows := [];
      var i := 0;
      while i < settings.Length
        invariant 0 <= i <= settings.Length
        invariant |rows| == i
        invariant forall j :: 0 <= j < i ==>
          rows[j] == Span(if j == selectedRow then Gray else Plain, SettingLine(settings[j]))
      {
        rows := rows + [Span(if i == selectedRow then Gray else Plain, SettingLine(settings[i]))];
        i := i + 1;
      }
      assert RowsShow(rows, State());
      lines := SETTINGS_HEADER + rows + [Span(Plain, "")];
      FramedRows(rows, State());
    }
  }

  /** One line per setting, the selected one gray. */
  predicate RowsShow(rows: seq<Span>, r: Registry) {
    && |rows| == |r.settings|
    && forall i :: 0 <= i < |r.settings| ==>
         rows[i] == Span(if i == r.selectedRow then Gray else Plain, SettingLine(r.settings[i]))
  }

  /** The header, the setting lines and a blank line make the settings screen. */
  lemma FramedRows(rows: seq<Span>, r: Registry)
    requires RowsShow(rows, r)
    ensures ShowsSettings(SETTINGS_HEADER + rows + [Span(Plain, "")], r)
  {
    var lines := SETTINGS_HEADER + rows + [Span(Plain, "")];
    assert forall i :: 0 <= i < |r.settings| ==> lines[|SETTINGS_HEADER| + i] == rows[i];
  }

  lemma ApplyKeyKeepsValidIf(r: Registry, key: string)
    requires 0 <= r.selectedRow < |r.settings|
    ensures ValidRegistry(r) ==> ValidRegistry(ApplyKey(r, key).registry)
  {
    if ValidRegistry(r) {
      ApplyKeyKeepsValid(r, key);
    }
  }
}
