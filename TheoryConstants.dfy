/** The music-theory tables chords are drawn from: letter names, accidentals, the tonic
    spellings that have a simpler enharmonic name, and the chord qualities grouped by
    complexity, with the `alias` helper that spells a "Maj"/"min" quality three ways. */
module TheoryConstants {
  import opened Text

  /** All possible keys. */
  const KEYS: seq<string> := ["A", "B", "C", "D", "E", "F", "G"]

  /** The accidentals a tonic may carry; the first is "no accidental". */
  const ACCIDENTALS: seq<string> := ["", "b", "#"]

  /** The tonics left out when enharmonic simplification is on. */
  const ENHARMONIC: seq<string> := ["Cb", "B#", "Fb", "E#"]

  /** The basic aliases of a quality written with "Maj" or "min": itself, the short
      spelling ("m", "M") and the symbolic one ("-", "Δ"). Each `replace` changes only
      the first occurrence of its pattern. */
  function Alias(orig: string): (r: seq<string>)
    ensures |r| == 3 && r[0] == orig
  {
    [ orig,
      ReplaceFirst(ReplaceFirst(orig, "min", "m"), "Maj", "M"),
      ReplaceFirst(ReplaceFirst(orig, "min", "-"), "Maj", "Δ") ]
  }

  predicate Contains(s: string, pat: string) {
    exists j :: 0 <= j <= |s| && OccursAt(s, pat, j)
  }

  /** A quality with neither "min" nor "Maj" in it gets three identical spellings. */
  lemma AliasWithoutPatterns(orig: string)
    requires !Contains(orig, "min") && !Contains(orig, "Maj")
    ensures Alias(orig) == [orig, orig, orig]
  {
    ReplaceFirstAbsent(orig, "min", "m");
    ReplaceFirstAbsent(orig, "min", "-");
    ReplaceFirstAbsent(orig, "Maj", "M");
    ReplaceFirstAbsent(orig, "Maj", "Δ");
  }

  /** When the first "min" sits at position i and no "Maj" follows the replacement, the
      short and symbolic spellings differ from orig only there. */
  lemma AliasOfMinor(orig: string, i: nat)
    requires OccursAt(orig, "min", i)
    requires forall j :: 0 <= j < i ==> !OccursAt(orig, "min", j)
    requires !Contains(orig[..i] + "m" + orig[i + 3..], "Maj")
    requires !Contains(orig[..i] + "-" + orig[i + 3..], "Maj")
    ensures Alias(orig)[1] == orig[..i] + "m" + orig[i + 3..]
    ensures Alias(orig)[2] == orig[..i] + "-" + orig[i + 3..]
  {
    ReplaceFirstAt(orig, "min", "m", i);
    ReplaceFirstAt(orig, "min", "-", i);
    ReplaceFirstAbsent(orig[..i] + "m" + orig[i + 3..], "Maj", "M");
    ReplaceFirstAbsent(orig[..i] + "-" + orig[i + 3..], "Maj", "Δ");
  }

  /** When the first "Maj" sits at position i and there is no "min" at all, the short and
      symbolic spellings differ from orig only there. */
  lemma AliasOfMajor(orig: string, i: nat)
    requires OccursAt(orig, "Maj", i)
    requires forall j :: 0 <= j < i ==> !OccursAt(orig, "Maj", j)
    requires !Contains(orig, "min")
    ensures Alias(orig)[1] == orig[..i] + "M" + orig[i + 3..]
    ensures Alias(orig)[2] == orig[..i] + "Δ" + orig[i + 3..]
  {
    ReplaceFirstAbsent(orig, "min", "m");
    ReplaceFirstAbsent(orig, "min", "-");
    ReplaceFirstAt(orig, "Maj", "M", i);
    ReplaceFirstAt(orig, "Maj", "Δ", i);
  }

  lemma AliasExamples()
    ensures Alias("Maj7") == ["Maj7", "M7", "Δ7"]
    ensures Alias("min") == ["min", "m", "-"]
  {
    ShorterThanPattern("7", "min", "m");
    ShorterThanPattern("7", "min", "-");
    assert ReplaceFirst("j7", "min", "m") == "j7";
    assert ReplaceFirst("j7", "min", "-") == "j7";
    assert "aj7"[..3][0] == 'a' != "min"[0];
    assert ReplaceFirst("aj7", "min", "m") == "aj7";
    assert ReplaceFirst("aj7", "min", "-") == "aj7";
    assert "Maj7"[..3][1] == 'a' != "min"[1];
    assert ReplaceFirst("Maj7", "min", "m") == "Maj7";
    assert ReplaceFirst("Maj7", "min", "-") == "Maj7";
    assert OccursAt("Maj7", "Maj", 0);
    ReplaceFirstAt("Maj7", "Maj", "M", 0);
    ReplaceFirstAt("Maj7", "Maj", "Δ", 0);
    assert "Maj7"[..0] + "M" + "Maj7"[3..] == "M7";
    assert "Maj7"[..0] + "Δ" + "Maj7"[3..] == "Δ7";
    ReplaceFirstAt("min", "min", "m", 0);
    ReplaceFirstAt("min", "min", "-", 0);
    ReplaceFirstAbsent("m", "Maj", "M");
    ReplaceFirstAbsent("-", "Maj", "Δ");
  }

  /** One chord of the quality table as the source writes it: a literal list of spellings,
      the three spellings `alias` makes of one quality, or a literal list followed by
      such a triple. */
  datatype Chord =
    | Listed(spellings: seq<string>)
    | Aliased(orig: string)
    | ListedThenAliased(spellings: seq<string>, orig: string)

  /** The chord's spellings as the table holds them once `alias` has run. */
  function Spellings(c: Chord): (r: seq<string>)
    ensures c.Listed? ==> r == c.spellings
    ensures c.Aliased? ==> |r| == 3 && r[0] == c.orig
    ensures c.ListedThenAliased? ==> |r| == |c.spellings| + 3 && r[..|c.spellings|] == c.spellings
                                     && r[|c.spellings|] == c.orig
  {
    match c
    case Listed(s) => s
    case Aliased(o) => Alias(o)
    case ListedThenAliased(s, o) => s + Alias(o)
  }

  /** Complexity 1: triads and suspensions. */
  const TRIADS_AND_SUSPENSIONS: seq<Chord> :=
    [ Listed(["", "Maj", "M"]), Aliased("min"), Listed(["dim", "°"]), Listed(["aug", "+"]),
      Listed(["sus2"]), Listed(["sus4"]), Listed(["6"]),
      Listed(["-sus2"]), Listed(["-sus4"]), Aliased("min6") ]

  /** Complexity 2: 7ths. */
  const SEVENTHS: seq<Chord> :=
    [ Listed(["7"]), Aliased("Maj7"), Aliased("min7"), Listed(["dim7", "°7"]),
      ListedThenAliased(["ø7", "m7b5"], "min7 (b5)") ]

  /** Complexity 3: chord extensions (9ths, 11ths, 13ths). */
  const EXTENSIONS: seq<Chord> :=
    [ Listed(["9"]), Aliased("Maj9"), Aliased("min9"),
      Listed(["11"]), Aliased("Maj11"), Aliased("min11"),
      Listed(["13"]), Aliased("Maj13"), Aliased("min13") ]

  /** Complexity 4: altered chords. */
  const ALTERED: seq<Chord> :=
    [ Listed(["7 (b9)"]), Listed(["7 (#9)"]), Aliased("Maj7 (b9)"), Aliased("Maj7 (#9)"), Aliased("min7 (b9)"),
      Listed(["7#11", "7 (#11)"]), Aliased("Maj7 (#11)"), Aliased("min7 (#11)"),
      Listed(["7b13", "7 (b13)"]), Aliased("Maj7 (b13)"), Aliased("min7 (b13)") ]

  /** The chord qualities, by complexity group, then by chord. */
  const QUALITIES: seq<seq<Chord>> :=
    [TRIADS_AND_SUSPENSIONS, SEVENTHS, EXTENSIONS, ALTERED]

  /** A group with at least one chord, and no chord without a spelling. */
  predicate EverySpelt(group: seq<Chord>) {
    |group| > 0 && forall a :: 0 <= a < |group| ==> Spellings(group[a]) != []
  }

  /** Four complexity groups, none empty, and every chord has at least one spelling, so a
      random pick at each level is always defined. */
  lemma QualitiesShape()
    ensures |QUALITIES| == 4
    ensures forall g :: 0 <= g < |QUALITIES| ==> EverySpelt(QUALITIES[g])
  {
    var q := QUALITIES;
    assert q == [TRIADS_AND_SUSPENSIONS, SEVENTHS, EXTENSIONS, ALTERED];
    TriadsSpelt();
    SeventhsSpelt();
    ExtensionsSpelt();
    AlteredSpelt();
    forall g | 0 <= g < |q| ensures EverySpelt(q[g]) {
      assert g == 0 || g == 1 || g == 2 || g == 3;
    }
  }

  lemma TriadsSpelt() ensures EverySpelt(TRIADS_AND_SUSPENSIONS) {
    var q := TRIADS_AND_SUSPENSIONS;
    assert |q| == 10;
  }

  lemma SeventhsSpelt() ensures EverySpelt(SEVENTHS) {
    var q := SEVENTHS;
    assert |q| == 5;
  }

  lemma ExtensionsSpelt() ensures EverySpelt(EXTENSIONS) {
    var q := EXTENSIONS;
    assert |q| == 9;
  }

  lemma AlteredSpelt() ensures EverySpelt(ALTERED) {
    var q := ALTERED;
    assert |q| == 11;
  }

  /** Every enharmonic spelling is a letter of KEYS followed by an accidental other than
      the empty one. */
  lemma EnharmonicsAreAccidentalTonics()
    ensures forall e :: e in ENHARMONIC ==>
      exists k, a :: 0 <= k < |KEYS| && 1 <= a < |ACCIDENTALS| && e == KEYS[k] + ACCIDENTALS[a]
  {
    assert ENHARMONIC[0] == KEYS[2] + ACCIDENTALS[1];
    assert ENHARMONIC[1] == KEYS[1] + ACCIDENTALS[2];
    assert ENHARMONIC[2] == KEYS[5] + ACCIDENTALS[1];
    assert ENHARMONIC[3] == KEYS[4] + ACCIDENTALS[2];
  }
}
