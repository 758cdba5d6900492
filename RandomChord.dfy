/** The random chord generator. `Math.random()` is replaced by values the caller supplies,
    each in [0, 1) as `Math.random` guarantees: one pair per attempt of the tonic loop, and
    one value for each of the two quality picks. A finite list of tonic draws stands for
    the loop's unbounded retries (running out of draws yields None). */
module RandomChord {
  import opened Text
  import opened TheoryConstants

  /** What `Math.random()` can return. */
  predicate IsRandom(r: real) { 0.0 <= r < 1.0 }

  /** `Math.floor(r * n)`: the index `pickRandom` uses. */
  function PickIndex(n: nat, r: real): (i: nat)
    requires n > 0 && IsRandom(r)
    ensures i < n
    ensures i as real <= r * n as real < (i + 1) as real
  {
    ScaledBelow(r, n as real);
    (r * n as real).Floor
  }

  lemma ScaledBelow(r: real, n: real)
    requires 0.0 <= r < 1.0 && n > 0.0
    ensures 0.0 <= r * n < n
  {
    assert (1.0 - r) * n > 0.0;
  }

  /** `pickRandom(arr)`: an element of arr. */
  function PickRandom<T>(arr: seq<T>, r: real): (x: T)
    requires |arr| > 0 && IsRandom(r)
    ensures x in arr
  {
    arr[PickIndex(|arr|, r)]
  }

  /** Every index can be drawn: the value i/n picks index i. */
  lemma PickIndexReaches(n: nat, i: nat)
    requires i < n
    ensures IsRandom(i as real / n as real)
    ensures PickIndex(n, i as real / n as real) == i
  {
    var r := i as real / n as real;
    assert r * n as real == i as real;
  }

  /** The two values one attempt of the tonic loop draws. */
  datatype TonicDraw = TonicDraw(key: real, accidental: real)

  predicate ValidDraws(draws: seq<TonicDraw>) {
    forall i :: 0 <= i < |draws| ==> IsRandom(draws[i].key) && IsRandom(draws[i].accidental)
  }

  predicate IsTonicSpelling(t: string) {
    exists k, a :: 0 <= k < |KEYS| && 0 <= a < |ACCIDENTALS| && t == KEYS[k] + ACCIDENTALS[a]
  }

  /** One attempt: `${pickRandom(KEYS)}${pickRandom(ACCIDENTALS)}`. */
  function Tonic(d: TonicDraw): string
    requires IsRandom(d.key) && IsRandom(d.accidental)
  {
    PickRandom(KEYS, d.key) + PickRandom(ACCIDENTALS, d.accidental)
  }

  /** Every tonic drawn is a key letter followed by an accidental. */
  lemma TonicSpelling(d: TonicDraw)
    requires IsRandom(d.key) && IsRandom(d.accidental)
    ensures IsTonicSpelling(Tonic(d))
  {
    var k := PickIndex(|KEYS|, d.key);
    var a := PickIndex(|ACCIDENTALS|, d.accidental);
    assert Tonic(d) == KEYS[k] + ACCIDENTALS[a];
  }

  /** The loop condition: retry while simplifying and the tonic is an enharmonic one. */
  predicate Rejected(simplifyEnharmonics: bool, tonic: string) {
    simplifyEnharmonics && tonic in ENHARMONIC
  }

  /** The attempt the do-while loop stops at: the first draw it does not reject. */
  function FirstAccepted(simplifyEnharmonics: bool, draws: seq<TonicDraw>): (r: Option<nat>)
    requires ValidDraws(draws)
    ensures r.Some? ==> r.value < |draws|
  {
    if draws == [] then None
    else if !Rejected(simplifyEnharmonics, Tonic(draws[0])) then Some(0)
    else
      var rest := draws[1..];
      assert ValidDraws(rest) by {
        forall i | 0 <= i < |rest| ensures IsRandom(rest[i].key) && IsRandom(rest[i].accidental) {
          assert rest[i] == draws[i + 1];
        }
      }
      match FirstAccepted(simplifyEnharmonics, rest)
      case None => None
      case Some(k) => Some(k + 1)
  }

  /** The accepted draw is not rejected and every draw before it is; with no accepted
      draw, every draw is rejected. */
  lemma {:induction false} FirstAcceptedSpec(simplifyEnharmonics: bool, draws: seq<TonicDraw>)
    requires ValidDraws(draws)
    ensures var r := FirstAccepted(simplifyEnharmonics, draws);
      && (r.Some? ==> !Rejected(simplifyEnharmonics, Tonic(draws[r.value])))
      && (r.Some? ==> forall j :: 0 <= j < r.value ==> Rejected(simplifyEnharmonics, Tonic(draws[j])))
      && (r.None? ==> forall j :: 0 <= j < |draws| ==> Rejected(simplifyEnharmonics, Tonic(draws[j])))
  {
    if draws != [] && Rejected(simplifyEnharmonics, Tonic(draws[0])) {
      var rest := draws[1..];
      assert forall i :: 0 <= i < |rest| ==> rest[i] == draws[i + 1];
      FirstAcceptedSpec(simplifyEnharmonics, rest);
    }
  }

  /** Without simplification the first attempt is always accepted. */
  lemma FirstAttemptWithoutSimplify(draws: seq<TonicDraw>)
    requires ValidDraws(draws) && draws != []
    ensures FirstAccepted(false, draws) == Some(0)
  {
  }

  /** The tonic loop of `getRandomChord`: draw a tonic, and draw again while it is rejected.
      `attempts` is the number of times the loop body ran. */
  method PickTonic(simplifyEnharmonics: bool, draws: seq<TonicDraw>) returns (tonic: Option<string>, attempts: nat)
    requires ValidDraws(draws)
    ensures tonic == match FirstAccepted(simplifyEnharmonics, draws)
                     case None => None
                     case Some(i) => Some(Tonic(draws[i]))
    ensures attempts == match FirstAccepted(simplifyEnharmonics, draws)
                        case None => |draws|
                        case Some(i) => i + 1
    ensures tonic.Some? ==> IsTonicSpelling(tonic.value)
    ensures simplifyEnharmonics && tonic.Some? ==> tonic.value !in ENHARMONIC
    ensures !simplifyEnharmonics && draws != [] ==> tonic.Some? && attempts == 1
  {
    FirstAcceptedSpec(simplifyEnharmonics, draws);
    var first := FirstAccepted(simplifyEnharmonics, draws);
    if first.Some? {
      TonicSpelling(draws[first.value]);
    }
    if draws == [] {
      return None, 0;
    }
    var t := Tonic(draws[0]);
    attempts := 1;
    while Rejected(simplifyEnharmonics, t) && attempts < |draws|
      invariant 1 <= attempts <= |draws|
      invariant t == Tonic(draws[attempts - 1])
      invariant forall j :: 0 <= j < attempts - 1 ==> Rejected(simplifyEnharmonics, Tonic(draws[j]))
      decreases |draws| - attempts
    {
      t := Tonic(draws[attempts]);
      attempts := attempts + 1;
    }
    if Rejected(simplifyEnharmonics, t) {
      AllRejected(simplifyEnharmonics, draws);
      tonic := None;
    } else {
      AcceptedAt(simplifyEnharmonics, draws, attempts - 1);
      tonic := Some(t);
    }
  }

  /** FirstAccepted finds the first draw that is not rejected ... */
  lemma {:induction false} AcceptedAt(simplifyEnharmonics: bool, draws: seq<TonicDraw>, i: nat)
    requires ValidDraws(draws) && i < |draws|
    requires !Rejected(simplifyEnharmonics, Tonic(draws[i]))
    requires forall j :: 0 <= j < i ==> Rejected(simplifyEnharmonics, Tonic(draws[j]))
    ensures FirstAccepted(simplifyEnharmonics, draws) == Some(i)
  {
    if i > 0 {
      assert Rejected(simplifyEnharmonics, Tonic(draws[0]));
      forall j | 0 <= j < i - 1 ensures Rejected(simplifyEnharmonics, Tonic(draws[1..][j])) {
        assert draws[1..][j] == draws[j + 1];
      }
      AcceptedAt(simplifyEnharmonics, draws[1..], i - 1);
    }
  }

  /** ... and yields None exactly when every draw is rejected. */
  lemma {:induction false} AllRejected(simplifyEnharmonics: bool, draws: seq<TonicDraw>)
    requires ValidDraws(draws)
    requires forall j :: 0 <= j < |draws| ==> Rejected(simplifyEnharmonics, Tonic(draws[j]))
    ensures FirstAccepted(simplifyEnharmonics, draws) == None
  {
    if draws != [] {
      assert Rejected(simplifyEnharmonics, Tonic(draws[0]));
      forall j | 0 <= j < |draws| - 1 ensures Rejected(simplifyEnharmonics, Tonic(draws[1..][j])) {
        assert draws[1..][j] == draws[j + 1];
      }
      AllRejected(simplifyEnharmonics, draws[1..]);
    }
  }

  /** `pickRandom(pickRandom(QUALITIES))`: a complexity group, then one chord of it. The
      result is the chord's whole list of spellings, not one spelling. */
  function QualitySpellings(group: real, chord: real): (q: seq<string>)
    requires IsRandom(group) && IsRandom(chord)
    ensures exists g, c :: 0 <= g < |QUALITIES| && 0 <= c < |QUALITIES[g]| && q == Spellings(QUALITIES[g][c])
  {
    QualitiesShape();
    var g := PickIndex(|QUALITIES|, group);
    var c := PickIndex(|QUALITIES[g]|, chord);
    assert PickRandom(PickRandom(QUALITIES, group), chord) == QUALITIES[g][c];
    Spellings(PickRandom(PickRandom(QUALITIES, group), chord))
  }

  /** The chord `getRandomChord` returns for the given draws: the accepted tonic followed
      by the chosen spelling list as template interpolation writes it, joined by commas. */
  function RandomChordOf(simplifyEnharmonics: bool, draws: seq<TonicDraw>, group: real, chord: real): (r: Option<string>)
    requires ValidDraws(draws) && IsRandom(group) && IsRandom(chord)
    ensures r.None? <==> forall j :: 0 <= j < |draws| ==> Rejected(simplifyEnharmonics, Tonic(draws[j]))
    ensures r.Some? ==> exists i :: 0 <= i < |draws| && !Rejected(simplifyEnharmonics, Tonic(draws[i]))
                         && r.value == Tonic(draws[i]) + Join(QualitySpellings(group, chord), ",")
  {
    FirstAcceptedSpec(simplifyEnharmonics, draws);
    match FirstAccepted(simplifyEnharmonics, draws)
    case None => None
    case Some(i) => Some(Tonic(draws[i]) + Join(QualitySpellings(group, chord), ","))
  }

  /** `getRandomChord(simplifyEnharmonics)`. It takes no complexity argument: any group of
      QUALITIES can be drawn whatever complexity the caller has in mind. */
  method GetRandomChord(simplifyEnharmonics: bool, draws: seq<TonicDraw>, group: real, chord: real)
    returns (r: Option<string>)
    requires ValidDraws(draws) && IsRandom(group) && IsRandom(chord)
    ensures r == RandomChordOf(simplifyEnharmonics, draws, group, chord)
    ensures r.Some? ==> exists t, g, c :: IsTonicSpelling(t) && !Rejected(simplifyEnharmonics, t)
                          && 0 <= g < |QUALITIES| && 0 <= c < |QUALITIES[g]|
                          && r.value == t + Join(Spellings(QUALITIES[g][c]), ",")
    ensures !simplifyEnharmonics && draws != [] ==> r.Some?
  {
    var tonic, _ := PickTonic(simplifyEnharmonics, draws);
    if tonic.None? {
      return None;
    }
    var quality := QualitySpellings(group, chord);
    r := Some(tonic.value + Join(quality, ","));
    ghost var g, c :| 0 <= g < |QUALITIES| && 0 <= c < |QUALITIES[g]| && quality == Spellings(QUALITIES[g][c]);
    assert IsTonicSpelling(tonic.value) && !Rejected(simplifyEnharmonics, tonic.value);
    assert r.value == tonic.value + Join(Spellings(QUALITIES[g][c]), ",");
  }

  /** Any chord of any group is reachable, so the complexity setting places no limit on
      what is generated. */
  lemma AnyQualityReachable(g: nat, c: nat)
    requires g < |QUALITIES| && c < |QUALITIES[g]|
    ensures IsRandom(g as real / |QUALITIES| as real) && IsRandom(c as real / |QUALITIES[g]| as real)
    ensures QualitySpellings(g as real / |QUALITIES| as real, c as real / |QUALITIES[g]| as real) == Spellings(QUALITIES[g][c])
  {
    PickIndexReaches(|QUALITIES|, g);
    PickIndexReaches(|QUALITIES[g]|, c);
  }

  /** A concrete call: tonic C, then the first chord of the first group, whose spellings
      "", "Maj" and "M" are joined into "C,Maj,M". */
  lemma CommaJoinedExample(draws: seq<TonicDraw>, group: real, chord: real)
    requires |draws| == 1 && draws[0].key == 2.0 / 7.0 && draws[0].accidental == 0.0
    requires group == 0.0 && chord == 0.0
    ensures ValidDraws(draws) && IsRandom(group) && IsRandom(chord)
    ensures RandomChordOf(false, draws, group, chord) == Some("C,Maj,M")
  {
    TonicC(draws[0]);
    FirstAttemptWithoutSimplify(draws);
    var t := Tonic(draws[0]);
    var q := QualitySpellings(group, chord);
    assert RandomChordOf(false, draws, group, chord) == Some(t + Join(q, ","));
    FirstMajorTriad(group, chord);
    JoinMajorTriad();
    assert t + Join(q, ",") == "C" + ",Maj,M";
    PrefixC();
  }

  /** Tonic C# and the second chord of the first group, the minor triad, whose spellings
      "min", "m" and "-" are joined into "C#min,m,-". */
  lemma MinorChordExample(draws: seq<TonicDraw>, group: real, chord: real)
    requires |draws| == 1 && draws[0].key == 2.0 / 7.0 && draws[0].accidental == 2.0 / 3.0
    requires group == 0.0 && chord == 0.1
    ensures ValidDraws(draws) && IsRandom(group) && IsRandom(chord)
    ensures RandomChordOf(false, draws, group, chord) == Some("C#min,m,-")
  {
    TonicCSharp(draws[0]);
    FirstAttemptWithoutSimplify(draws);
    var t := Tonic(draws[0]);
    var q := QualitySpellings(group, chord);
    assert RandomChordOf(false, draws, group, chord) == Some(t + Join(q, ","));
    MinorTriad(group, chord);
    JoinMinorTriad();
    assert t + Join(q, ",") == "C#" + "min,m,-";
    PrefixCSharp();
  }

  lemma PrefixCSharp()
    ensures "C#" + "min,m,-" == "C#min,m,-"
  {
  }

  lemma JoinMinorTriad()
    ensures Join(["min", "m", "-"], ",") == "min,m,-"
  {
    var xs: seq<string> := ["min", "m", "-"];
    assert xs[1..] == ["m", "-"] && xs[1..][1..] == ["-"];
    assert Join(["-"], ",") == "-";
    assert Join(["m", "-"], ",") == "m" + "," + "-";
    assert Join(xs, ",") == "min" + "," + ("m" + "," + "-");
  }

  lemma TonicCSharp(d: TonicDraw)
    requires d.key == 2.0 / 7.0 && d.accidental == 2.0 / 3.0
    ensures IsRandom(d.key) && IsRandom(d.accidental) && Tonic(d) == "C#"
  {
    PickIndexReaches(7, 2);
    PickIndexReaches(3, 2);
  }

  lemma MinorTriad(group: real, chord: real)
    requires group == 0.0 && chord == 0.1
    ensures IsRandom(group) && IsRandom(chord)
    ensures QualitySpellings(group, chord) == ["min", "m", "-"]
  {
    QualitiesShape();
    assert PickIndex(|QUALITIES|, group) == 0;
    FirstGroupSecondChord();
    PickIndexReaches(10, 1);
    assert PickIndex(|QUALITIES[0]|, chord) == 1;
  }

  lemma FirstGroupSecondChord()
    ensures |QUALITIES[0]| == 10
    ensures Spellings(QUALITIES[0][1]) == ["min", "m", "-"]
  {
    var t := TRIADS_AND_SUSPENSIONS;
    assert |t| == 10;
    assert t[1] == Aliased("min");
    AliasExamples();
  }

  lemma PrefixC()
    ensures "C" + ",Maj,M" == "C,Maj,M"
  {
  }

  lemma JoinMajorTriad()
    ensures Join(["", "Maj", "M"], ",") == ",Maj,M"
  {
    var xs: seq<string> := ["", "Maj", "M"];
    assert xs[1..] == ["Maj", "M"] && xs[1..][1..] == ["M"];
    assert Join(["M"], ",") == "M";
    assert Join(["Maj", "M"], ",") == "Maj" + "," + "M";
    assert Join(xs, ",") == "" + "," + ("Maj" + "," + "M");
  }

  lemma TonicC(d: TonicDraw)
    requires d.key == 2.0 / 7.0 && d.accidental == 0.0
    ensures IsRandom(d.key) && IsRandom(d.accidental) && Tonic(d) == "C"
  {
    PickIndexReaches(7, 2);
    assert PickIndex(|ACCIDENTALS|, 0.0) == 0;
  }

  lemma FirstMajorTriad(group: real, chord: real)
    requires group == 0.0 && chord == 0.0
    ensures IsRandom(group) && IsRandom(chord)
    ensures QualitySpellings(group, chord) == ["", "Maj", "M"]
  {
    QualitiesShape();
    assert PickIndex(|QUALITIES|, group) == 0;
    FirstGroupFirstChord();
    assert PickIndex(|QUALITIES[0]|, chord) == 0;
  }

  lemma FirstGroupFirstChord()
    ensures Spellings(QUALITIES[0][0]) == ["", "Maj", "M"]
  {
    var t := TRIADS_AND_SUSPENSIONS;
    assert t[0] == Listed(["", "Maj", "M"]);
  }
}
