/** The JavaScript built-ins and terminal conventions the metronome relies on, stated on
    Dafny values: `String.prototype.repeat`, `String(n)`, `Number(s)` on a key string,
    `String.prototype.replace` with a string pattern, `Array.prototype.join`, the
    truncating `%` operator, `String.prototype.substring` clamping, the arrow-key escape
    sequences delivered by a raw-mode terminal, and styled text in place of ANSI colours. */
module Text {

  datatype Option<T> = None | Some(value: T)

  /** A computation that either yields a value or throws the JavaScript error named. */
  datatype Result<T> = Success(value: T) | Failure(error: string)

  // ----- Arrow keys as a raw-mode terminal delivers them ----------------------------------

  const KeyUp: string := "\U{1B}[A"
  const KeyDown: string := "\U{1B}[B"
  const KeyRight: string := "\U{1B}[C"
  const KeyLeft: string := "\U{1B}[D"

  predicate IsArrowKey(key: string) {
    key == KeyUp || key == KeyDown || key == KeyRight || key == KeyLeft
  }

  // ----- Arithmetic ----------------------------------------------------------------------

  function Min(a: int, b: int): int { if a <= b then a else b }
  function Max(a: int, b: int): int { if a >= b then a else b }

  /** Clamps k into [lo, hi], as `substring` does with its index arguments. */
  function Clamp(k: int, lo: int, hi: int): (r: int)
    requires lo <= hi
    ensures lo <= r <= hi
    ensures lo <= k <= hi ==> r == k
    ensures k < lo ==> r == lo
    ensures hi < k ==> r == hi
  {
    if k < lo then lo else if hi < k then hi else k
  }

  function Abs(a: int): nat { if a < 0 then -a else a }

  /** A remainder below the divisor survives adding multiples of it. */
  lemma MultiplePlus(q: int, n: int, r: int)
    requires 0 <= r < n
    ensures (q * n + r) % n == r
  {
    var m := q * n + r;
    var a, b := m / n, m % n;
    assert a * n + b == m;
    assert (a - q) * n == r - b;
    if a - q >= 1 {
      AtLeastOnce(a - q, n);
    } else if a - q <= -1 {
      AtLeastOnce(q - a, n);
    }
  }

  lemma AtLeastOnce(k: int, n: int)
    requires k >= 1 && n > 0
    ensures k * n >= n
  {
  }

  /** JavaScript's `a % b` on integers: the remainder of division truncated toward zero,
      which has the sign of the dividend (Dafny's own `%` is Euclidean). */
  function JsRem(a: int, b: int): (r: int)
    requires b != 0
    ensures Abs(r) < Abs(b)
    ensures (a - r) % Abs(b) == 0
    ensures a >= 0 ==> r == a % Abs(b)
    ensures a >= 0 ==> r >= 0
    ensures a <= 0 ==> r <= 0
  {
    var m := Abs(b);
    WholeQuotient(if a >= 0 then a else -a, m);
    if a >= 0 then a % m else -((-a) % m)
  }

  /** What is left of a non-negative dividend once its remainder is taken off is a whole
      number of divisors, whichever way its sign is read. */
  lemma WholeQuotient(c: nat, m: int)
    requires m > 0
    ensures (c - c % m) % m == 0
    ensures (c % m - c) % m == 0
  {
    var q := c / m;
    assert c - c % m == q * m;
    MultiplePlus(q, m, 0);
    assert c % m - c == (-q) * m;
    MultiplePlus(-q, m, 0);
  }

  /** Stepping back one whole period leaves the remainder as it was. */
  lemma ShiftMod(i: int, n: int)
    requires n > 0
    ensures (i - n) % n == i % n
  {
    var q, r := (i - n) / n, (i - n) % n;
    assert i == (q + 1) * n + r;
    MultiplePlus(q + 1, n, r);
  }

  // ----- String.prototype.repeat ---------------------------------------------------------

  /** s written n times over. */
  function Repeat(s: string, n: nat): (r: string)
    ensures |r| == n * |s|
    ensures forall c :: c in r ==> c in s
  {
    if n == 0 then "" else s + Repeat(s, n - 1)
  }

  /** The result of `Repeat` has period |s|: each of its cells is the cell of s at the
      same offset. */
  lemma {:induction false} RepeatAt(s: string, n: nat, i: int)
    requires 0 <= i < |Repeat(s, n)|
    ensures |s| > 0 && Repeat(s, n)[i] == s[i % |s|]
    decreases n
  {
    var t := Repeat(s, n - 1);
    assert Repeat(s, n) == s + t;
    if i < |s| {
      MultiplePlus(0, |s|, i);
    } else {
      RepeatAt(s, n - 1, i - |s|);
      assert Repeat(s, n)[i] == t[i - |s|];
      ShiftMod(i, |s|);
    }
  }

  function Spaces(n: nat): (r: string)
    ensures |r| == n
    ensures forall i :: 0 <= i < n ==> r[i] == ' '
  {
    var r := Repeat(" ", n);
    assert forall i :: 0 <= i < |r| ==> r[i] in r;
    r
  }

  // ----- Decimal digits: String(n) and Number(s) ------------------------------------------

  predicate IsDigit(c: char) { '0' <= c <= '9' }

  predicate AllDigits(s: string) { forall i :: 0 <= i < |s| ==> IsDigit(s[i]) }

  function DigitChar(d: nat): (c: char)
    requires d < 10
    ensures IsDigit(c)
  {
    ('0' as int + d) as char
  }

  function DigitValue(c: char): (d: nat)
    requires IsDigit(c)
    ensures d < 10
  {
    c as int - '0' as int
  }

  /** The number a string of decimal digits denotes (the empty string denotes 0). */
  function DigitsValue(s: string): nat
    requires AllDigits(s)
  {
    if s == [] then 0 else DigitsValue(s[..|s| - 1]) * 10 + DigitValue(s[|s| - 1])
  }

  /** `String(n)` for a natural number: its shortest decimal spelling. */
  function NatToString(n: nat): (s: string)
    ensures |s| > 0 && AllDigits(s)
    ensures s[0] == '0' ==> n == 0
    decreases n
  {
    if n < 10 then [DigitChar(n)] else NatToString(n / 10) + [DigitChar(n % 10)]
  }

  /** `String(n)` for an integer. */
  function IntToString(n: int): (s: string)
    ensures |s| > 0
    ensures n >= 0 ==> s == NatToString(n)
    ensures n < 0 ==> s == "-" + NatToString(-n)
  {
    if n < 0 then "-" + NatToString(-n) else NatToString(n)
  }

  /** Reading back what `String(n)` writes gives n. */
  lemma {:induction false} NatToStringRoundTrip(n: nat)
    ensures DigitsValue(NatToString(n)) == n
    decreases n
  {
    if n >= 10 {
      NatToStringRoundTrip(n / 10);
      var s := NatToString(n);
      assert s[..|s| - 1] == NatToString(n / 10);
    }
  }

  /** The characters `Number(s)` skips at either end of its argument. */
  predicate IsJsSpace(c: char) {
    c == ' ' || c == '\t' || c == '\n' || c == '\r' || c == '\U{B}' || c == '\U{C}'
    || c == '\U{A0}' || c == '\U{1680}' || ('\U{2000}' <= c <= '\U{200A}')
    || c == '\U{2028}' || c == '\U{2029}' || c == '\U{202F}' || c == '\U{205F}'
    || c == '\U{3000}' || c == '\U{FEFF}'
  }

  function TrimStart(s: string): (r: string)
    ensures |r| <= |s| && r == s[|s| - |r|..]
    ensures r != [] ==> !IsJsSpace(r[0])
  {
    if s != [] && IsJsSpace(s[0]) then TrimStart(s[1..]) else s
  }

  function TrimEnd(s: string): (r: string)
    ensures |r| <= |s| && r == s[..|r|]
    ensures r != [] ==> !IsJsSpace(r[|r| - 1])
  {
    if s != [] && IsJsSpace(s[|s| - 1]) then TrimEnd(s[..|s| - 1]) else s
  }

  /** `Number(s)` on a key string, restricted to the forms a key press can produce:
      blank strings are 0, decimal digits (with surrounding white space) are their value,
      and everything else is NaN (None). */
  function JsNumber(s: string): Option<nat> {
    var t := TrimEnd(TrimStart(s));
    if AllDigits(t) then Some(DigitsValue(t)) else None
  }

  /** What `Number` makes of a key string here: a number only when every character is a
      digit or white space; 0 for a blank string; the digits' value for a string of digits. */
  lemma JsNumberShape(s: string)
    ensures JsNumber(s).Some? ==> forall i :: 0 <= i < |s| ==> IsDigit(s[i]) || IsJsSpace(s[i])
    ensures (forall i :: 0 <= i < |s| ==> IsJsSpace(s[i])) ==> JsNumber(s) == Some(0)
    ensures AllDigits(s) ==> JsNumber(s) == Some(DigitsValue(s))
  {
    TrimBlank(s);
    TrimDigits(s);
    DigitsOnly(s);
  }

  /** Trimming takes off white space only: a character that is not white space survives
      it, at the same place once the trimmed prefix is accounted for. */
  lemma {:induction false} TrimStartKeeps(s: string, i: int)
    requires 0 <= i < |s| && !IsJsSpace(s[i])
    ensures |s| - |TrimStart(s)| <= i
    decreases |s|
  {
    if IsJsSpace(s[0]) {
      TrimStartKeeps(s[1..], i - 1);
    }
  }

  lemma {:induction false} TrimEndKeeps(s: string, i: int)
    requires 0 <= i < |s| && !IsJsSpace(s[i])
    ensures i < |TrimEnd(s)|
    decreases |s|
  {
    if IsJsSpace(s[|s| - 1]) {
      TrimEndKeeps(s[..|s| - 1], i);
    }
  }

  lemma TrimKeepsOthers(s: string, i: int)
    requires 0 <= i < |s| && !IsJsSpace(s[i])
    ensures var u := TrimStart(s); |s| - |u| <= i && i - (|s| - |u|) < |TrimEnd(u)|
                                   && TrimEnd(u)[i - (|s| - |u|)] == s[i]
  {
    TrimStartKeeps(s, i);
    var u := TrimStart(s);
    var j := i - (|s| - |u|);
    assert u[j] == s[i];
    TrimEndKeeps(u, j);
  }

  lemma DigitsOnly(s: string)
    ensures AllDigits(TrimEnd(TrimStart(s))) ==> forall i :: 0 <= i < |s| ==> IsDigit(s[i]) || IsJsSpace(s[i])
  {
    forall i | 0 <= i < |s| && !IsJsSpace(s[i]) && AllDigits(TrimEnd(TrimStart(s))) ensures IsDigit(s[i]) {
      DigitAt(s, i);
    }
  }

  lemma DigitAt(s: string, i: int)
    requires 0 <= i < |s| && !IsJsSpace(s[i]) && AllDigits(TrimEnd(TrimStart(s)))
    ensures IsDigit(s[i])
  {
    TrimKeepsOthers(s, i);
    var t := TrimEnd(TrimStart(s));
    assert IsDigit(t[i - (|s| - |TrimStart(s)|)]);
  }

  lemma TrimBlank(s: string)
    ensures (forall i :: 0 <= i < |s| ==> IsJsSpace(s[i])) ==> TrimStart(s) == []
  {
  }

  lemma TrimDigits(s: string)
    ensures AllDigits(s) ==> TrimStart(s) == s && TrimEnd(s) == s
  {
  }

  /** A key that is one character is a number exactly when it is a digit, and then it is
      that digit's value. */
  lemma SingleKeyNumber(c: char)
    ensures IsDigit(c) ==> JsNumber([c]) == Some(DigitValue(c))
    ensures !IsDigit(c) && !IsJsSpace(c) ==> JsNumber([c]) == None
    ensures IsJsSpace(c) ==> JsNumber([c]) == Some(0)
  {
    if IsJsSpace(c) {
      assert TrimStart([c]) == TrimStart([]);
    } else {
      assert TrimStart([c]) == [c];
      assert TrimEnd([c]) == [c];
      if IsDigit(c) {
        assert [c][..0] == [];
        assert DigitsValue([c]) == DigitsValue([]) * 10 + DigitValue(c);
      }
    }
  }

  /** `Number(String(n)) == n`. */
  lemma JsNumberOfNatToString(n: nat)
    ensures JsNumber(NatToString(n)) == Some(n)
  {
    var s := NatToString(n);
    assert !IsJsSpace(s[0]) && !IsJsSpace(s[|s| - 1]);
    assert TrimStart(s) == s;
    assert TrimEnd(s) == s;
    NatToStringRoundTrip(n);
  }

  // ----- String.prototype.replace with a string pattern -----------------------------------

  predicate OccursAt(s: string, pat: string, i: int) {
    0 <= i && i + |pat| <= |s| && s[i..i + |pat|] == pat
  }

  /** `s.replace(pat, rep)`: only the first occurrence of pat is replaced. */
  function ReplaceFirst(s: string, pat: string, rep: string): string
    decreases |s|
  {
    if |pat| <= |s| && s[..|pat|] == pat then rep + s[|pat|..]
    else if s == [] then s
    else [s[0]] + ReplaceFirst(s[1..], pat, rep)
  }

  /** A string shorter than the pattern cannot contain it. */
  lemma {:induction false} ShorterThanPattern(s: string, pat: string, rep: string)
    requires |s| < |pat|
    ensures ReplaceFirst(s, pat, rep) == s
    decreases |s|
  {
    if s != [] {
      ShorterThanPattern(s[1..], pat, rep);
      assert [s[0]] + s[1..] == s;
    }
  }

  /** The occurrence replaced is the first one, and nothing else changes. */
  lemma {:induction false} ReplaceFirstAt(s: string, pat: string, rep: string, i: int)
    requires OccursAt(s, pat, i)
    requires forall j :: 0 <= j < i ==> !OccursAt(s, pat, j)
    ensures ReplaceFirst(s, pat, rep) == s[..i] + rep + s[i + |pat|..]
    decreases i
  {
    if i == 0 {
      ReplaceAtStart(s, pat, rep);
    } else {
      FirstOccurrenceInTail(s, pat, rep, i);
      ReplaceFirstAt(s[1..], pat, rep, i - 1);
      ConsSplit(s, i, |pat|, rep);
    }
  }

  lemma ReplaceAtStart(s: string, pat: string, rep: string)
    requires OccursAt(s, pat, 0)
    ensures ReplaceFirst(s, pat, rep) == s[..0] + rep + s[|pat|..]
  {
    assert s[..|pat|] == pat;
  }

  /** An occurrence at i > 0 with none before it is, in the tail, an occurrence at i - 1 with
      none before it, and s does not start with the pattern. */
  lemma FirstOccurrenceInTail(s: string, pat: string, rep: string, i: int)
    requires i > 0 && OccursAt(s, pat, i)
    requires forall j :: 0 <= j < i ==> !OccursAt(s, pat, j)
    ensures s != [] && !(|pat| <= |s| && s[..|pat|] == pat)
    ensures ReplaceFirst(s, pat, rep) == [s[0]] + ReplaceFirst(s[1..], pat, rep)
    ensures OccursAt(s[1..], pat, i - 1)
    ensures forall j :: 0 <= j < i - 1 ==> !OccursAt(s[1..], pat, j)
  {
    assert !OccursAt(s, pat, 0);
    assert s[..|pat|] == s[0..|pat|];
    forall j | 0 <= j < i - 1 ensures !OccursAt(s[1..], pat, j) {
      assert !OccursAt(s, pat, j + 1);
      assert s[1..][j..j + |pat|] == s[j + 1..j + 1 + |pat|];
    }
    assert s[1..][i - 1..i - 1 + |pat|] == s[i..i + |pat|];
  }

  lemma ConsSplit(s: string, i: int, k: nat, rep: string)
    requires 1 <= i && i + k <= |s|
    ensures [s[0]] + (s[1..][..i - 1] + rep + s[1..][i - 1 + k..]) == s[..i] + rep + s[i + k..]
  {
    assert s[1..][..i - 1] == s[1..i];
    assert s[1..][i - 1 + k..] == s[i + k..];
    assert [s[0]] + s[1..i] == s[..i];
  }

  /** A string not containing the pattern is returned unchanged. */
  lemma {:induction false} ReplaceFirstAbsent(s: string, pat: string, rep: string)
    requires forall j :: 0 <= j <= |s| ==> !OccursAt(s, pat, j)
    ensures ReplaceFirst(s, pat, rep) == s
    decreases |s|
  {
    assert !OccursAt(s, pat, 0);
    if s != [] {
      forall j | 0 <= j <= |s| - 1 ensures !OccursAt(s[1..], pat, j) {
        assert !OccursAt(s, pat, j + 1);
        if j + |pat| <= |s| - 1 {
          assert s[1..][j..j + |pat|] == s[j + 1..j + 1 + |pat|];
        }
      }
      ReplaceFirstAbsent(s[1..], pat, rep);
      assert [s[0]] + s[1..] == s;
    }
  }

  // ----- Array.prototype.join ------------------------------------------------------------

  function TotalLength(xs: seq<string>): nat {
    if xs == [] then 0 else |xs[0]| + TotalLength(xs[1..])
  }

  /** `xs.join(sep)`; an array interpolated into a template literal is `xs.join(",")`. */
  function Join(xs: seq<string>, sep: string): (r: string)
    ensures xs == [] ==> r == ""
    ensures xs != [] ==> |r| == TotalLength(xs) + (|xs| - 1) * |sep|
  {
    if xs == [] then "" else if |xs| == 1 then
      assert TotalLength(xs[1..]) == 0;
      xs[0]
    else
      assert (|xs| - 1) * |sep| == |sep| + (|xs| - 2) * |sep|;
      xs[0] + sep + Join(xs[1..], sep)
  }

  /** The joined string holds every element and one separator between neighbours, and
      starts with the first element. */
  lemma {:induction false} JoinShape(xs: seq<string>, sep: string)
    requires xs != []
    ensures |Join(xs, sep)| == TotalLength(xs) + (|xs| - 1) * |sep|
    ensures Join(xs, sep)[..|xs[0]|] == xs[0]
  {
    if |xs| > 1 {
      JoinShape(xs[1..], sep);
      assert TotalLength(xs) == |xs[0]| + TotalLength(xs[1..]);
      assert (|xs| - 1) * |sep| == |sep| + (|xs| - 2) * |sep|;
    } else {
      assert TotalLength(xs[1..]) == 0;
    }
  }

  // ----- Styled text ---------------------------------------------------------------------

  /** How a run of text is shown: as is, or wrapped by the gray or dim colour helper. */
  datatype Style = Plain | Gray | Dim

  datatype Span = Span(style: Style, text: string)

  /** The characters of a styled line, without its styling. */
  function Characters(line: seq<Span>): string {
    if line == [] then "" else line[0].text + Characters(line[1..])
  }

  lemma {:induction false} CharactersAppend(a: seq<Span>, b: seq<Span>)
    ensures Characters(a + b) == Characters(a) + Characters(b)
  {
    if a != [] {
      assert (a + b)[1..] == a[1..] + b;
      CharactersAppend(a[1..], b);
    } else {
      assert a + b == b;
    }
  }
}
