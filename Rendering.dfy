/** Helpers the app and the CLI share word for word: the beat length handed to
    `setTimeout`, the metronome sounds, and the gray progress bar laid over the chord line. */
module Rendering {
  import opened Text

  /** The two metronome samples, `resources/high.mp3` and `resources/low.mp3`. */
  datatype Sound = High | Low

  /** `getMSPerBeat()`: `60 * 1000 / tempo`, an exact quotient since tempo is an integer. */
  function MsPerBeat(tempo: int): real
    requires tempo > 0
  {
    60000.0 / tempo as real
  }

  /** Tempo times the beat length is one minute. */
  lemma BeatsFillAMinute(tempo: int)
    requires tempo > 0
    ensures MsPerBeat(tempo) * tempo as real == 60000.0
  {
  }

  /** A faster tempo gives a strictly shorter beat. */
  lemma MsPerBeatDecreasing(tempo: int, faster: int)
    requires 0 < tempo < faster
    ensures MsPerBeat(faster) < MsPerBeat(tempo)
  {
    MinuteShareDecreasing(tempo as real, faster as real);
  }

  lemma MinuteShareDecreasing(t: real, f: real)
    requires 0.0 < t < f
    ensures 60000.0 / f < 60000.0 / t
  {
    var a, b := 60000.0 / t, 60000.0 / f;
    assert a * t == 60000.0;
    assert b * f == 60000.0;
    assert b * t < b * f;
  }

  lemma ScaleWeak(x: real, y: real, z: real)
    requires x <= y && z > 0.0
    ensures x * z <= y * z
  {
  }

  /** The final app's default tempo 120 gives 500 ms, the first script's 60 gives 1000 ms. */
  lemma DefaultBeatLengths()
    ensures MsPerBeat(120) == 500.0 && MsPerBeat(60) == 1000.0
  {
  }

  /** `Math.round(x)`: the nearest integer, halves rounded up. */
  function Round(x: real): (k: int)
    ensures k as real - 0.5 <= x < k as real + 0.5
  {
    (x + 0.5).Floor
  }

  /** Rounding never reverses the order of two numbers. */
  lemma RoundMonotone(x: real, y: real)
    requires x <= y
    ensures Round(x) <= Round(y)
  {
  }

  /** Where `progressBarIfyString` cuts: `Math.round(progress * length)`, clamped into the
      string as `substring` clamps its arguments. */
  function CutPoint(s: string, progress: real): (c: nat)
    ensures c <= |s|
  {
    Clamp(Round(progress * |s| as real), 0, |s|)
  }

  /** `progressBarIfyString(string, progress)`: the first part of the string in gray, the
      rest as is. */
  function ProgressBarIfy(s: string, progress: real): seq<Span> {
    var c := CutPoint(s, progress);
    [Span(Gray, s[..c]), Span(Plain, s[c..])]
  }

  /** The bar shows the string unchanged; its gray part is the rounded share of the string
      that progress gives, none of it at progress 0 or below and all of it at 1 or above. */
  lemma ProgressBarCharacters(s: string, progress: real)
    ensures Characters(ProgressBarIfy(s, progress)) == s
    ensures var bar := ProgressBarIfy(s, progress);
      && bar[0].style == Gray && bar[1].style == Plain
      && |bar[0].text| == CutPoint(s, progress)
      && (0 <= Round(progress * |s| as real) <= |s| ==> |bar[0].text| == Round(progress * |s| as real))
      && (progress <= 0.0 ==> bar[0].text == "")
      && (progress >= 1.0 ==> bar[0].text == s)
  {
    var bar := ProgressBarIfy(s, progress);
    var c := CutPoint(s, progress);
    assert Characters(bar) == s[..c] + Characters(bar[1..]);
    assert Characters(bar[1..]) == s[c..] + Characters(bar[2..]);
    assert s[..c] + s[c..] + "" == s;
    if progress >= 1.0 {
      ScaleWeak(1.0, progress, |s| as real + 1.0);
      assert progress * |s| as real >= |s| as real;
      assert Round(progress * |s| as real) >= |s|;
      assert c == |s|;
    }
    if progress <= 0.0 {
      assert progress * |s| as real <= 0.0;
      assert c == 0;
    }
  }

  /** More progress never shortens the gray part. */
  lemma ProgressBarMonotone(s: string, p: real, q: real)
    requires p <= q
    ensures |ProgressBarIfy(s, p)[0].text| <= |ProgressBarIfy(s, q)[0].text|
  {
    assert p * |s| as real <= q * |s| as real;
    RoundMonotone(p * |s| as real, q * |s| as real);
  }
}
