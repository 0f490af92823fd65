/**
 * The MMSE and GCS score inputs of the neurological examination
 * (src/App.jsx): the keystroke sanitiser that stores "d/30" or "d/15", and the
 * effect that clamps an out-of-range score back into its scale.
 */
module NeuroScores {
  import opened Common

  const MmseScale: string := "30"
  const GcsScale: string := "15"

  /** `text.replace(/\D/g, "")`: the digits of `text`, in order. */
  function KeepDigits(text: string): (r: string)
    ensures AllDigits(r)
    ensures |r| <= |text|
    ensures AllDigits(text) ==> r == text
  {
    if |text| == 0 then ""
    else (if IsDigit(text[0]) then [text[0]] else []) + KeepDigits(text[1..])
  }

  /** Removing non-digits distributes over concatenation. */
  lemma {:induction false} KeepDigitsAppend(a: string, b: string)
    ensures KeepDigits(a + b) == KeepDigits(a) + KeepDigits(b)
  {
    if |a| == 0 {
      assert a + b == b;
    } else {
      var head := if IsDigit(a[0]) then [a[0]] else [];
      assert (a + b)[0] == a[0] && (a + b)[1..] == a[1..] + b;
      KeepDigitsAppend(a[1..], b);
      assert KeepDigits(a + b) == head + (KeepDigits(a[1..]) + KeepDigits(b));
      assert KeepDigits(a) == head + KeepDigits(a[1..]);
    }
  }

  /**
   * The `onChange` handler of the MMSE (scale "30") and GCS (scale "15")
   * inputs: keep at most the first two digits typed and store them over the
   * scale, or "" when no digit was typed.
   */
  function Sanitise(text: string, scale: string): (r: string)
    ensures r == "" <==> KeepDigits(text) == ""
    ensures r != "" ==>
      var d := ScoreDigits(r);
      && 1 <= |d| <= 2
      && d <= KeepDigits(text)
      && (|KeepDigits(text)| >= 2 ==> |d| == 2)
      && r == d + "/" + scale
  {
    var digits := KeepDigits(text);
    var kept := if |digits| <= 2 then digits else digits[..2];
    if kept == "" then ""
    else
      LeadingDigitsOfScore(kept, scale);
      assert (kept + "/" + scale)[..|kept|] == kept;
      kept + "/" + scale
  }

  /** The digit run a stored score starts with, as `score.split("/")[0]` gives it. */
  function ScoreDigits(score: string): string
  {
    score[..LeadingDigits(score)]
  }

  /** `parseInt(score.split("/")[0])`; None stands for NaN. */
  function ScoreValue(score: string): Option<nat>
  {
    ParseIntPrefix(score)
  }

  lemma {:induction false} LeadingDigitsOfScore(d: string, scale: string)
    requires AllDigits(d)
    ensures LeadingDigits(d + "/" + scale) == |d|
  {
    if |d| > 0 {
      assert (d + "/" + scale)[1..] == d[1..] + "/" + scale;
      LeadingDigitsOfScore(d[1..], scale);
    } else {
      assert d + "/" + scale == "/" + scale;
    }
  }

  /** A stored score's value is the value of its digits. */
  lemma ScoreValueOf(d: string, scale: string)
    requires AllDigits(d) && |d| > 0
    ensures ScoreValue(d + "/" + scale) == Some(DigitsValue(d))
  {
    LeadingDigitsOfScore(d, scale);
    assert (d + "/" + scale)[..|d|] == d;
  }

  lemma SanitisedScoreBelowHundred(text: string, scale: string)
    requires Sanitise(text, scale) != ""
    ensures var r := Sanitise(text, scale);
      ScoreValue(r).Some? && ScoreValue(r).value < 100
  {
    var r := Sanitise(text, scale);
    var d := ScoreDigits(r);
    ScoreValueOf(d, scale);
    TwoDigitsBelowHundred(d);
  }

  /** The effect on `mmse_score`: a non-empty score above 30 becomes "30/30". */
  function ClampMmse(score: string): string
  {
    if score != "" && ScoreValue(score).Some? && ScoreValue(score).value > 30 then "30/30"
    else score
  }

  /** The effect on `gcs_score`: below 3 becomes "3/15", above 15 becomes "15/15". */
  function ClampGcs(score: string): string
  {
    if score != "" && ScoreValue(score).Some? then
      if ScoreValue(score).value < 3 then "3/15"
      else if ScoreValue(score).value > 15 then "15/15"
      else score
    else score
  }

  lemma MmseClampConstant()
    ensures ScoreValue("30/30") == Some(30)
  {
    ScoreValueOf("30", "30");
    assert "30" + "/" + "30" == "30/30";
    assert DigitsValue("30") == 30 by { assert "30"[..1] == "3"; assert "3"[..0] == ""; }
  }

  lemma GcsClampConstants()
    ensures ScoreValue("3/15") == Some(3)
    ensures ScoreValue("15/15") == Some(15)
  {
    ScoreValueOf("3", "15");
    assert "3" + "/" + "15" == "3/15";
    assert DigitsValue("3") == 3 by { assert "3"[..0] == ""; }
    ScoreValueOf("15", "15");
    assert "15" + "/" + "15" == "15/15";
    assert DigitsValue("15") == 15 by { assert "15"[..1] == "1"; assert "1"[..0] == ""; }
  }

  /**
   * After the clamp, a score that has a value lies in its range, and a
   * second run of the effect changes nothing (so the effect, which re-runs
   * on its own update, settles after one step).
   */
  lemma MmseClampBoundedAndStable(score: string)
    ensures ScoreValue(score).Some? ==>
      ScoreValue(ClampMmse(score)).Some? && ScoreValue(ClampMmse(score)).value <= 30
    ensures ClampMmse(ClampMmse(score)) == ClampMmse(score)
  {
    MmseClampConstant();
  }

  lemma GcsClampBoundedAndStable(score: string)
    ensures ScoreValue(score).Some? ==>
      ScoreValue(ClampGcs(score)).Some? && 3 <= ScoreValue(ClampGcs(score)).value <= 15
    ensures ClampGcs(ClampGcs(score)) == ClampGcs(score)
  {
    GcsClampConstants();
  }

  /**
   * Whatever is typed, the stored MMSE text after the clamp is "" or a
   * score of at most 30 over the MMSE scale ...
   */
  lemma TypedMmseEndsInRange(text: string)
    ensures var m := ClampMmse(Sanitise(text, MmseScale));
      m == "" || (ScoreValue(m).Some? && ScoreValue(m).value <= 30 && m[|m| - 3..] == "/30")
  {
    var m0 := Sanitise(text, MmseScale);
    if m0 != "" {
      SanitisedScoreBelowHundred(text, MmseScale);
      MmseClampBoundedAndStable(m0);
      var d := ScoreDigits(m0);
      assert m0[|m0| - 3..] == "/30" by { assert m0 == d + "/" + MmseScale; }
      assert "30/30"[2..] == "/30";
    }
  }

  /** ... and a stored GCS text is "" or a score from 3 to 15 over the GCS scale. */
  lemma TypedGcsEndsInRange(text: string)
    ensures var g := ClampGcs(Sanitise(text, GcsScale));
      g == "" || (ScoreValue(g).Some? && 3 <= ScoreValue(g).value <= 15 && g[|g| - 3..] == "/15")
  {
    var g0 := Sanitise(text, GcsScale);
    if g0 != "" {
      SanitisedScoreBelowHundred(text, GcsScale);
      GcsClampBoundedAndStable(g0);
      var g := ClampGcs(g0);
      if g == "3/15" {
        assert g[|g| - 3..] == "/15";
      } else if g == "15/15" {
        assert g[|g| - 3..] == "/15";
      } else {
        assert g == g0;
        var d := ScoreDigits(g0);
        assert g0 == d + "/" + GcsScale;
        assert g0[|g0| - 3..] == "/15";
      }
    }
  }

  /** "35" typed into the MMSE box is stored as "30/30" ... */
  lemma MmseClampExample()
    ensures ClampMmse(Sanitise("35", MmseScale)) == "30/30"
  {
    assert KeepDigits("35") == "35";
    ScoreValueOf("35", MmseScale);
    assert "35" + "/" + MmseScale == Sanitise("35", MmseScale);
    assert DigitsValue("35") == 35 by { assert "35"[..1] == "3"; assert "3"[..0] == ""; }
  }

  /** ... "1" typed into the GCS box as "3/15", and "2x0" as "15/15". */
  lemma GcsClampExamples()
    ensures ClampGcs(Sanitise("1", GcsScale)) == "3/15"
    ensures ClampGcs(Sanitise("2x0", GcsScale)) == "15/15"
  {
    assert KeepDigits("1") == "1";
    ScoreValueOf("1", GcsScale);
    assert "1" + "/" + GcsScale == Sanitise("1", GcsScale);
    assert DigitsValue("1") == 1 by { assert "1"[..0] == ""; }
    assert KeepDigits("2x0") == "20" by {
      assert "2x0"[1..] == "x0" && "x0"[1..] == "0" && "0"[1..] == "";
    }
    ScoreValueOf("20", GcsScale);
    assert "20" + "/" + GcsScale == Sanitise("2x0", GcsScale);
    assert DigitsValue("20") == 20 by { assert "20"[..1] == "2"; assert "2"[..0] == ""; }
  }
}
