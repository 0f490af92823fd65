/**
 * Small value-level helpers shared by the component models: an Option type,
 * JavaScript's `Array.prototype.join`, and decimal digit strings.
 */
module Common {

  datatype Option<+T> = None | Some(value: T)

  /** `parts.join(sep)`: the parts with `sep` between neighbours. */
  function Join(parts: seq<string>, sep: string): string
  {
    if |parts| == 0 then ""
    else if |parts| == 1 then parts[0]
    else parts[0] + sep + Join(parts[1..], sep)
  }

  /** Total length of the first `k` parts, each followed by one separator. */
  function Offset(parts: seq<string>, sep: string, k: nat): nat
    requires k <= |parts|
  {
    if k == 0 then 0 else |parts[0]| + |sep| + Offset(parts[1..], sep, k - 1)
  }

  /** The joined text is as long as all parts plus one separator between each pair. */
  lemma {:induction false} JoinLength(parts: seq<string>, sep: string)
    requires |parts| > 0
    ensures |Join(parts, sep)| == Offset(parts, sep, |parts| - 1) + |parts[|parts| - 1]|
  {
    if |parts| > 1 {
      JoinLength(parts[1..], sep);
      assert parts[1..][|parts| - 2] == parts[|parts| - 1];
    }
  }

  /**
   * Every part sits, unchanged, at its offset in the joined text: `join`
   * keeps the parts and their order.
   */
  lemma {:induction false} JoinPlacesPart(parts: seq<string>, sep: string, i: nat)
    requires i < |parts|
    ensures Offset(parts, sep, i) + |parts[i]| <= |Join(parts, sep)|
    ensures Join(parts, sep)[Offset(parts, sep, i)..Offset(parts, sep, i) + |parts[i]|] == parts[i]
  {
    if i == 0 {
      JoinStartsWithFirst(parts, sep);
    } else {
      var j, rest := Join(parts, sep), Join(parts[1..], sep);
      JoinPlacesPart(parts[1..], sep, i - 1);
      var p, o := |parts[0]| + |sep|, Offset(parts[1..], sep, i - 1);
      assert Offset(parts, sep, i) == p + o;
      assert parts[1..][i - 1] == parts[i];
      assert j == parts[0] + sep + rest;
      assert j[p + o..p + o + |parts[i]|] == rest[o..o + |parts[i]|];
    }
  }

  /** The joined text starts with the first part. */
  lemma JoinStartsWithFirst(parts: seq<string>, sep: string)
    requires |parts| > 0
    ensures |parts[0]| <= |Join(parts, sep)| && Join(parts, sep)[..|parts[0]|] == parts[0]
  {
    if |parts| > 1 {
      var j := Join(parts, sep);
      assert j == parts[0] + (sep + Join(parts[1..], sep));
    }
  }

  /** Each part but the last is followed by the separator. */
  lemma {:induction false} JoinPlacesSep(parts: seq<string>, sep: string, i: nat)
    requires i + 1 < |parts|
    ensures Offset(parts, sep, i) + |parts[i]| + |sep| <= |Join(parts, sep)|
    ensures Join(parts, sep)[Offset(parts, sep, i) + |parts[i]|..Offset(parts, sep, i) + |parts[i]| + |sep|] == sep
  {
    if i == 0 {
      JoinSepAfterFirst(parts, sep);
    } else {
      var j, rest := Join(parts, sep), Join(parts[1..], sep);
      JoinPlacesSep(parts[1..], sep, i - 1);
      var p, o := |parts[0]| + |sep|, Offset(parts[1..], sep, i - 1) + |parts[i]|;
      assert Offset(parts, sep, i) + |parts[i]| == p + o;
      assert parts[1..][i - 1] == parts[i];
      assert j == parts[0] + sep + rest;
      assert j[p + o..p + o + |sep|] == rest[o..o + |sep|];
    }
  }

  /** With two parts or more, the separator follows the first part. */
  lemma JoinSepAfterFirst(parts: seq<string>, sep: string)
    requires |parts| > 1
    ensures |parts[0]| + |sep| <= |Join(parts, sep)| && Join(parts, sep)[|parts[0]|..|parts[0]| + |sep|] == sep
  {
    var j := Join(parts, sep);
    assert j == parts[0] + sep + Join(parts[1..], sep);
  }

  /** A joined list closed by a period ends in "." and holds every part at its offset. */
  lemma SentencePlacesPart(parts: seq<string>, sep: string, i: nat)
    requires i < |parts|
    ensures var s := Join(parts, sep) + ".";
      var o := Offset(parts, sep, i);
      && s[|s| - 1] == '.'
      && o + |parts[i]| < |s|
      && s[o..o + |parts[i]|] == parts[i]
  {
    JoinPlacesPart(parts, sep, i);
    var j := Join(parts, sep);
    var o := Offset(parts, sep, i);
    assert (j + ".")[o..o + |parts[i]|] == j[o..o + |parts[i]|];
  }

  /** ... and has the separator after every part but the last. */
  lemma SentencePlacesSep(parts: seq<string>, sep: string, i: nat)
    requires i + 1 < |parts|
    ensures var s := Join(parts, sep) + ".";
      var o := Offset(parts, sep, i) + |parts[i]|;
      o + |sep| < |s| && s[o..o + |sep|] == sep
  {
    JoinPlacesSep(parts, sep, i);
    var j := Join(parts, sep);
    var o := Offset(parts, sep, i) + |parts[i]|;
    assert (j + ".")[o..o + |sep|] == j[o..o + |sep|];
  }

  /** `join` over a concatenation puts one separator at the seam. */
  lemma {:induction false} JoinAppend(a: seq<string>, b: seq<string>, sep: string)
    requires |a| > 0 && |b| > 0
    ensures Join(a + b, sep) == Join(a, sep) + sep + Join(b, sep)
  {
    if |a| == 1 {
      assert (a + b)[1..] == b;
    } else {
      assert (a + b)[1..] == a[1..] + b;
      JoinAppend(a[1..], b, sep);
    }
  }

  /** The `\d` class of a JavaScript regular expression: ASCII 0-9. */
  predicate IsDigit(c: char)
  {
    '0' <= c <= '9'
  }

  predicate AllDigits(s: string)
  {
    forall i :: 0 <= i < |s| ==> IsDigit(s[i])
  }

  /** Number of leading decimal digits of `s`. */
  function LeadingDigits(s: string): (n: nat)
    ensures n <= |s|
    ensures AllDigits(s[..n])
    ensures n < |s| ==> !IsDigit(s[n])
  {
    if |s| == 0 || !IsDigit(s[0]) then 0 else 1 + LeadingDigits(s[1..])
  }

  /** The value of a decimal digit string. */
  function DigitsValue(s: string): nat
    requires AllDigits(s)
  {
    if |s| == 0 then 0 else 10 * DigitsValue(s[..|s| - 1]) + (s[|s| - 1] as int - '0' as int)
  }

  /** A digit string of at most two digits stands for a number below 100. */
  lemma TwoDigitsBelowHundred(s: string)
    requires AllDigits(s) && |s| <= 2
    ensures DigitsValue(s) < 100
  {
    if |s| == 2 {
      assert DigitsValue(s[..1]) < 10;
    }
  }

  /**
   * `parseInt` of a text: the value of its leading digits, or None (NaN)
   * when it has none. Signs and leading blanks are not modelled.
   */
  function ParseIntPrefix(s: string): (r: Option<nat>)
    ensures r.Some? <==> |s| > 0 && IsDigit(s[0])
  {
    var n := LeadingDigits(s);
    if n == 0 then None else Some(DigitsValue(s[..n]))
  }
}
