/**
 * The text operations the runtime relies on: the decimal form of an integer
 * (`%d`), its inverse `strconv.Atoi`, the comma-joined display of a list,
 * and `strings.Trim` with a one-character cut set.
 */
module Strings {
  import opened Wrappers
  import opened Ints

  predicate IsDigit(c: char) { '0' <= c <= '9' }

  predicate AllDigits(s: string) { forall i :: 0 <= i < |s| ==> IsDigit(s[i]) }

  function DigitChar(d: nat): (c: char)
    requires d < 10
    ensures IsDigit(c)
  {
    "0123456789"[d]
  }

  function DigitValue(c: char): (d: nat)
    requires IsDigit(c)
    ensures d < 10
  {
    c as int - '0' as int
  }

  /** Decimal digits of a natural number, most significant first. */
  function NatString(n: nat): (s: string)
    ensures |s| > 0 && AllDigits(s)
  {
    if n < 10 then [DigitChar(n)] else NatString(n / 10) + [DigitChar(n % 10)]
  }

  /** `fmt.Sprintf("%d", v)`. */
  function IntString(v: int): (s: string)
    ensures |s| > 0
    ensures s[0] == '-' <==> v < 0
  {
    if v < 0 then "-" + NatString(-v) else NatString(v)
  }

  /** The value of a string of decimal digits. */
  function DigitsValue(s: string): nat
    requires AllDigits(s)
  {
    if |s| == 0 then 0 else 10 * DigitsValue(s[..|s| - 1]) + DigitValue(s[|s| - 1])
  }

  lemma {:induction false} NatStringRoundTrip(n: nat)
    ensures DigitsValue(NatString(n)) == n
  {
    var s := NatString(n);
    if n >= 10 {
      NatStringRoundTrip(n / 10);
      assert s[..|s| - 1] == NatString(n / 10);
      assert DigitValue(DigitChar(n % 10)) == n % 10;
    } else {
      assert DigitValue(DigitChar(n)) == n;
    }
  }

  /**
   * `strconv.Atoi` on a 64-bit platform: an optional sign followed by at
   * least one decimal digit, whose value must fit in an int.
   */
  function Atoi(s: string): Option<Int64>
  {
    var negative := |s| > 0 && s[0] == '-';
    var body := if |s| > 0 && (s[0] == '-' || s[0] == '+') then s[1..] else s;
    if |body| == 0 || !AllDigits(body) then None
    else
      var v: int := if negative then -(DigitsValue(body) as int) else DigitsValue(body);
      if InInt64(v) then Some(v) else None
  }

  /** Atoi reads back every integer's decimal form. */
  lemma AtoiRoundTrip(v: Int64)
    ensures Atoi(IntString(v)) == Some(v)
  {
    var s := IntString(v);
    if v < 0 {
      var m: nat := -(v as int);
      NatStringRoundTrip(m);
      assert s[0] == '-' && s[1..] == NatString(m);
    } else {
      NatStringRoundTrip(v);
      assert s == NatString(v);
      assert IsDigit(s[0]);
      assert s[0] != '-' && s[0] != '+';
    }
  }

  /** Distinct integers have distinct decimal forms. */
  lemma IntStringInjective(a: Int64, b: Int64)
    ensures IntString(a) == IntString(b) ==> a == b
  {
    AtoiRoundTrip(a);
    AtoiRoundTrip(b);
  }

  /** The parts separated by `sep`. */
  function Join(parts: seq<string>, sep: string): string
  {
    if |parts| == 0 then ""
    else if |parts| == 1 then parts[0]
    else parts[0] + sep + Join(parts[1..], sep)
  }

  lemma {:induction false} JoinSnoc(parts: seq<string>, p: string, sep: string)
    requires |parts| > 0
    ensures Join(parts + [p], sep) == Join(parts, sep) + sep + p
  {
    if |parts| > 1 {
      assert (parts + [p])[1..] == parts[1..] + [p];
      JoinSnoc(parts[1..], p, sep);
    } else {
      assert (parts + [p])[1..] == [p];
    }
  }

  /** The display form of a list: `open`, the parts joined by commas, `]`. */
  function ListDisplay(open: string, parts: seq<string>): string
  {
    open + Join(parts, ",") + "]"
  }

  /**
   * The display loop of arrays and sets: the opening text, each part
   * followed by a comma unless it is the last, then `]`.
   */
  method Bracketed(open: string, parts: seq<string>) returns (s: string)
    ensures s == ListDisplay(open, parts)
  {
    s := open;
    var ln := |parts|;
    var i := 0;
    while i < ln
      invariant 0 <= i <= ln
      invariant s == open + Join(parts[..i], ",") + (if 0 < i < ln then "," else "")
    {
      s := s + parts[i];
      if i > 0 {
        assert parts[..i + 1] == parts[..i] + [parts[i]];
        JoinSnoc(parts[..i], parts[i], ",");
      } else {
        assert parts[..1] == [parts[0]];
      }
      if i < ln - 1 {
        s := s + ",";
      }
      i := i + 1;
    }
    assert parts[..ln] == parts;
    s := s + "]";
  }

  /** `strings.TrimLeft(s, [c])`. */
  function TrimLeft(s: string, c: char): (r: string)
    ensures |r| <= |s| && r == s[|s| - |r|..]
    ensures |r| == 0 || r[0] != c
    ensures forall i :: 0 <= i < |s| - |r| ==> s[i] == c
  {
    if |s| > 0 && s[0] == c then TrimLeft(s[1..], c) else s
  }

  /** `strings.TrimRight(s, [c])`. */
  function TrimRight(s: string, c: char): (r: string)
    ensures |r| <= |s| && r == s[..|r|]
    ensures |r| == 0 || r[|r| - 1] != c
    ensures forall i :: |r| <= i < |s| ==> s[i] == c
  {
    if |s| > 0 && s[|s| - 1] == c then TrimRight(s[..|s| - 1], c) else s
  }

  /** `strings.Trim(s, [c])`: every leading and trailing `c` removed. */
  function Trim(s: string, c: char): (r: string)
    ensures |r| == 0 || (r[0] != c && r[|r| - 1] != c)
    ensures exists i, j :: 0 <= i <= j <= |s| && r == s[i..j]
                         && (forall k :: 0 <= k < i ==> s[k] == c)
                         && (forall k :: j <= k < |s| ==> s[k] == c)
  {
    var l := TrimLeft(s, c);
    var r := TrimRight(l, c);
    var i := |s| - |l|;
    assert r == s[i..i + |r|];
    r
  }
}
