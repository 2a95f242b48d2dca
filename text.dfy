/**
 * The string operations of Python that the client relies on: `str(int)`,
 * `int(str)`, zero-padded numerals (`'%02d'`), `sep.join(parts)` and
 * `s.split(sep[, maxsplit])`.
 */
module Text {
  import opened Wrappers

  predicate IsDigit(c: char) { '0' <= c <= '9' }

  function DigitValue(c: char): (d: nat)
    requires IsDigit(c)
    ensures d < 10
  {
    (c as int) - ('0' as int)
  }

  function DigitChar(d: nat): (c: char)
    requires d < 10
    ensures IsDigit(c) && DigitValue(c) == d
  {
    (('0' as int) + d) as char
  }

  predicate AllDigits(s: string) {
    forall i :: 0 <= i < |s| ==> IsDigit(s[i])
  }

  /** The value of a decimal numeral, most significant digit first. */
  function DigitsValue(s: string): nat
    requires AllDigits(s)
  {
    if s == [] then 0 else DigitsValue(s[..|s| - 1]) * 10 + DigitValue(s[|s| - 1])
  }

  /** `str(n)` for a non-negative `n`: the numeral without leading zeros. */
  function NatString(n: nat): (s: string)
    ensures |s| >= 1 && AllDigits(s) && DigitsValue(s) == n
    ensures |s| > 1 ==> s[0] != '0'
  {
    if n < 10 then [DigitChar(n)]
    else
      var p := NatString(n / 10);
      var s := p + [DigitChar(n % 10)];
      assert s[..|s| - 1] == p;
      assert |p| == 1 ==> DigitsValue(p) == DigitValue(p[0]) by {
        if |p| == 1 { assert p[..0] == []; }
      }
      s
  }

  /** `str(i)` for any integer. */
  function IntString(i: int): (s: string)
    ensures |s| >= 1 && (s[0] == '-' <==> i < 0)
    ensures i < 0 ==> AllDigits(s[1..]) && DigitsValue(s[1..]) == -i
    ensures i >= 0 ==> AllDigits(s) && DigitsValue(s) == i
    ensures var d := if i < 0 then s[1..] else s; |d| > 1 ==> d[0] != '0'
  {
    if i < 0 then
      var digits := NatString(-i);
      assert ("-" + digits)[1..] == digits;
      "-" + digits
    else NatString(i)
  }

  /**
   * `int(s)` on a string: an optional sign followed by one or more ASCII
   * digits; anything else raises `ValueError`.
   */
  function ParseInt(s: string): (r: Result<int>)
    ensures r.Ok? <==> (|s| > 0 && AllDigits(s)) || (|s| > 1 && (s[0] == '-' || s[0] == '+') && AllDigits(s[1..]))
    ensures r.Ok? && s[0] == '-' ==> r.value + DigitsValue(s[1..]) == 0
    ensures r.Ok? && s[0] != '-' ==> r.value == DigitsValue(if s[0] == '+' then s[1..] else s)
    ensures r.Err? ==> r.error == BadLiteral(s)
  {
    if |s| > 0 && (s[0] == '-' || s[0] == '+') then
      var d := s[1..];
      if |d| > 0 && AllDigits(d) then
        var v: int := DigitsValue(d);
        Ok(if s[0] == '-' then -v else v)
      else Err(BadLiteral(s))
    else if |s| > 0 && AllDigits(s) then Ok(DigitsValue(s))
    else Err(BadLiteral(s))
  }

  lemma ParseDigits(s: string)
    requires |s| > 0 && AllDigits(s)
    ensures ParseInt(s) == Ok(DigitsValue(s))
  {
    assert IsDigit(s[0]);
  }

  /** `int(str(i)) == i`. */
  lemma ParseIntString(i: int)
    ensures ParseInt(IntString(i)) == Ok(i)
  {
    if i < 0 {
      var s := IntString(i);
      assert s[1..] == NatString(-i);
    } else {
      ParseDigits(NatString(i));
    }
  }

  function Zeros(k: nat): (s: string)
    ensures |s| == k && AllDigits(s)
  {
    seq(k, _ => '0')
  }

  lemma {:induction false} ZerosValue(k: nat)
    ensures DigitsValue(Zeros(k)) == 0
  {
    if k > 0 {
      assert Zeros(k)[..k - 1] == Zeros(k - 1);
      ZerosValue(k - 1);
    }
  }

  /** Leading zeros do not change the value of a numeral. */
  lemma {:induction false} LeadingZeros(k: nat, s: string)
    requires AllDigits(s)
    ensures AllDigits(Zeros(k) + s) && DigitsValue(Zeros(k) + s) == DigitsValue(s)
  {
    var t := Zeros(k) + s;
    if s == [] {
      assert t == Zeros(k);
      ZerosValue(k);
    } else {
      assert t[..|t| - 1] == Zeros(k) + s[..|s| - 1];
      LeadingZeros(k, s[..|s| - 1]);
    }
  }

  /** `'%0*d' % (width, n)`: the numeral of `n`, left-padded with zeros to `width`. */
  function Pad(n: nat, width: nat): (s: string)
    ensures AllDigits(s) && DigitsValue(s) == n
    ensures |s| == if |NatString(n)| < width then width else |NatString(n)|
  {
    var digits := NatString(n);
    var k := if |digits| < width then width - |digits| else 0;
    LeadingZeros(k, digits);
    Zeros(k) + digits
  }

  /** `sep.join(parts)`. */
  function Join(parts: seq<string>, sep: string): string {
    if |parts| == 0 then ""
    else if |parts| == 1 then parts[0]
    else parts[0] + sep + Join(parts[1..], sep)
  }

  /** A join starts with the first piece and ends with the last. */
  lemma {:induction false} JoinEnds(parts: seq<string>, sep: string)
    requires |parts| >= 1
    ensures |parts[0]| <= |Join(parts, sep)| && Join(parts, sep)[..|parts[0]|] == parts[0]
    ensures var last := parts[|parts| - 1];
      |last| <= |Join(parts, sep)| && Join(parts, sep)[|Join(parts, sep)| - |last|..] == last
  {
    if |parts| > 1 {
      JoinEnds(parts[1..], sep);
      var tail := Join(parts[1..], sep);
      assert parts[1..][|parts[1..]| - 1] == parts[|parts| - 1];
      assert Join(parts, sep) == parts[0] + sep + tail;
      assert (parts[0] + sep + tail)[|parts[0] + sep + tail| - |parts[|parts| - 1]|..] ==
             tail[|tail| - |parts[|parts| - 1]|..];
    }
  }

  lemma JoinPrepend(c: char, parts: seq<string>, sep: string)
    requires |parts| >= 1
    ensures Join([[c] + parts[0]] + parts[1..], sep) == [c] + Join(parts, sep)
  {
    var q := [[c] + parts[0]] + parts[1..];
    if |parts| > 1 {
      assert q[1..] == parts[1..];
    }
  }

  /**
   * `s.split(sep, n)`: at most `n` splits, from the left. Joining the pieces
   * gives back `s`; every piece but the last is free of `sep`, and so is the
   * last one unless all `n` splits were used.
   */
  function SplitN(s: string, sep: char, n: nat): (r: seq<string>)
    ensures 1 <= |r| <= n + 1 && |r| <= |s| + 1
    ensures Join(r, [sep]) == s
    ensures forall i :: 0 <= i < |r| - 1 ==> sep !in r[i]
    ensures |r| <= n ==> sep !in r[|r| - 1]
  {
    if |s| == 0 then [""]
    else if s[0] == sep && n > 0 then
      var rest := SplitN(s[1..], sep, n - 1);
      var r := [""] + rest;
      assert r[1..] == rest;
      r
    else
      var rest := SplitN(s[1..], sep, n);
      JoinPrepend(s[0], rest, [sep]);
      [[s[0]] + rest[0]] + rest[1..]
  }

  /** `s.split(sep)`: split at every occurrence of `sep`. */
  function Split(s: string, sep: char): (r: seq<string>)
    ensures |r| >= 1 && Join(r, [sep]) == s
    ensures forall i :: 0 <= i < |r| ==> sep !in r[i]
  {
    SplitN(s, sep, |s| + 1)
  }

  lemma {:induction false} SplitNoSep(x: string, sep: char, n: nat)
    requires sep !in x
    ensures SplitN(x, sep, n) == [x]
  {
    if |x| > 0 {
      SplitNoSep(x[1..], sep, n);
      assert [x[0]] + x[1..] == x;
    }
  }

  lemma {:induction false} SplitFirst(x: string, sep: char, y: string, n: nat)
    requires sep !in x
    ensures SplitN(x + [sep] + y, sep, n + 1) == [x] + SplitN(y, sep, n)
  {
    var s := x + [sep] + y;
    if |x| == 0 {
      assert s[1..] == y;
    } else {
      assert s[1..] == x[1..] + [sep] + y;
      SplitFirst(x[1..], sep, y, n);
      assert [x[0]] + x[1..] == x;
    }
  }

  /** A single piece splits to itself unless it holds the separator and splits remain. */
  lemma SplitJoinOne(x: string, sep: char, n: nat)
    requires sep in x ==> n == 0
    ensures SplitN(x, sep, n) == [x]
  {
    if n == 0 {
      SplitZero(x, sep);
    } else {
      SplitNoSep(x, sep, n);
    }
  }

  lemma JoinCons(head: string, rest: seq<string>, sep: string)
    requires |rest| >= 1
    ensures Join([head] + rest, sep) == head + sep + Join(rest, sep)
  {
    assert ([head] + rest)[1..] == rest;
  }

  /** Splitting `head + sep + rest-joined` peels `head` off when `head` is free of the separator. */
  lemma SplitJoinCons(head: string, rest: seq<string>, sep: char, n: nat)
    requires sep !in head && |rest| >= 1 && n >= 1
    requires SplitN(Join(rest, [sep]), sep, n - 1) == rest
    ensures SplitN(Join([head] + rest, [sep]), sep, n) == [head] + rest
  {
    var parts := [head] + rest;
    var tail := Join(rest, [sep]);
    calc {
      SplitN(Join(parts, [sep]), sep, n);
      { JoinCons(head, rest, [sep]); }
      SplitN(head + [sep] + tail, sep, n);
      { SplitFirst(head, sep, tail, n - 1); }
      [head] + SplitN(tail, sep, n - 1);
    }
  }

  /** What the head-free tail of a list of pieces inherits about the separator. */
  lemma TailSeparators(parts: seq<string>, sep: char)
    requires |parts| >= 2
    requires forall i :: 0 <= i < |parts| - 1 ==> sep !in parts[i]
    ensures sep !in parts[0]
    ensures forall i :: 0 <= i < |parts[1..]| - 1 ==> sep !in parts[1..][i]
    ensures parts[1..][|parts[1..]| - 1] == parts[|parts| - 1]
  {
    forall i | 0 <= i < |parts[1..]| - 1
      ensures sep !in parts[1..][i]
    {
      assert parts[1..][i] == parts[i + 1];
    }
  }

  /**
   * Splitting a joined list with enough splits recovers the list, provided
   * no piece but possibly the last holds the separator, and the last one does
   * not either unless the budget is exactly used up.
   */
  lemma {:induction false} SplitJoinN(parts: seq<string>, sep: char, n: nat)
    requires |parts| >= 1 && n >= |parts| - 1
    requires forall i :: 0 <= i < |parts| - 1 ==> sep !in parts[i]
    requires sep in parts[|parts| - 1] ==> n == |parts| - 1
    ensures SplitN(Join(parts, [sep]), sep, n) == parts
    decreases |parts|, 1
  {
    if |parts| == 1 {
      SplitJoinOne(parts[0], sep, n);
    } else {
      SplitJoinStep(parts, sep, n);
    }
  }

  /** The inductive step of `SplitJoinN`: the tail splits back, and the head is peeled off. */
  lemma {:induction false} SplitJoinStep(parts: seq<string>, sep: char, n: nat)
    requires |parts| >= 2 && n >= |parts| - 1
    requires forall i :: 0 <= i < |parts| - 1 ==> sep !in parts[i]
    requires sep in parts[|parts| - 1] ==> n == |parts| - 1
    ensures SplitN(Join(parts, [sep]), sep, n) == parts
    decreases |parts|, 0
  {
    var rest := parts[1..];
    assert parts == [parts[0]] + rest;
    TailSeparators(parts, sep);
    SplitJoinN(rest, sep, n - 1);
    SplitJoinCons(parts[0], rest, sep, n);
  }

  lemma {:induction false} SplitZero(s: string, sep: char)
    ensures SplitN(s, sep, 0) == [s]
  {
    if |s| > 0 {
      SplitZero(s[1..], sep);
      assert [s[0]] + s[1..] == s;
    }
  }

  lemma {:induction false} JoinLength(parts: seq<string>, sep: char)
    requires |parts| >= 1
    ensures |Join(parts, [sep])| >= |parts| - 1
  {
    if |parts| > 1 { JoinLength(parts[1..], sep); }
  }

  /** `sep.join(parts).split(sep) == parts` when no part holds `sep`. */
  lemma SplitJoin(parts: seq<string>, sep: char)
    requires |parts| >= 1
    requires forall i :: 0 <= i < |parts| ==> sep !in parts[i]
    ensures Split(Join(parts, [sep]), sep) == parts
  {
    JoinLength(parts, sep);
    SplitJoinN(parts, sep, |Join(parts, [sep])| + 1);
  }
}
