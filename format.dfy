/** Text fragments the frame writers assemble: quoting, integer formatting,
    and the `|`-joined form of a style set together with its inverse. */
module Format {

  /** `"<s>"`: a value wrapped in double quotes, with no escaping. */
  function Quote(s: string): string
  {
    "\"" + s + "\""
  }

  function DigitChar(n: nat): char
    requires n < 10
  {
    "0123456789"[n]
  }

  /** Decimal digits of a natural number, most significant first. */
  function NatToString(n: nat): string
    decreases n
  {
    if n < 10 then [DigitChar(n)] else NatToString(n / 10) + [DigitChar(n % 10)]
  }

  /** The text an integral number takes in a template string: an optional
      minus sign followed by decimal digits. */
  function IntToString(n: int): string
  {
    if n < 0 then "-" + NatToString(-n) else NatToString(n)
  }

  predicate IsDigit(c: char)
  {
    '0' <= c <= '9'
  }

  lemma {:induction false} NatToStringDigits(n: nat)
    ensures |NatToString(n)| > 0
    ensures forall i :: 0 <= i < |NatToString(n)| ==> IsDigit(NatToString(n)[i])
    decreases n
  {
    if n >= 10 {
      NatToStringDigits(n / 10);
    }
  }

  /** A number's text holds neither a quote nor a line break: numbers are
      never written quoted and never break a line. */
  lemma IntToStringPlain(n: int)
    ensures |IntToString(n)| > 0
    ensures '"' !in IntToString(n) && '\n' !in IntToString(n) && '|' !in IntToString(n)
  {
    NatToStringDigits(if n < 0 then -n else n);
  }

  /** Members separated by `|`, in order. */
  function Join(ms: seq<string>): string
    decreases |ms|
  {
    if |ms| == 0 then ""
    else if |ms| == 1 then ms[0]
    else Join(ms[..|ms| - 1]) + "|" + ms[|ms| - 1]
  }

  /** The pieces of `s` between `|` separators (the inverse of Join). */
  function Split(s: string): (r: seq<string>)
    ensures |r| >= 1
    decreases |s|
  {
    if |s| == 0 then [""]
    else if s[|s| - 1] == '|' then Split(s[..|s| - 1]) + [""]
    else
      var r := Split(s[..|s| - 1]);
      r[..|r| - 1] + [r[|r| - 1] + [s[|s| - 1]]]
  }

  predicate BarFree(m: string)
  {
    '|' !in m
  }

  lemma {:induction false} SplitBarFree(m: string)
    requires BarFree(m)
    ensures Split(m) == [m]
    decreases |m|
  {
    if |m| > 0 {
      SplitBarFree(m[..|m| - 1]);
      assert m[..|m| - 1] + [m[|m| - 1]] == m;
    }
  }

  lemma {:induction false} SplitAfterBar(x: string, m: string)
    requires BarFree(m)
    ensures Split(x + "|" + m) == Split(x) + [m]
    decreases |m|
  {
    var s := x + "|" + m;
    if |m| == 0 {
      assert s == x + "|";
      assert s[..|s| - 1] == x && s[|s| - 1] == '|';
    } else {
      var m', c := m[..|m| - 1], m[|m| - 1];
      assert s[..|s| - 1] == x + "|" + m';
      assert s[|s| - 1] == c && c != '|';
      var r := Split(x + "|" + m');
      assert r == Split(x) + [m'] by { SplitAfterBar(x, m'); }
      assert Split(s) == r[..|r| - 1] + [r[|r| - 1] + [c]];
      assert r[..|r| - 1] == Split(x) && r[|r| - 1] == m';
      assert m' + [c] == m;
    }
  }

  /** Joining at least one `|`-free member and splitting again gives back the
      members in their order: the joined text has exactly one separator
      between neighbours and none before the first or after the last. */
  lemma {:induction false} SplitJoin(ms: seq<string>)
    requires |ms| >= 1
    requires forall i :: 0 <= i < |ms| ==> BarFree(ms[i])
    ensures Split(Join(ms)) == ms
    decreases |ms|
  {
    if |ms| == 1 {
      SplitBarFree(ms[0]);
    } else {
      SplitJoin(ms[..|ms| - 1]);
      SplitAfterBar(Join(ms[..|ms| - 1]), ms[|ms| - 1]);
      assert ms[..|ms| - 1] + [ms[|ms| - 1]] == ms;
    }
  }

  /** k `|`-free members are joined with exactly k - 1 separators. */
  lemma {:induction false} JoinBarCount(ms: seq<string>)
    requires |ms| >= 1
    requires forall i :: 0 <= i < |ms| ==> BarFree(ms[i])
    ensures multiset(Join(ms))['|'] == |ms| - 1
    decreases |ms|
  {
    if |ms| == 1 {
      assert '|' !in multiset(ms[0]);
    } else {
      var last := ms[|ms| - 1];
      JoinBarCount(ms[..|ms| - 1]);
      assert '|' !in multiset(last);
      assert multiset(Join(ms)) == multiset(Join(ms[..|ms| - 1])) + multiset("|") + multiset(last);
    }
  }
}
