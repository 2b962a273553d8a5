/**
 * The string built-ins the logger relies on: `String.prototype.padStart`
 * and the decimal `toString` of an integer, with a parser that reads the
 * decimal text back.
 */
module Strings {
  import opened Js

  function Max(a: int, b: int): int { if a < b then b else a }

  /** The filler of padStart: `f` repeated and truncated to exactly `k` characters. */
  function Fill(f: string, k: nat): (r: string)
    requires |f| > 0
    ensures |r| == k
    decreases k
  {
    if k <= |f| then f[..k] else f + Fill(f, k - |f|)
  }

  lemma {:induction false} FillAt(f: string, k: nat, i: nat)
    requires |f| > 0 && i < k
    ensures Fill(f, k)[i] == f[i % |f|]
    decreases k
  {
    var m := |f|;
    if k <= m {
      assert Fill(f, k) == f[..k];
      ModSmall(i, m);
    } else if i < m {
      assert Fill(f, k) == f + Fill(f, k - m);
      ModSmall(i, m);
    } else {
      assert Fill(f, k) == f + Fill(f, k - m);
      FillAt(f, k - m, i - m);
      ModShift(i, m);
    }
  }

  lemma ModSmall(i: nat, m: nat)
    requires i < m
    ensures i % m == i
  {
  }

  lemma ModShift(i: nat, m: nat)
    requires 0 < m <= i
    ensures (i - m) % m == i % m
  {
    var q, r := (i - m) / m, (i - m) % m;
    assert i - m == q * m + r;
    assert i == (q + 1) * m + r;
    ModUnique(i, m, q + 1, r);
  }

  lemma ModUnique(i: int, m: int, q: int, r: int)
    requires m > 0 && 0 <= r < m && i == q * m + r
    ensures i % m == r
  {
    var q', r' := i / m, i % m;
    assert q * m + r == q' * m + r';
    assert (q - q') * m == r' - r;
    if q > q' {
      MulAtLeast(q - q', m);
    } else if q < q' {
      MulAtLeast(q' - q, m);
    }
  }

  lemma MulAtLeast(a: int, m: int)
    requires a >= 1 && m > 0
    ensures a * m >= m
  {
  }

  /**
   * `v.padStart(n, f)`: left-fills `v` with repetitions of `f` up to length `n`;
   * `v` unchanged when it is already long enough or the filler is empty.
   */
  function PadStart(v: string, n: int, f: string): (r: string)
    ensures n <= |v| || |f| == 0 ==> r == v
    ensures |f| > 0 ==> |r| == Max(|v|, n)
    ensures |r| >= |v| && r[|r| - |v|..] == v
    ensures forall i :: 0 <= i < |r| - |v| ==> r[i] == f[i % |f|]
  {
    if n <= |v| || |f| == 0 then v
    else
      var r := Fill(f, n - |v|) + v;
      assert forall i :: 0 <= i < |r| - |v| ==> r[i] == f[i % |f|] by {
        forall i | 0 <= i < |r| - |v| ensures r[i] == f[i % |f|] {
          FillAt(f, n - |v|, i);
        }
      }
      r
  }

  predicate IsDigit(c: char) { '0' <= c <= '9' }

  predicate AllDigits(s: string) { forall i :: 0 <= i < |s| ==> IsDigit(s[i]) }

  function DigitChar(d: nat): (c: char)
    requires d < 10
    ensures IsDigit(c) && (c - '0') as int == d
  {
    '0' + d as char
  }

  /** The decimal text of a natural number, most significant digit first, no leading zeros. */
  function NatToString(n: nat): (s: string)
    ensures |s| >= 1 && AllDigits(s)
    ensures s[0] == '0' ==> n == 0
    decreases n
  {
    if n < 10 then [DigitChar(n)] else NatToString(n / 10) + [DigitChar(n % 10)]
  }

  /** `Number.prototype.toString()` on an integer: an optional minus sign and the digits. */
  function IntToString(i: int): (s: string)
    ensures |s| >= 1
    ensures forall k :: 0 <= k < |s| ==> s[k] != ' '
    ensures i >= 0 <==> AllDigits(s)
    ensures i >= 0 && s[0] == '0' ==> i == 0
    ensures i < 0 ==> |s| >= 2 && s[0] == '-' && s[1] != '0' && AllDigits(s[1..])
    ensures forall k :: 0 <= k < |s| ==> s[k] == '-' || IsDigit(s[k])
    ensures i == 0 ==> s == "0"
  {
    if i < 0 then
      var s := "-" + NatToString(-i);
      assert !IsDigit(s[0]);
      assert s[1..] == NatToString(-i);
      s
    else NatToString(i)
  }

  /** `toFixed(2)` on an integer: the integer's text followed by two zero decimals. */
  function Fixed2(i: int): (s: string)
    ensures |s| >= 4 && s[|s| - 3..] == ".00"
    ensures s[..|s| - 3] == IntToString(i) && ParseInt(s[..|s| - 3]) == Some(i)
  {
    var s := IntToString(i) + ".00";
    assert s[..|s| - 3] == IntToString(i);
    IntToStringRoundTrip(i);
    s
  }

  function DigitsValue(s: string): nat
    requires AllDigits(s)
  {
    if s == [] then 0 else 10 * DigitsValue(s[..|s| - 1]) + (s[|s| - 1] - '0') as int
  }

  /** Reads back the text of an integer; `None` for anything `IntToString` cannot produce. */
  function ParseInt(s: string): Option<int>
  {
    if |s| >= 2 && s[0] == '-' && AllDigits(s[1..]) then Some(0 - DigitsValue(s[1..]))
    else if |s| >= 1 && AllDigits(s) then Some(DigitsValue(s))
    else None
  }

  lemma {:induction false} NatToStringRoundTrip(n: nat)
    ensures DigitsValue(NatToString(n)) == n
    decreases n
  {
    if n >= 10 {
      var p := NatToString(n / 10);
      var s := p + [DigitChar(n % 10)];
      assert s[..|s| - 1] == p;
      NatToStringRoundTrip(n / 10);
    }
  }

  /** The decimal text of every integer reads back as that integer. */
  lemma IntToStringRoundTrip(i: int)
    ensures ParseInt(IntToString(i)) == Some(i)
  {
    if i < 0 {
      var digits := NatToString(-i);
      var s := "-" + digits;
      assert IntToString(i) == s;
      assert s[1..] == digits;
      NatToStringRoundTrip(-i);
      assert ParseInt(s) == Some(0 - DigitsValue(digits));
    } else {
      var s := NatToString(i);
      assert IntToString(i) == s;
      assert IsDigit(s[0]);
      NatToStringRoundTrip(i);
      assert ParseInt(s) == Some(DigitsValue(s));
    }
  }

  /** Removes the space characters in front of a string. */
  function TrimLeadingSpaces(s: string): (r: string)
    ensures |r| <= |s| && r == s[|s| - |r|..]
    ensures r == [] || r[0] != ' '
    ensures forall i :: 0 <= i < |s| - |r| ==> s[i] == ' '
  {
    if |s| > 0 && s[0] == ' ' then TrimLeadingSpaces(s[1..]) else s
  }

  lemma {:induction false} TrimSpacePrefix(p: string, v: string)
    requires forall i :: 0 <= i < |p| ==> p[i] == ' '
    requires v == [] || v[0] != ' '
    ensures TrimLeadingSpaces(p + v) == v
    decreases |p|
  {
    if |p| > 0 {
      assert (p + v)[1..] == p[1..] + v;
      TrimSpacePrefix(p[1..], v);
    } else {
      assert p + v == v;
    }
  }

  /** The longest prefix that holds no space. */
  function Token(s: string): (r: string)
    ensures |r| <= |s| && r == s[..|r|]
    ensures forall i :: 0 <= i < |r| ==> r[i] != ' '
    ensures |r| < |s| ==> s[|r|] == ' '
  {
    if s == [] || s[0] == ' ' then [] else [s[0]] + Token(s[1..])
  }

  lemma {:induction false} TokenOfJoin(a: string, b: string)
    requires forall i :: 0 <= i < |a| ==> a[i] != ' '
    requires b == [] || b[0] == ' '
    ensures Token(a + b) == a
    decreases |a|
  {
    if |a| > 0 {
      assert (a + b)[1..] == a[1..] + b;
      TokenOfJoin(a[1..], b);
    } else {
      assert a + b == b;
    }
  }
}
