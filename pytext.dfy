/** The Python string operations the clock relies on: `p in s`,
    `s.replace(p, r)`, `s.split(sep)`, `str(n)`, `"{:0w}".format(n)` and
    `int(s)`, each with the facts the formatting code depends on. */
module PyText {
  import opened Errors

  // ---------------------------------------------------------------------
  // Occurrence and replacement
  // ---------------------------------------------------------------------

  /** `p in s`: `p` starts at some position of `s`. */
  predicate Occurs(s: string, p: string)
    decreases |s|
  {
    p <= s || (s != [] && Occurs(s[1..], p))
  }

  /** `s.replace(p, r)`: the occurrences of `p` are found scanning left to
      right, never overlapping, and each is replaced by `r`. */
  function Replace(s: string, p: string, r: string): string
    requires p != []
    decreases |s|
  {
    if s == [] then []
    else if p <= s then r + Replace(s[|p|..], p, r)
    else [s[0]] + Replace(s[1..], p, r)
  }

  lemma {:induction false} OccursSuffix(s: string, k: nat, p: string)
    requires k <= |s|
    requires Occurs(s[k..], p)
    ensures Occurs(s, p)
    decreases k
  {
    if k > 0 {
      assert s[1..][k - 1..] == s[k..];
      OccursSuffix(s[1..], k - 1, p);
    }
  }

  /** A two-character pattern is absent from `a + b` when it is absent
      from both halves and does not straddle the seam. */
  lemma {:induction false} NoPairInConcat(a: string, b: string, q: string)
    requires |q| == 2 && !Occurs(a, q) && !Occurs(b, q)
    requires a != [] && b != [] ==> !(a[|a| - 1] == q[0] && b[0] == q[1])
    ensures !Occurs(a + b, q)
    decreases |a|
  {
    if a == [] {
      assert a + b == b;
    } else {
      assert !(q <= a + b) by {
        if |a| >= 2 {
          assert (a + b)[..2] == a[..2];
          assert !(q <= a);
        } else {
          assert (a + b)[0] == a[0];
          assert |a + b| >= 2 ==> (a + b)[1] == b[0];
        }
      }
      assert (a + b)[1..] == a[1..] + b;
      assert a[1..] != [] ==> a[1..][|a[1..]| - 1] == a[|a| - 1];
      NoPairInConcat(a[1..], b, q);
    }
  }

  /** A pattern whose first character is missing from the text is absent. */
  lemma {:induction false} NoOccurrenceWithoutHead(s: string, q: string)
    requires q != [] && q[0] !in s
    ensures !Occurs(s, q)
    decreases |s|
  {
    if s != [] {
      assert !(q <= s) by { assert s[0] != q[0]; }
      NoOccurrenceWithoutHead(s[1..], q);
    }
  }

  /** Replacing a pattern that does not occur leaves the text alone. */
  lemma {:induction false} ReplaceAbsent(s: string, p: string, r: string)
    requires p != []
    requires !Occurs(s, p)
    ensures Replace(s, p, r) == s
    decreases |s|
  {
    if s != [] {
      ReplaceAbsent(s[1..], p, r);
    }
  }

  /** A text that starts with the pattern starts with the replacement. */
  lemma ReplaceLeadingMatch(p: string, t: string, r: string)
    requires p != []
    ensures Replace(p + t, p, r) == r + Replace(t, p, r)
  {
    assert p <= p + t;
    assert (p + t)[|p|..] == t;
  }

  /** A prefix without the pattern's first character is copied unchanged. */
  lemma {:induction false} ReplaceSkipsPrefix(u: string, t: string, p: string, r: string)
    requires p != [] && p[0] !in u
    ensures Replace(u + t, p, r) == u + Replace(t, p, r)
    decreases |u|
  {
    if u != [] {
      assert !(p <= u + t) by { assert (u + t)[0] == u[0]; }
      assert (u + t)[1..] == u[1..] + t;
      ReplaceSkipsPrefix(u[1..], t, p, r);
    } else {
      assert u + t == t;
    }
  }

  /** Every character of the result comes from the text or the replacement. */
  lemma {:induction false} ReplaceChars(s: string, p: string, r: string)
    requires p != []
    ensures forall ch :: ch in Replace(s, p, r) ==> ch in s || ch in r
    decreases |s|
  {
    if s != [] {
      if p <= s {
        ReplaceChars(s[|p|..], p, r);
        assert forall ch :: ch in s[|p|..] ==> ch in s;
      } else {
        ReplaceChars(s[1..], p, r);
        assert forall ch :: ch in s[1..] ==> ch in s;
      }
    }
  }

  /** Replacing a one-character pattern by text without that character
      removes the character altogether. */
  lemma {:induction false} ReplaceRemovesChar(s: string, c: char, r: string)
    requires c !in r
    ensures c !in Replace(s, [c], r)
    decreases |s|
  {
    if s != [] {
      if [c] <= s {
        ReplaceRemovesChar(s[1..], c, r);
      } else {
        ReplaceRemovesChar(s[1..], c, r);
      }
    }
  }

  /** A character absent from the text and the replacement stays absent. */
  lemma ReplaceKeepsCharAbsent(s: string, p: string, r: string, c: char)
    requires p != []
    requires c !in s && c !in r
    ensures c !in Replace(s, p, r)
  {
    ReplaceChars(s, p, r);
  }

  lemma ReplaceHead(s: string, p: string, r: string)
    requires p != [] && s != [] && r != []
    ensures Replace(s, p, r) != []
    ensures Replace(s, p, r)[0] == s[0] || Replace(s, p, r)[0] == r[0]
  {
  }

  /** Replacing a doubled character `cc` by a non-empty text without `c`
      leaves no `cc` behind. */
  lemma {:induction false} ReplaceRemovesPair(s: string, c: char, r: string)
    requires r != [] && c !in r
    ensures !Occurs(Replace(s, [c, c], r), [c, c])
    decreases |s|
  {
    var q := [c, c];
    if s != [] {
      NoOccurrenceWithoutHead(r, q);
      if q <= s {
        var t := Replace(s[2..], q, r);
        ReplaceRemovesPair(s[2..], c, r);
        NoPairInConcat(r, t, q);
      } else {
        var t := Replace(s[1..], q, r);
        ReplaceRemovesPair(s[1..], c, r);
        assert !Occurs([s[0]], q);
        if s[1..] != [] { ReplaceHead(s[1..], q, r); }
        assert s[0] == c && |s| >= 2 ==> s[1] != c;
        NoPairInConcat([s[0]], t, q);
      }
    }
  }

  /** A doubled character `cc` absent from the text stays absent when any
      pattern is replaced by a non-empty text without `c`. */
  lemma {:induction false} ReplaceKeepsPairAbsent(s: string, p: string, r: string, c: char)
    requires p != [] && r != [] && c !in r
    requires !Occurs(s, [c, c])
    ensures !Occurs(Replace(s, p, r), [c, c])
    decreases |s|
  {
    var q := [c, c];
    if s != [] {
      NoOccurrenceWithoutHead(r, q);
      if p <= s {
        var t := Replace(s[|p|..], p, r);
        assert !Occurs(s[|p|..], q) by {
          if Occurs(s[|p|..], q) { OccursSuffix(s, |p|, q); }
        }
        ReplaceKeepsPairAbsent(s[|p|..], p, r, c);
        NoPairInConcat(r, t, q);
      } else {
        var t := Replace(s[1..], p, r);
        ReplaceKeepsPairAbsent(s[1..], p, r, c);
        assert !Occurs([s[0]], q);
        if s[1..] != [] { ReplaceHead(s[1..], p, r); }
        assert s[0] == c && |s| >= 2 ==> s[1] != c by { assert !(q <= s); }
        NoPairInConcat([s[0]], t, q);
      }
    }
  }

  // ---------------------------------------------------------------------
  // Splitting
  // ---------------------------------------------------------------------

  /** `s.split(sep)` for a one-character separator: the pieces between
      consecutive separators, empty pieces included. */
  function Split(s: string, sep: char): (parts: seq<string>)
    ensures |parts| >= 1
    decreases |s|
  {
    if s == [] then [[]]
    else
      var rest := Split(s[1..], sep);
      if s[0] == sep then [[]] + rest else [[s[0]] + rest[0]] + rest[1..]
  }

  /** `sep.join(parts)`. */
  function Join(parts: seq<string>, sep: char): string
    requires |parts| >= 1
    decreases |parts|
  {
    if |parts| == 1 then parts[0] else parts[0] + [sep] + Join(parts[1..], sep)
  }

  /** Splitting loses nothing: joining the pieces gives the text back, and
      no piece contains the separator. */
  lemma {:induction false} JoinSplit(s: string, sep: char)
    ensures Join(Split(s, sep), sep) == s
    ensures forall k | 0 <= k < |Split(s, sep)| :: sep !in Split(s, sep)[k]
    decreases |s|
  {
    if s != [] {
      var rest := Split(s[1..], sep);
      JoinSplit(s[1..], sep);
      if s[0] == sep {
        assert ([[]] + rest)[1..] == rest;
      } else {
        var parts := [[s[0]] + rest[0]] + rest[1..];
        assert parts[1..] == rest[1..];
        assert forall k | 1 <= k < |parts| :: parts[k] == rest[k];
      }
    }
  }

  /** Text without the separator is one piece. */
  lemma {:induction false} SplitWithoutSeparator(s: string, sep: char)
    requires sep !in s
    ensures Split(s, sep) == [s]
    decreases |s|
  {
    if s != [] {
      SplitWithoutSeparator(s[1..], sep);
      assert [s[0]] + s[1..] == s;
    }
  }

  /** The first separator ends the first piece. */
  lemma {:induction false} SplitAtFirst(a: string, sep: char, b: string)
    requires sep !in a
    ensures Split(a + [sep] + b, sep) == [a] + Split(b, sep)
    decreases |a|
  {
    var s := a + [sep] + b;
    if a == [] {
      assert s[1..] == b;
    } else {
      assert s[0] == a[0] && s[1..] == a[1..] + [sep] + b;
      SplitAtFirst(a[1..], sep, b);
      assert [a[0]] + a[1..] == a;
    }
  }

  // ---------------------------------------------------------------------
  // Integers as text
  // ---------------------------------------------------------------------

  predicate IsDigit(ch: char) {
    '0' <= ch <= '9'
  }

  predicate AllDigits(s: string) {
    forall k | 0 <= k < |s| :: IsDigit(s[k])
  }

  /** Text made only of digits and minus signs: what `str` and `format`
      produce for an integer. */
  predicate Numeric(s: string) {
    forall k | 0 <= k < |s| :: IsDigit(s[k]) || s[k] == '-'
  }

  function DigitChar(d: nat): char
    requires d < 10
  {
    ('0' as int + d) as char
  }

  function DigitsValue(s: string): nat
    requires AllDigits(s)
    decreases |s|
  {
    if s == [] then 0 else DigitsValue(s[..|s| - 1]) * 10 + (s[|s| - 1] as int - '0' as int)
  }

  /** The decimal digits of `n`, without leading zeros. */
  function NatDigits(n: nat): (s: string)
    ensures 1 <= |s| && AllDigits(s)
    decreases n
  {
    if n < 10 then [DigitChar(n)]
    else NatDigits(n / 10) + [DigitChar(n % 10)]
  }

  /** The digits read back as `n`; a single digit exactly below 10. */
  lemma {:induction false} NatDigitsValue(n: nat)
    ensures DigitsValue(NatDigits(n)) == n
    ensures n < 10 <==> |NatDigits(n)| == 1
    decreases n
  {
    if n >= 10 {
      var s := NatDigits(n);
      assert s[..|s| - 1] == NatDigits(n / 10);
      NatDigitsValue(n / 10);
    }
  }

  /** `str(n)`. */
  function Str(n: int): (s: string)
    ensures 1 <= |s| && Numeric(s)
    ensures n >= 0 ==> AllDigits(s)
  {
    if n < 0 then "-" + NatDigits(-n) else NatDigits(n)
  }

  /** `k` zero digits (none for a negative `k`). */
  function Zeros(k: int): (s: string)
    ensures |s| == if k < 0 then 0 else k
    ensures forall i | 0 <= i < |s| :: s[i] == '0'
    decreases k
  {
    if k <= 0 then [] else Zeros(k - 1) + "0"
  }

  /** The digits of `n` after enough zeros to fill `width` characters. */
  function PaddedDigits(n: nat, width: int): (s: string)
    ensures |s| == if width > |NatDigits(n)| then width else |NatDigits(n)|
    ensures 1 <= |s| && AllDigits(s)
  {
    LeadingZerosAddNothing(width - |NatDigits(n)|, NatDigits(n));
    Zeros(width - |NatDigits(n)|) + NatDigits(n)
  }

  /** Leading zeros do not change the value read back. */
  lemma PaddedDigitsValue(n: nat, width: int)
    ensures DigitsValue(PaddedDigits(n, width)) == n
  {
    LeadingZerosAddNothing(width - |NatDigits(n)|, NatDigits(n));
    NatDigitsValue(n);
  }

  /** `"{:0w}".format(n)`: the sign, then zeros, then the digits of `n`,
      filling at least `width` characters. */
  function ZeroPadded(n: int, width: int): (s: string)
    ensures |s| == if width > |Str(n)| then width else |Str(n)|
    ensures 1 <= |s| && Numeric(s)
    ensures (n < 0) == (s[0] == '-')
    ensures n >= 0 ==> AllDigits(s)
  {
    if n < 0 then "-" + PaddedDigits(-n, width - 1) else PaddedDigits(n, width)
  }

  /** `int(s)` for text of an optional sign followed by ASCII digits;
      anything else is a ValueError. */
  function ParseInt(s: string): Option<int> {
    if s != [] && (s[0] == '-' || s[0] == '+') then
      if |s| > 1 && AllDigits(s[1..]) then
        var v: int := DigitsValue(s[1..]);
        Some(if s[0] == '-' then -v else v)
      else None
    else if s != [] && AllDigits(s) then Some(DigitsValue(s))
    else None
  }

  lemma {:induction false} LeadingZerosAddNothing(k: int, t: string)
    requires AllDigits(t)
    ensures AllDigits(Zeros(k) + t)
    ensures DigitsValue(Zeros(k) + t) == DigitsValue(t)
    decreases |t|
  {
    var z := Zeros(k);
    if t == [] {
      assert z + t == z;
      AllZerosValue(z);
    } else {
      var u := z + t;
      assert u[..|u| - 1] == z + t[..|t| - 1];
      LeadingZerosAddNothing(k, t[..|t| - 1]);
    }
  }

  lemma {:induction false} AllZerosValue(z: string)
    requires forall k | 0 <= k < |z| :: z[k] == '0'
    ensures AllDigits(z) && DigitsValue(z) == 0
    decreases |z|
  {
    if z != [] {
      AllZerosValue(z[..|z| - 1]);
    }
  }

  /** `int(str(n)) == n`. */
  lemma StrRoundTrip(n: int)
    ensures ParseInt(Str(n)) == Some(n)
  {
    if n < 0 {
      assert Str(n)[1..] == NatDigits(-n);
      NatDigitsValue(-n);
    } else {
      NatDigitsValue(n);
    }
  }

  lemma ParseUnsigned(s: string)
    requires s != [] && AllDigits(s)
    ensures ParseInt(s) == Some(DigitsValue(s))
  {
    assert IsDigit(s[0]);
  }

  lemma ParseNegative(s: string)
    requires s != [] && AllDigits(s)
    ensures ParseInt("-" + s) == Some(-(DigitsValue(s) as int))
  {
    assert ("-" + s)[1..] == s;
  }

  /** `int("{:0w}".format(n)) == n`: the padding never changes the value. */
  lemma ZeroPaddedRoundTrip(n: int, width: int)
    ensures ParseInt(ZeroPadded(n, width)) == Some(n)
  {
    if n < 0 {
      var d := PaddedDigits(-n, width - 1);
      calc {
        ParseInt(ZeroPadded(n, width));
        ParseInt("-" + d);
        { ParseNegative(d); }
        Some(-(DigitsValue(d) as int));
        { PaddedDigitsValue(-n, width - 1); }
        Some(n);
      }
    } else {
      var d := PaddedDigits(n, width);
      calc {
        ParseInt(ZeroPadded(n, width));
        ParseInt(d);
        { ParseUnsigned(d); }
        Some(DigitsValue(d) as int);
        { PaddedDigitsValue(n, width); }
        Some(n);
      }
    }
  }
}
