/** Small string and sequence helpers standing for the Python built-ins the
    plugin relies on: substring tests (`k in s`), `str.lower()`, `" ".join`,
    `str()` of an integer and `sum()`. */
module Common {

  datatype Option<+T> = None | Some(value: T)

  /** Python's `sub in s` on strings: `sub` occurs in `s` as a contiguous run. */
  predicate Contains(s: string, sub: string)
    decreases |s|
  {
    |sub| <= |s| && (s[..|sub|] == sub || Contains(s[1..], sub))
  }

  /** `sub` starts at position `i` of `s`. */
  ghost predicate OccursAt(s: string, sub: string, i: int)
  {
    0 <= i && i + |sub| <= |s| && s[i..i + |sub|] == sub
  }

  lemma OccursShift(s: string, sub: string, i: int)
    requires |s| >= 1 && i >= 1
    ensures OccursAt(s, sub, i) <==> OccursAt(s[1..], sub, i - 1)
  {
    if i + |sub| <= |s| {
      assert s[1..][i - 1..i - 1 + |sub|] == s[i..i + |sub|];
    }
  }

  lemma {:induction false} ContainsIffOccurs(s: string, sub: string)
    ensures Contains(s, sub) <==> exists i :: OccursAt(s, sub, i)
    decreases |s|
  {
    if |sub| <= |s| {
      assert OccursAt(s, sub, 0) <==> s[..|sub|] == sub;
      if s[..|sub|] != sub {
        ContainsIffOccurs(s[1..], sub);
        if Contains(s[1..], sub) {
          var i :| OccursAt(s[1..], sub, i);
          OccursShift(s, sub, i + 1);
        } else {
          forall i | 1 <= i ensures !OccursAt(s, sub, i) {
            OccursShift(s, sub, i);
          }
        }
      }
    }
  }

  /** A string lacking the first character of `sub` cannot contain `sub`. */
  lemma {:induction false} NotContainsWithoutLead(s: string, sub: string)
    requires |sub| > 0 && sub[0] !in s
    ensures !Contains(s, sub)
    decreases |s|
  {
    if |sub| <= |s| {
      assert s[0] != sub[0];
      NotContainsWithoutLead(s[1..], sub);
    }
  }

  /** A one-character substring occurs exactly when the character does. */
  lemma {:induction false} ContainsCharIffIn(s: string, c: char)
    ensures Contains(s, [c]) <==> c in s
    decreases |s|
  {
    if s != [] {
      ContainsCharIffIn(s[1..], c);
      assert s == [s[0]] + s[1..];
    }
  }

  /** `s.replace(str(c), "")`: `s` without any occurrence of `c`. */
  function Without(s: string, c: char): (r: string)
    ensures c !in r
    ensures forall d :: d in r <==> d in s && d != c
    ensures c !in s ==> r == s
  {
    if s == [] then []
    else
      assert s == [s[0]] + s[1..];
      (if s[0] == c then [] else [s[0]]) + Without(s[1..], c)
  }

  /** Removing `c` works piece by piece, so the kept characters stay in order. */
  lemma {:induction false} WithoutAppend(a: string, b: string, c: char)
    ensures Without(a + b, c) == Without(a, c) + Without(b, c)
    decreases |a|
  {
    if a == [] {
      assert a + b == b;
    } else {
      var head := if a[0] == c then [] else [a[0]];
      assert (a + b)[0] == a[0] && (a + b)[1..] == a[1..] + b;
      calc {
        Without(a + b, c);
        head + Without(a[1..] + b, c);
        { WithoutAppend(a[1..], b, c); }
        head + (Without(a[1..], c) + Without(b, c));
        (head + Without(a[1..], c)) + Without(b, c);
      }
    }
  }

  /** `str.lower()` restricted to ASCII letters; other characters are kept. */
  function LowerChar(c: char): char
  {
    if 'A' <= c <= 'Z' then (c as int + 32) as char else c
  }

  function Lower(s: string): (r: string)
    ensures |r| == |s|
    ensures forall i :: 0 <= i < |s| ==> r[i] == LowerChar(s[i])
  {
    if s == [] then [] else [LowerChar(s[0])] + Lower(s[1..])
  }

  /** `sep.join(parts)`. */
  function Join(sep: string, parts: seq<string>): string
  {
    if parts == [] then ""
    else if |parts| == 1 then parts[0]
    else parts[0] + sep + Join(sep, parts[1..])
  }

  /** The joined text starts with the first part followed by the separator
      and ends with the separator followed by the last part. */
  lemma {:induction false} JoinEnds(sep: string, parts: seq<string>)
    requires |parts| >= 2
    ensures |parts[0] + sep| <= |Join(sep, parts)|
    ensures Join(sep, parts)[..|parts[0] + sep|] == parts[0] + sep
    ensures |sep + parts[|parts| - 1]| <= |Join(sep, parts)|
    ensures Join(sep, parts)[|Join(sep, parts)| - |sep + parts[|parts| - 1]|..] == sep + parts[|parts| - 1]
  {
    var j := Join(sep, parts);
    var rest := Join(sep, parts[1..]);
    assert j == parts[0] + sep + rest;
    assert j[..|parts[0] + sep|] == parts[0] + sep;
    var last := parts[|parts| - 1];
    if |parts| == 2 {
      assert rest == last;
      assert j == parts[0] + (sep + last);
    } else {
      JoinEnds(sep, parts[1..]);
      assert parts[1..][|parts[1..]| - 1] == last;
      assert j[|j| - |sep + last|..] == rest[|rest| - |sep + last|..];
    }
  }

  /** Decimal digits of a natural number, as `str(n)` prints it. */
  function NatToString(n: nat): (r: string)
    ensures |r| >= 1
    ensures forall i :: 0 <= i < |r| ==> '0' <= r[i] <= '9'
    decreases n
  {
    if n < 10 then [DigitChar(n)] else NatToString(n / 10) + [DigitChar(n % 10)]
  }

  function DigitChar(d: nat): (c: char)
    requires d < 10
    ensures '0' <= c <= '9'
  {
    ('0' as int + d) as char
  }

  /** `str(i)` for an integer: a minus sign before the digits of a negative value. */
  function IntToString(i: int): (r: string)
    ensures |r| >= 1
    ensures (i < 0) == (r[0] == '-')
  {
    if i < 0 then "-" + NatToString(-i) else NatToString(i)
  }

  /** Reads a run of decimal digits back as a number (undoes `NatToString`). */
  function DigitsValue(s: string): nat
  {
    if s == [] then 0
    else DigitsValue(s[..|s| - 1]) * 10 + (if '0' <= s[|s| - 1] <= '9' then s[|s| - 1] as int - '0' as int else 0)
  }

  lemma {:induction false} NatToStringRoundTrip(n: nat)
    ensures DigitsValue(NatToString(n)) == n
    decreases n
  {
    var s := NatToString(n);
    if n < 10 {
      assert s[..0] == [];
    } else {
      NatToStringRoundTrip(n / 10);
      assert s[..|s| - 1] == NatToString(n / 10);
    }
  }

  /** `sum(xs)`. */
  function Sum(xs: seq<int>): int
  {
    if xs == [] then 0 else Sum(xs[..|xs| - 1]) + xs[|xs| - 1]
  }

  /** One more element adds its value to the prefix's sum. */
  lemma SumPrefixStep(xs: seq<int>, k: nat)
    requires k < |xs|
    ensures Sum(xs[..k + 1]) == Sum(xs[..k]) + xs[k]
  {
    assert xs[..k + 1][..k] == xs[..k];
  }

  /** A prefix of non-negative widths sums to no more than a longer prefix. */
  lemma {:induction false} SumPrefixMonotone(xs: seq<int>, j: nat, k: nat)
    requires j <= k <= |xs|
    requires forall i :: 0 <= i < |xs| ==> xs[i] >= 0
    ensures Sum(xs[..j]) <= Sum(xs[..k])
    decreases k - j
  {
    if j < k {
      SumPrefixMonotone(xs, j, k - 1);
      assert xs[..k][..k - 1] == xs[..k - 1];
    }
  }
}
