/** String helpers standing for the Python string operations the engine uses:
    `str.lower()`, the `in` substring test, `str.join` and f-string rendering
    of integers. */
module Text {

  /** `str.lower()` on one character, for the ASCII letters. */
  function LowerChar(c: char): char
  {
    if 'A' <= c <= 'Z' then (c as int + 32) as char else c
  }

  function Lower(s: string): (r: string)
    ensures |r| == |s|
    ensures forall i :: 0 <= i < |r| ==> !('A' <= r[i] <= 'Z')
  {
    seq(|s|, i requires 0 <= i < |s| => LowerChar(s[i]))
  }

  /** `t` occurs in `s` starting at position `i`. */
  predicate OccursAt(t: string, s: string, i: int)
  {
    0 <= i <= |s| - |t| && s[i..i + |t|] == t
  }

  /** Reference meaning of "t occurs in s". */
  ghost predicate IsInfix(t: string, s: string)
  {
    exists i :: OccursAt(t, s, i)
  }

  predicate StartsWith(s: string, t: string)
  {
    |t| <= |s| && s[..|t|] == t
  }

  /** Python's `t in s`, as a scan over the start positions of `s`. */
  function Contains(s: string, t: string): (found: bool)
    ensures found ==> |t| <= |s|
    decreases |s|
  {
    StartsWith(s, t) || (|s| > 0 && Contains(s[1..], t))
  }

  lemma {:induction false} ContainsIsInfix(s: string, t: string)
    ensures Contains(s, t) <==> IsInfix(t, s)
    decreases |s|
  {
    if StartsWith(s, t) {
      assert OccursAt(t, s, 0);
    } else if |s| > 0 {
      ContainsIsInfix(s[1..], t);
      if Contains(s[1..], t) {
        var i :| OccursAt(t, s[1..], i);
        assert s[i + 1..i + 1 + |t|] == s[1..][i..i + |t|];
        assert OccursAt(t, s, i + 1);
      }
      if IsInfix(t, s) {
        var i :| OccursAt(t, s, i);
        if i == 0 {
          assert false;
        }
        assert s[1..][i - 1..i - 1 + |t|] == s[i..i + |t|];
        assert OccursAt(t, s[1..], i - 1);
      }
    }
  }

  lemma InfixOfLeft(t: string, a: string, b: string)
    requires IsInfix(t, a)
    ensures IsInfix(t, a + b)
  {
    var i :| OccursAt(t, a, i);
    assert (a + b)[i..i + |t|] == a[i..i + |t|];
    assert OccursAt(t, a + b, i);
  }

  lemma InfixOfRight(t: string, a: string, b: string)
    requires IsInfix(t, b)
    ensures IsInfix(t, a + b)
  {
    var i :| OccursAt(t, b, i);
    assert (a + b)[|a| + i..|a| + i + |t|] == b[i..i + |t|];
    assert OccursAt(t, a + b, |a| + i);
  }

  /** `sep.join(parts)`. */
  function Join(parts: seq<string>, sep: string): string
    decreases |parts|
  {
    if |parts| == 0 then ""
    else if |parts| == 1 then parts[0]
    else parts[0] + sep + Join(parts[1..], sep)
  }

  /** Every part survives the join as a contiguous piece of the result. */
  lemma {:induction false} JoinKeepsPart(parts: seq<string>, sep: string, k: nat)
    requires k < |parts|
    ensures IsInfix(parts[k], Join(parts, sep))
    decreases |parts|
  {
    if |parts| == 1 {
      assert OccursAt(parts[0], Join(parts, sep), 0);
    } else if k == 0 {
      assert Join(parts, sep)[0..|parts[0]|] == parts[0];
      assert OccursAt(parts[0], Join(parts, sep), 0);
    } else {
      JoinKeepsPart(parts[1..], sep, k - 1);
      InfixOfRight(parts[k], parts[0] + sep, Join(parts[1..], sep));
    }
  }

  function DigitChar(d: nat): char
    requires d < 10
  {
    "0123456789"[d]
  }

  function NatToString(n: nat): string
    decreases n
  {
    if n < 10 then [DigitChar(n)] else NatToString(n / 10) + [DigitChar(n % 10)]
  }

  /** `str(i)` for a Python `int`. */
  function IntToString(i: int): string
  {
    if i < 0 then "-" + NatToString(-i) else NatToString(i)
  }
}
