/**
 * JavaScript value semantics that the modelled components rely on:
 * null/undefined as `Option`, truthiness of optional strings and numbers,
 * and the few `String.prototype` operations the components call
 * (`includes`, `slice`, `replace` with a one-character pattern) plus the
 * decimal rendering of a non-negative integer inside a template literal.
 */
module Js {

  /** A value that may be `null` or `undefined`. */
  datatype Option<+T> = None | Some(value: T)

  /** `if (s)` for an optional string: `null`, `undefined` and `""` are falsy. */
  predicate Truthy(s: Option<string>)
  {
    s.Some? && s.value != ""
  }

  /** `if (x)` for an optional number: `undefined` and `0` are falsy. */
  predicate TruthyNumber(x: Option<real>)
  {
    x.Some? && x.value != 0.0
  }

  /** `s.includes(sub)`: does `sub` occur in `s` at some position? */
  function Contains(s: string, sub: string): (found: bool)
    decreases |s|
  {
    if |sub| > |s| then false
    else if s[..|sub|] == sub then true
    else Contains(s[1..], sub)
  }

  /** `sub` occurs in `s` starting at position `i`. */
  predicate OccursAt(s: string, sub: string, i: nat)
  {
    i + |sub| <= |s| && s[i..i + |sub|] == sub
  }

  /** `Contains` is exactly "there is a position where `sub` occurs". */
  lemma ContainsIff(s: string, sub: string)
    ensures Contains(s, sub) <==> exists i: nat :: OccursAt(s, sub, i)
  {
    if Contains(s, sub) {
      ContainsWitness(s, sub);
    }
    forall i: nat | OccursAt(s, sub, i)
      ensures Contains(s, sub)
    {
      ContainsAt(s, sub, i);
    }
  }

  /** A positive answer comes from an actual occurrence. */
  lemma {:induction false} ContainsWitness(s: string, sub: string)
    requires Contains(s, sub)
    ensures exists i: nat :: OccursAt(s, sub, i)
    decreases |s|
  {
    if s[..|sub|] == sub {
      assert OccursAt(s, sub, 0);
    } else {
      ContainsWitness(s[1..], sub);
      var j: nat :| OccursAt(s[1..], sub, j);
      var t := s[1..];
      forall k | 0 <= k < |sub| ensures s[j + 1..j + 1 + |sub|][k] == sub[k] {
        assert s[j + 1 + k] == t[j + k] == t[j..j + |sub|][k];
      }
      assert s[j + 1..j + 1 + |sub|] == sub;
      assert OccursAt(s, sub, j + 1);
    }
  }

  /** One occurrence is enough for `includes` to answer true. */
  lemma {:induction false} ContainsAt(s: string, sub: string, i: nat)
    requires OccursAt(s, sub, i)
    ensures Contains(s, sub)
    decreases i
  {
    if i == 0 {
      assert s[..|sub|] == s[0..|sub|];
    } else if s[..|sub|] != sub {
      var t := s[1..];
      forall k | 0 <= k < |sub| ensures t[i - 1..i - 1 + |sub|][k] == sub[k] {
        assert t[i - 1 + k] == s[i + k] == s[i..i + |sub|][k];
      }
      assert t[i - 1..i - 1 + |sub|] == sub;
      ContainsAt(t, sub, i - 1);
    }
  }

  /** In `lead + sub + rest`, `sub` starts right after `lead`. */
  lemma OccursAfter(lead: string, sub: string, rest: string)
    ensures OccursAt(lead + sub + rest, sub, |lead|)
  {
    assert (lead + sub + rest)[|lead|..|lead| + |sub|] == sub;
  }

  /** If some character of `sub` never appears in `s`, `includes` answers false. */
  lemma NotContainsMissingChar(s: string, sub: string, c: char)
    requires c in sub && c !in s
    ensures !Contains(s, sub)
  {
    ContainsIff(s, sub);
  }

  /** `s.slice(0, n)`: the first `n` characters, or all of `s` if it is shorter. */
  function SliceHead(s: string, n: nat): (r: string)
    ensures |r| == if |s| < n then |s| else n
    ensures r <= s
  {
    if |s| < n then s else s[..n]
  }

  /** `s.slice(-n)` for `n > 0`: the last `n` characters, or all of `s` if it is shorter. */
  function SliceLast(s: string, n: nat): (r: string)
    requires n > 0
    ensures |r| == if |s| < n then |s| else n
    ensures exists p :: 0 <= p <= |s| && r == s[p..]
  {
    if |s| <= n then assert s == s[0..]; s else s[|s| - n..]
  }

  /** Position of the first `c` in `s`, or `-1` (`s.indexOf(c)`). */
  function IndexOf(s: string, c: char): (k: int)
    ensures -1 <= k < |s|
    ensures k == -1 <==> c !in s
    ensures k >= 0 ==> s[k] == c && c !in s[..k]
  {
    if s == [] then -1
    else if s[0] == c then 0
    else
      var k := IndexOf(s[1..], c);
      if k == -1 then -1 else k + 1
  }

  /** The first `c` in `a + b` lies in `b` when `a` has none. */
  lemma {:induction false} IndexOfAppend(a: string, b: string, c: char)
    requires c !in a
    ensures IndexOf(a + b, c) == if c in b then |a| + IndexOf(b, c) else -1
    decreases |a|
  {
    if a != [] {
      assert (a + b)[1..] == a[1..] + b;
      IndexOfAppend(a[1..], b, c);
    } else {
      assert a + b == b;
    }
  }

  /**
   * `s.replace(a, b)` for one-character strings `a` and `b`: JavaScript replaces
   * only the FIRST occurrence when the pattern is a string.
   */
  function ReplaceFirst(s: string, a: char, b: char): string
  {
    if s == [] then []
    else if s[0] == a then [b] + s[1..]
    else [s[0]] + ReplaceFirst(s[1..], a, b)
  }

  /** Without an occurrence of the pattern the string is returned unchanged. */
  lemma {:induction false} ReplaceFirstAbsent(s: string, a: char, b: char)
    requires a !in s
    ensures ReplaceFirst(s, a, b) == s
    decreases |s|
  {
    if s != [] {
      assert a !in s[1..];
      ReplaceFirstAbsent(s[1..], a, b);
    }
  }

  /** With no `a` before it, the first `a` is the one replaced and everything after it stays. */
  lemma {:induction false} ReplaceFirstSplit(head: string, a: char, b: char, tail: string)
    requires a !in head
    ensures ReplaceFirst(head + [a] + tail, a, b) == head + [b] + tail
    decreases |head|
  {
    var s := head + [a] + tail;
    if head == [] {
      assert s == [a] + tail;
    } else {
      assert s[0] == head[0] && s[1..] == head[1..] + [a] + tail;
      ReplaceFirstSplit(head[1..], a, b, tail);
      assert head + [b] + tail == [head[0]] + (head[1..] + [b] + tail);
    }
  }

  /** Concatenation is associative. */
  lemma AppendAssoc<T>(x: seq<T>, y: seq<T>, z: seq<T>)
    ensures (x + y) + z == x + (y + z)
  {
  }

  function DigitChar(d: nat): (c: char)
    requires d < 10
  {
    "0123456789"[d]
  }

  predicate IsDigits(s: string)
  {
    forall i :: 0 <= i < |s| ==> '0' <= s[i] <= '9'
  }

  /** A non-negative integer interpolated into a template literal: its decimal digits. */
  function NatToString(n: nat): (s: string)
    ensures |s| > 0 && IsDigits(s)
    ensures |s| > 1 ==> s[0] != '0'
    decreases n
  {
    if n < 10 then [DigitChar(n)] else NatToString(n / 10) + [DigitChar(n % 10)]
  }

  /** The number a string of decimal digits denotes (the partner of `NatToString`). */
  function DecimalValue(s: string): nat
    requires IsDigits(s)
    decreases |s|
  {
    if s == [] then 0
    else DecimalValue(s[..|s| - 1]) * 10 + ((s[|s| - 1] as int) - ('0' as int))
  }

  /** Reading the rendered digits back gives the number: the rendering loses nothing. */
  lemma {:induction false} DecimalRoundTrip(n: nat)
    ensures DecimalValue(NatToString(n)) == n
    decreases n
  {
    if n >= 10 {
      DecimalRoundTrip(n / 10);
      var s := NatToString(n);
      assert s[..|s| - 1] == NatToString(n / 10);
    }
  }

  /** Hence distinct numbers render differently. */
  lemma NatToStringInjective(m: nat, n: nat)
    requires NatToString(m) == NatToString(n)
    ensures m == n
  {
    DecimalRoundTrip(m);
    DecimalRoundTrip(n);
  }
}
