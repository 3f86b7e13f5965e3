/**
 * The Python string methods the record form and its views call:
 * `upper()`, `lower()`, `endswith()` and `replace(old, '')`. Case mapping
 * covers the ASCII letters only.
 */
module PyStr {

  function UpperChar(c: char): char
  {
    if 'a' <= c <= 'z' then (c as int - 32) as char else c
  }

  function LowerChar(c: char): char
  {
    if 'A' <= c <= 'Z' then (c as int + 32) as char else c
  }

  /** `s.upper()` */
  function Upper(s: string): (r: string)
    ensures |r| == |s|
    ensures forall i :: 0 <= i < |s| ==> r[i] == UpperChar(s[i])
  {
    seq(|s|, i requires 0 <= i < |s| => UpperChar(s[i]))
  }

  /** `s.lower()` */
  function Lower(s: string): (r: string)
    ensures |r| == |s|
    ensures forall i :: 0 <= i < |s| ==> r[i] == LowerChar(s[i])
  {
    seq(|s|, i requires 0 <= i < |s| => LowerChar(s[i]))
  }

  /** No lower-case ASCII letter occurs in `s`. */
  predicate NoLowerCase(s: string)
  {
    forall i :: 0 <= i < |s| ==> !('a' <= s[i] <= 'z')
  }

  /** Upper-casing undoes lower-casing on a string without lower-case
      letters, such as a record type name. */
  lemma UpperLower(s: string)
    requires NoLowerCase(s)
    ensures Upper(Lower(s)) == s
  {
    assert forall i :: 0 <= i < |s| ==> UpperChar(LowerChar(s[i])) == s[i];
  }

  /** `s.endswith(suffix)` */
  predicate EndsWith(s: string, suffix: string)
  {
    |suffix| <= |s| && s[|s| - |suffix|..] == suffix
  }

  /** `s.replace(pattern, '')`: every occurrence of `pattern`, found left to
      right without overlapping, removed. An empty pattern leaves `s` as it
      is. */
  function RemoveAll(s: string, pattern: string): (r: string)
    ensures |r| <= |s|
    decreases |s|
  {
    if |pattern| == 0 || |s| < |pattern| then s
    else if s[..|pattern|] == pattern then RemoveAll(s[|pattern|..], pattern)
    else [s[0]] + RemoveAll(s[1..], pattern)
  }

  /** `pattern` occurs in `s` at position `i`. */
  predicate OccursAt(s: string, pattern: string, i: int)
  {
    0 <= i && i + |pattern| <= |s| && s[i..i + |pattern|] == pattern
  }

  /** A string in which the pattern does not occur is left unchanged. */
  lemma {:induction false} RemoveAllAbsent(s: string, pattern: string)
    requires forall i :: !OccursAt(s, pattern, i)
    ensures RemoveAll(s, pattern) == s
    decreases |s|
  {
    if |pattern| > 0 && |s| >= |pattern| {
      assert !OccursAt(s, pattern, 0);
      assert forall i :: OccursAt(s[1..], pattern, i) ==> OccursAt(s, pattern, i + 1) by {
        forall i | OccursAt(s[1..], pattern, i)
          ensures OccursAt(s, pattern, i + 1)
        {
          assert s[1..][i..i + |pattern|] == s[i + 1..i + 1 + |pattern|];
        }
      }
      RemoveAllAbsent(s[1..], pattern);
    }
  }

  /** Removal distributes over a left part that the pattern neither occurs
      in nor overlaps: the left part is kept as it is. */
  lemma {:induction false} RemoveAllKeepsPrefix(a: string, b: string, pattern: string)
    requires forall i :: 0 <= i < |a| ==> !OccursAt(a + b, pattern, i)
    ensures RemoveAll(a + b, pattern) == a + RemoveAll(b, pattern)
    decreases |a|
  {
    if a != [] && |pattern| > 0 && |a + b| >= |pattern| {
      assert !OccursAt(a + b, pattern, 0);
      assert (a + b)[..|pattern|] != pattern;
      assert (a + b)[1..] == a[1..] + b;
      forall i | 0 <= i < |a[1..]|
        ensures !OccursAt(a[1..] + b, pattern, i)
      {
        assert !OccursAt(a + b, pattern, i + 1);
        if i + |pattern| <= |a[1..] + b| {
          assert (a[1..] + b)[i..i + |pattern|] == (a + b)[i + 1..i + 1 + |pattern|];
        }
      }
      RemoveAllKeepsPrefix(a[1..], b, pattern);
      assert [a[0]] + (a[1..] + RemoveAll(b, pattern)) == a + RemoveAll(b, pattern);
    } else if a != [] && |pattern| > 0 {
      assert RemoveAll(a + b, pattern) == a + b;
      assert RemoveAll(b, pattern) == b;
    } else if a == [] {
      assert a + b == b;
    }
  }
}
