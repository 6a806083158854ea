/**
 * The Python string operations the core relies on: substring tests (`sub in s`),
 * `str.lower()` restricted to ASCII letters, `sep.join(parts)` and splitting on a
 * character, with the facts about them that the other modules use.
 */
module Text {

  /** `sub` occurs in `s` starting at index `i`. */
  predicate OccursAt(s: string, sub: string, i: nat) {
    i + |sub| <= |s| && s[i..i + |sub|] == sub
  }

  /** Python's `sub in s`. */
  predicate Contains(s: string, sub: string) {
    exists i: nat | i <= |s| :: OccursAt(s, sub, i)
  }

  /** Python's `any(sub in s for sub in subs)`. */
  predicate ContainsAny(s: string, subs: seq<string>) {
    exists k | 0 <= k < |subs| :: Contains(s, subs[k])
  }

  /** Python's `s.startswith(prefix)`. */
  predicate StartsWith(s: string, prefix: string) {
    |prefix| <= |s| && s[..|prefix|] == prefix
  }

  /** `str.lower()` on one character; only ASCII capitals are mapped. */
  function LowerChar(c: char): char {
    if 'A' <= c <= 'Z' then (c as int + 32) as char else c
  }

  /** `str.lower()`, character by character. */
  function Lower(s: string): string {
    seq(|s|, i requires 0 <= i < |s| => LowerChar(s[i]))
  }

  /** Python's `sep.join(parts)`. */
  function Join(sep: string, parts: seq<string>): string
    decreases |parts|
  {
    if |parts| == 0 then ""
    else if |parts| == 1 then parts[0]
    else parts[0] + sep + Join(sep, parts[1..])
  }

  /** The sum of the lengths of `parts`. */
  function TotalLength(parts: seq<string>): nat {
    if parts == [] then 0 else |parts[0]| + TotalLength(parts[1..])
  }

  /** The index of the first `c` in `s`. */
  function IndexOf(s: string, c: char): (r: nat)
    requires c in s
    ensures r < |s| && s[r] == c && c !in s[..r]
  {
    if s[0] == c then 0
    else
      var r' := IndexOf(s[1..], c);
      assert s[..r' + 1] == [s[0]] + s[1..][..r'];
      1 + r'
  }

  /** Python's `s.split(c)` for a one-character separator. */
  function SplitOn(s: string, c: char): (r: seq<string>)
    decreases |s|
  {
    if c !in s then [s]
    else
      var i := IndexOf(s, c);
      [s[..i]] + SplitOn(s[i + 1..], c)
  }

  /** Regrouping a concatenation. */
  lemma ConcatAssoc(x: string, y: string, z: string)
    ensures x + y + z == x + (y + z)
  {
  }

  /** Lowering is idempotent, so a lowered query is its own lowering. */
  lemma LowerIdempotent(s: string)
    ensures Lower(Lower(s)) == Lower(s)
  {
  }

  /** Lowering a concatenation whose second half has no capitals lowers the first half only. */
  lemma LowerAppendUnchanged(a: string, b: string)
    requires Lower(b) == b
    ensures Lower(a + b) == Lower(a) + b
  {
    forall i | |a| <= i < |a| + |b| ensures Lower(a + b)[i] == b[i - |a|] {
      assert Lower(b)[i - |a|] == b[i - |a|];
    }
  }

  /** A substring of a substring of `a` is a substring of `a`. */
  lemma ContainsTransitive(a: string, b: string, c: string)
    requires Contains(a, b) && Contains(b, c)
    ensures Contains(a, c)
  {
    var i: nat :| i <= |a| && OccursAt(a, b, i);
    var j: nat :| j <= |b| && OccursAt(b, c, j);
    forall k | 0 <= k < |c| ensures c[k] == a[i + j + k] {
      assert c[k] == b[j..j + |c|][k] == b[j + k];
      assert b[j + k] == a[i..i + |b|][j + k] == a[i + j + k];
    }
    assert a[i + j..i + j + |c|] == c;
    assert OccursAt(a, c, i + j);
  }

  /** A substring of either half of a concatenation is a substring of the whole. */
  lemma ContainsInConcat(a: string, b: string, sub: string)
    ensures Contains(a, sub) || Contains(b, sub) ==> Contains(a + b, sub)
  {
    if Contains(a, sub) {
      var i: nat :| i <= |a| && OccursAt(a, sub, i);
      assert (a + b)[i..i + |sub|] == a[i..i + |sub|];
      assert OccursAt(a + b, sub, i);
    } else if Contains(b, sub) {
      var j: nat :| j <= |b| && OccursAt(b, sub, j);
      assert (a + b)[|a| + j..|a| + j + |sub|] == b[j..j + |sub|];
      assert OccursAt(a + b, sub, |a| + j);
    }
  }

  /** A string in which the first character of `sub` never appears does not contain `sub`. */
  lemma FirstCharAbsent(s: string, sub: string)
    requires |sub| > 0
    requires forall i | 0 <= i < |s| :: s[i] != sub[0]
    ensures !Contains(s, sub)
  {
    forall i: nat | i <= |s| ensures !OccursAt(s, sub, i) {
      if i + |sub| <= |s| {
        assert s[i..i + |sub|][0] == s[i];
      }
    }
  }

  /** A string in which the first two characters of `sub` never appear side by side
      does not contain `sub`. */
  lemma PairAbsent(s: string, sub: string)
    requires |sub| >= 2
    requires forall i | 0 <= i < |s| - 1 :: s[i] != sub[0] || s[i + 1] != sub[1]
    ensures !Contains(s, sub)
  {
    forall i: nat | i <= |s| ensures !OccursAt(s, sub, i) {
      if i + |sub| <= |s| {
        assert s[i..i + |sub|][0] == s[i];
        assert s[i..i + |sub|][1] == s[i + 1];
      }
    }
  }

  /** Joining n parts inserts exactly n - 1 separators. */
  lemma {:induction false} JoinLength(sep: string, parts: seq<string>)
    requires |parts| >= 1
    ensures |Join(sep, parts)| == TotalLength(parts) + (|parts| - 1) * |sep|
  {
    if |parts| > 1 {
      JoinLength(sep, parts[1..]);
    }
  }

  /** The joined text begins with the first part. */
  lemma JoinStartsWithFirst(sep: string, parts: seq<string>)
    requires |parts| >= 1
    ensures StartsWith(Join(sep, parts), parts[0])
  {
    if |parts| > 1 {
      var rest := sep + Join(sep, parts[1..]);
      assert Join(sep, parts) == parts[0] + rest;
      assert (parts[0] + rest)[..|parts[0]|] == parts[0];
    }
  }

  /** The first `c` in `s` is at index `j` when `s[j] == c` and no `c` precedes it. */
  lemma {:induction false} IndexOfUnique(s: string, c: char, j: nat)
    requires j < |s| && s[j] == c && c !in s[..j]
    ensures IndexOf(s, c) == j
  {
    if j > 0 {
      assert s[..j][0] == s[0];
      assert s[1..][..j - 1] == s[..j][1..];
      IndexOfUnique(s[1..], c, j - 1);
    }
  }

  /** Splitting on `c` undoes joining with `c`, as long as no part contains `c`. */
  lemma {:induction false} SplitOnJoin(parts: seq<string>, c: char)
    requires |parts| >= 1
    requires forall k | 0 <= k < |parts| :: c !in parts[k]
    ensures SplitOn(Join([c], parts), c) == parts
  {
    if |parts| > 1 {
      var p := parts[0];
      var rest := Join([c], parts[1..]);
      var s := Join([c], parts);
      assert s == p + [c] + rest;
      assert s[..|p|] == p;
      assert s[|p| + 1..] == rest;
      IndexOfUnique(s, c, |p|);
      SplitOnJoin(parts[1..], c);
    }
  }
}
