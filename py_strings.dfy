/**
 * The string operations the dispatchers use: `startswith`, `replace(p, "")`,
 * `in` and `lower()`.
 */
module PyStrings {

  predicate StartsWith(s: string, p: string) {
    |p| <= |s| && s[..|p|] == p
  }

  /** `w` occurs in `s` starting at index `i`. */
  predicate OccursAt(s: string, w: string, i: int) {
    0 <= i && i + |w| <= |s| && s[i..i + |w|] == w
  }

  /** `w in s`. */
  predicate Contains(s: string, w: string) {
    exists i :: 0 <= i <= |s| - |w| && OccursAt(s, w, i)
  }

  /** `s.replace(p, "")`: every occurrence of `p`, found left to right without
      overlap, is deleted. */
  function RemoveAll(s: string, p: string): (r: string)
    requires p != []
    decreases |s|
  {
    if |s| < |p| then s
    else if s[..|p|] == p then RemoveAll(s[|p|..], p)
    else [s[0]] + RemoveAll(s[1..], p)
  }

  function LowerChar(c: char): char {
    if 'A' <= c <= 'Z' then (c as int + 32) as char else c
  }

  /** `s.lower()` on ASCII letters. */
  function Lower(s: string): (r: string)
    ensures |r| == |s|
    ensures forall i :: 0 <= i < |s| ==> r[i] == LowerChar(s[i])
  {
    seq(|s|, i requires 0 <= i < |s| => LowerChar(s[i]))
  }

  /** A string in which `p` does not occur comes back from `replace` unchanged. */
  lemma {:induction false} RemoveAllAbsent(s: string, p: string)
    requires p != [] && !Contains(s, p)
    ensures RemoveAll(s, p) == s
    decreases |s|
  {
    if |s| >= |p| {
      assert !OccursAt(s, p, 0);
      assert s[..|p|] != p;
      forall i | OccursAt(s[1..], p, i) ensures false {
        assert s[1..][i..i + |p|] == s[i + 1..i + 1 + |p|];
        assert OccursAt(s, p, i + 1);
      }
      RemoveAllAbsent(s[1..], p);
      assert [s[0]] + s[1..] == s;
    }
  }

  /** `(p + t).replace(p, "")` is `t` whenever `p` does not occur in `t`. */
  lemma StripQualifier(p: string, t: string)
    requires p != [] && !Contains(t, p)
    ensures RemoveAll(p + t, p) == t
  {
    assert (p + t)[..|p|] == p;
    assert (p + t)[|p|..] == t;
    RemoveAllAbsent(t, p);
  }

  lemma LowerAppend(a: string, b: string)
    ensures Lower(a + b) == Lower(a) + Lower(b)
  {
  }

  /** An occurrence inside either part is an occurrence in the whole. */
  lemma ContainsAppend(a: string, b: string, w: string)
    ensures Contains(a, w) ==> Contains(a + b, w)
    ensures Contains(b, w) ==> Contains(a + b, w)
  {
    if Contains(a, w) {
      var i :| 0 <= i <= |a| - |w| && OccursAt(a, w, i);
      assert (a + b)[i..i + |w|] == a[i..i + |w|];
      assert OccursAt(a + b, w, i);
    }
    if Contains(b, w) {
      var i :| 0 <= i <= |b| - |w| && OccursAt(b, w, i);
      assert (a + b)[|a| + i..|a| + i + |w|] == b[i..i + |w|];
      assert OccursAt(a + b, w, |a| + i);
    }
  }

  /** If neither part contains `w` and the last character of `a` is not a
      character of `w`, no occurrence can straddle the boundary, so the whole
      does not contain `w` either. */
  lemma NotContainsAppend(a: string, b: string, w: string)
    requires a != [] && w != []
    requires !Contains(a, w) && !Contains(b, w)
    requires forall k :: 0 <= k < |w| ==> w[k] != a[|a| - 1]
    ensures !Contains(a + b, w)
  {
    forall i | OccursAt(a + b, w, i) ensures false {
      if i + |w| <= |a| {
        assert (a + b)[i..i + |w|] == a[i..i + |w|];
        assert OccursAt(a, w, i);
      } else if i >= |a| {
        assert (a + b)[i..i + |w|] == b[i - |a|..i - |a| + |w|];
        assert OccursAt(b, w, i - |a|);
      } else {
        StraddlingChar(a, b, w, i);
      }
    }
  }

  /** If `b` does not contain `w` and no character of `a` is the first
      character of `w`, then `a + b` does not contain `w`. */
  lemma NotContainsPrefixed(a: string, b: string, w: string)
    requires w != [] && !Contains(b, w)
    requires forall k :: 0 <= k < |a| ==> a[k] != w[0]
    ensures !Contains(a + b, w)
  {
    forall i | 0 <= i < |a| ensures !OccursAt(a + b, w, i) {
      if i + |w| <= |a + b| {
        assert (a + b)[i..i + |w|][0] == a[i];
      }
    }
    forall i | |a| <= i <= |a + b| - |w| ensures !OccursAt(a + b, w, i) {
      assert (a + b)[i..i + |w|] == b[i - |a|..i - |a| + |w|];
      assert !OccursAt(b, w, i - |a|);
    }
  }

  /** The last character of `p` occurs nowhere else in it, so no proper
      prefix of `p` is also a suffix of it: two occurrences of `p` cannot
      overlap, and none can start inside the text just before a copy of `p`
      and end inside that copy. */
  predicate LastCharUnique(p: string)
    requires p != []
  {
    p[|p| - 1] !in p[..|p| - 1]
  }

  /** The two qualifiers the dispatchers strip both end in their only dot. */
  lemma QualifiersLastCharUnique()
    ensures LastCharUnique("pyautogui.") && LastCharUnique("time.")
  {
    assert "pyautogui."[..9] == "pyautogui";
    assert "time."[..4] == "time";
  }

  /** `p + parts[0] + p + parts[1] + ...`: each part carries one copy of the
      qualifier `p` in front of it. */
  function Qualified(p: string, parts: seq<string>): (r: string)
    ensures parts != [] ==> StartsWith(r, p)
  {
    if parts == [] then [] else p + parts[0] + Qualified(p, parts[1..])
  }

  /** `"".join(parts)`. */
  function Concat(parts: seq<string>): string {
    if parts == [] then [] else parts[0] + Concat(parts[1..])
  }

  /** `replace` removes every copy of a qualifier whose last character is
      unique: with each part free of `p`, what is left is the parts joined. */
  lemma {:induction false} RemoveAllQualified(p: string, parts: seq<string>)
    requires p != [] && LastCharUnique(p)
    requires forall i :: 0 <= i < |parts| ==> !Contains(parts[i], p)
    ensures RemoveAll(Qualified(p, parts), p) == Concat(parts)
    decreases |parts|
  {
    if parts != [] {
      var a, rest := parts[0], Qualified(p, parts[1..]);
      assert Qualified(p, parts) == p + (a + rest);
      StripLeading(p, a + rest);
      if parts[1..] == [] {
        RemoveAllAbsent(a, p);
        assert a + rest == a;
      } else {
        assert StartsWith(rest, p);
        assert rest == p + rest[|p|..];
        NoOccurrenceBefore(a, p, rest[|p|..]);
        RemoveAllSkip(a, rest, p);
        RemoveAllQualified(p, parts[1..]);
      }
    }
  }

  /** A leading copy of `p` is deleted and `replace` goes on after it. */
  lemma StripLeading(p: string, x: string)
    requires p != []
    ensures RemoveAll(p + x, p) == RemoveAll(x, p)
  {
    assert (p + x)[..|p|] == p;
    assert (p + x)[|p|..] == x;
  }

  /** Text in which no occurrence of `p` starts is copied through by
      `replace` unchanged. */
  lemma {:induction false} RemoveAllSkip(a: string, q: string, p: string)
    requires p != []
    requires forall i :: 0 <= i < |a| ==> !OccursAt(a + q, p, i)
    ensures RemoveAll(a + q, p) == a + RemoveAll(q, p)
    decreases |a|
  {
    if a != [] && |a + q| >= |p| {
      assert !OccursAt(a + q, p, 0);
      assert (a + q)[1..] == a[1..] + q;
      forall i | 0 <= i < |a[1..]| ensures !OccursAt(a[1..] + q, p, i) {
        assert !OccursAt(a + q, p, i + 1);
        if i + |p| <= |a[1..] + q| {
          assert (a + q)[i + 1..i + 1 + |p|] == (a[1..] + q)[i..i + |p|];
        }
      }
      RemoveAllSkip(a[1..], q, p);
      assert [(a + q)[0]] + a[1..] == a;
    } else if a != [] {
      assert RemoveAll(q, p) == q;
      assert RemoveAll(a + q, p) == a + q;
    } else {
      assert a + q == q;
    }
  }

  /** No occurrence of `p` starts inside a `p`-free `a` that a copy of `p`
      follows. */
  lemma NoOccurrenceBefore(a: string, p: string, r: string)
    requires p != [] && LastCharUnique(p) && !Contains(a, p)
    ensures forall i :: 0 <= i < |a| ==> !OccursAt(a + (p + r), p, i)
  {
    forall i | 0 <= i < |a| ensures !OccursAt(a + (p + r), p, i) {
      if i + |p| <= |a| {
        assert (a + (p + r))[i..i + |p|] == a[i..i + |p|];
        assert !OccursAt(a, p, i);
      } else {
        var k := |a| - i;
        assert p[..|p| - 1][|p| - k - 1] == p[|p| - k - 1];
        assert (a + (p + r))[i + |p| - 1] == p[|p| - k - 1] != p[|p| - 1];
        assert (a + (p + r))[i..i + |p|][|p| - 1] != p[|p| - 1];
      }
    }
  }

  lemma StraddlingChar(a: string, b: string, w: string, i: int)
    requires OccursAt(a + b, w, i) && i < |a| < i + |w|
    ensures w[|a| - 1 - i] == a[|a| - 1]
  {
    assert w[|a| - 1 - i] == (a + b)[i..i + |w|][|a| - 1 - i];
  }

  // ---------------------------------------------------------------------
  // Sequences in general: stated once, for any element type, so that
  // proofs about long sequences of values need not re-derive them.

  lemma SplitJoin<T>(s: seq<T>, k: nat)
    requires k <= |s|
    ensures s[..k] + s[k..] == s
  {
  }

  lemma TakeSnoc<T>(s: seq<T>, k: nat)
    requires k < |s|
    ensures s[..k + 1] == s[..k] + [s[k]]
  {
  }

  lemma AppendAssoc<T>(a: seq<T>, b: seq<T>, c: seq<T>)
    ensures a + (b + c) == (a + b) + c
  {
  }
}
