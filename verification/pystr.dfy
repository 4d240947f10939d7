/**
 * The few Python string and POSIX path primitives the MXNet easyblock relies on:
 * `str.rfind`/`str.rpartition` on one separator character, `str.replace`,
 * substring search (what the `*mxnet-*` glob pattern tests), and
 * `posixpath.join`/`posixpath.basename`.
 */
module PyStr {
  import opened Wrappers

  /** `s.rfind(c)`: the index of the last occurrence of `c`, if any. */
  function LastIndexOf(s: string, c: char): (r: Option<nat>)
    ensures r.Some? ==> r.value < |s| && s[r.value] == c
    ensures r.Some? ==> forall j :: r.value < j < |s| ==> s[j] != c
    ensures r.None? <==> c !in s
    decreases |s|
  {
    if |s| == 0 then None
    else if s[|s| - 1] == c then Some(|s| - 1)
    else
      assert s == s[..|s| - 1] + [s[|s| - 1]];
      LastIndexOf(s[..|s| - 1], c)
  }

  /** The three parts Python's `str.rpartition` returns. */
  datatype Partition = Partition(head: string, sep: string, tail: string)

  /**
   * `s.rpartition(sep)` for a one-character separator: split around the last
   * occurrence; when there is none, the whole string is the tail and the head
   * is empty.
   */
  function RPartition(s: string, sep: char): (r: Partition)
    ensures r.head + r.sep + r.tail == s
    ensures sep !in r.tail
    ensures sep in s <==> r.sep == [sep]
    ensures sep !in s <==> r.head == "" && r.sep == "" && r.tail == s
  {
    match LastIndexOf(s, sep)
    case None => Partition("", "", s)
    case Some(k) =>
      assert s == s[..k] + [sep] + s[k + 1..];
      Partition(s[..k], [sep], s[k + 1..])
  }

  /** A character at index `k` is in every suffix starting at or before `k`. */
  lemma SeparatorInSuffix(s: string, c: char, i: nat, k: nat)
    requires k < |s| && s[k] == c
    ensures i <= k ==> c in s[i..]
  {
    if i <= k {
      assert s[i..][k - i] == c;
    }
  }

  /** `pre` is a prefix of `s`. */
  predicate IsPrefix(pre: string, s: string) {
    |pre| <= |s| && s[..|pre|] == pre
  }

  /** A prefix of `[c] + y` is empty or starts with `c` and goes on with a prefix of `y`. */
  lemma PrefixCons(c: char, y: string, w: string)
    ensures IsPrefix(w, [c] + y) <==> w == [] || (w[0] == c && IsPrefix(w[1..], y))
  {
    if w != [] && |w| <= |y| + 1 {
      assert ([c] + y)[..|w|] == [c] + y[..|w| - 1];
    }
  }

  /** `sub` occurs in `s` starting at index `k`. */
  predicate OccursAt(s: string, sub: string, k: nat) {
    k + |sub| <= |s| && s[k..k + |sub|] == sub
  }

  /** `sub in s`, Python's substring test. */
  predicate Contains(s: string, sub: string)
    decreases |s|
  {
    IsPrefix(sub, s) || (|s| > 0 && Contains(s[1..], sub))
  }

  /** `sub in s` holds exactly when `sub` occurs at some index of `s`. */
  lemma {:induction false} ContainsIff(s: string, sub: string)
    ensures Contains(s, sub) <==> exists k: nat :: OccursAt(s, sub, k)
    decreases |s|
  {
    if IsPrefix(sub, s) {
      assert OccursAt(s, sub, 0);
    }
    if |s| == 0 {
      if exists k: nat :: OccursAt(s, sub, k) {
        assert sub == [];
      }
    } else {
      ContainsIff(s[1..], sub);
      if Contains(s[1..], sub) {
        var k: nat :| OccursAt(s[1..], sub, k);
        assert s[1..][k..k + |sub|] == s[k + 1..k + 1 + |sub|];
        assert OccursAt(s, sub, k + 1);
      }
      if exists k: nat :: OccursAt(s, sub, k) {
        var k: nat :| OccursAt(s, sub, k);
        if k == 0 {
          assert s[0..|sub|] == s[..|sub|];
        } else {
          assert s[1..][k - 1..k - 1 + |sub|] == s[k..k + |sub|];
          assert OccursAt(s[1..], sub, k - 1);
        }
      }
    }
  }

  /** A string shorter than `sub` does not contain it. */
  lemma {:induction false} ShortContainsNothing(s: string, sub: string)
    requires |s| < |sub|
    ensures !Contains(s, sub)
    decreases |s|
  {
    if |s| > 0 {
      ShortContainsNothing(s[1..], sub);
    }
  }

  /** Text none of whose characters can start `sub` adds no occurrence of it in front of `x`. */
  lemma {:induction false} PrefixFreeContains(u: string, x: string, sub: string)
    requires sub != "" && sub[0] !in u
    requires !Contains(x, sub)
    ensures !Contains(u + x, sub)
    decreases |u|
  {
    if u == [] {
      assert u + x == x;
    } else {
      assert (u + x)[0] == u[0];
      assert (u + x)[1..] == u[1..] + x;
      PrefixFreeContains(u[1..], x, sub);
    }
  }

  /**
   * `s.replace(pat, rep)`: every non-overlapping occurrence of `pat`, scanning
   * from the left, is replaced by `rep`.
   */
  function ReplaceAll(s: string, pat: string, rep: string): (r: string)
    requires pat != ""
    ensures !Contains(s, pat) ==> r == s
    ensures |rep| == |pat| ==> |r| == |s|
    decreases |s|
  {
    if |s| < |pat| then s
    else if s[..|pat|] == pat then rep + ReplaceAll(s[|pat|..], pat, rep)
    else
      assert s == [s[0]] + s[1..];
      [s[0]] + ReplaceAll(s[1..], pat, rep)
  }

  /**
   * A prefix of the replaced text that avoids the first character of `rep`
   * was already a prefix of the original.
   */
  lemma {:induction false} ReplaceAllPrefixBack(t: string, pat: string, rep: string, w: string)
    requires pat != "" && rep != "" && rep[0] !in w
    ensures IsPrefix(w, ReplaceAll(t, pat, rep)) ==> IsPrefix(w, t)
    decreases |t|
  {
    if w == [] || |t| < |pat| {
    } else if t[..|pat|] == pat {
      assert ReplaceAll(t, pat, rep)[0] == rep[0] != w[0];
    } else {
      var y := ReplaceAll(t[1..], pat, rep);
      assert ReplaceAll(t, pat, rep) == [t[0]] + y;
      ReplaceAllPrefixBack(t[1..], pat, rep, w[1..]);
      PrefixCons(t[0], y, w);
      PrefixCons(t[0], t[1..], w);
      assert t == [t[0]] + t[1..];
    }
  }

  /**
   * When `rep` cannot start inside `pat` and `pat` cannot start inside `rep`,
   * nothing of `pat` is left after the replacement.
   */
  lemma {:induction false} ReplaceAllRemovesPattern(s: string, pat: string, rep: string)
    requires pat != "" && rep != ""
    requires rep[0] !in pat && pat[0] !in rep
    ensures !Contains(ReplaceAll(s, pat, rep), pat)
    decreases |s|
  {
    var r := ReplaceAll(s, pat, rep);
    if |s| < |pat| {
      ShortContainsNothing(s, pat);
    } else if s[..|pat|] == pat {
      ReplaceAllRemovesPattern(s[|pat|..], pat, rep);
      PrefixFreeContains(rep, ReplaceAll(s[|pat|..], pat, rep), pat);
    } else {
      var y := ReplaceAll(s[1..], pat, rep);
      ReplaceAllRemovesPattern(s[1..], pat, rep);
      assert r == [s[0]] + y;
      assert rep[0] !in pat[1..];
      ReplaceAllPrefixBack(s[1..], pat, rep, pat[1..]);
      PrefixCons(s[0], y, pat);
      PrefixCons(s[0], s[1..], pat);
      assert s == [s[0]] + s[1..];
      assert r[1..] == y;
    }
  }

  /**
   * `posixpath.join(a, b)`: an absolute `b` replaces `a`; otherwise a `/` is
   * inserted unless `a` is empty or already ends in one.
   */
  function Join(a: string, b: string): string
  {
    if |b| > 0 && b[0] == '/' then b
    else if a == "" || a[|a| - 1] == '/' then a + b
    else a + "/" + b
  }

  /**
   * The shape of a joined path: an absolute `b` is the result; a relative `b`
   * follows `a`, directly after a `/` whenever `a` is not empty, and a `/` is
   * inserted exactly when `a` is not empty and does not already end in one.
   */
  lemma JoinParts(a: string, b: string)
    ensures |b| > 0 && b[0] == '/' ==> Join(a, b) == b
    ensures !(|b| > 0 && b[0] == '/') ==>
      var r := Join(a, b);
      |a| + |b| <= |r| <= |a| + |b| + 1 && r[..|a|] == a && r[|r| - |b|..] == b
    ensures !(|b| > 0 && b[0] == '/') && a != "" ==> Join(a, b)[|Join(a, b)| - |b| - 1] == '/'
    ensures !(|b| > 0 && b[0] == '/') ==> (|Join(a, b)| == |a| + |b| <==> a == "" || a[|a| - 1] == '/')
  {
  }

  /** Below a directory path not ending in `/`, distinct plain names give distinct paths. */
  lemma JoinSameDirectory(dir: string, a: string, b: string)
    requires dir != "" && dir[|dir| - 1] != '/'
    requires '/' !in a && '/' !in b
    ensures Join(dir, a) == Join(dir, b) <==> a == b
  {
    assert Join(dir, a) == dir + "/" + a && Join(dir, b) == dir + "/" + b;
    assert (dir + "/" + a)[|dir| + 1..] == a;
    assert (dir + "/" + b)[|dir| + 1..] == b;
  }

  /** `posixpath.basename(p)`: what follows the last `/`. */
  function Basename(p: string): (r: string)
    ensures '/' !in r
    ensures |r| <= |p| && p[|p| - |r|..] == r
    ensures |r| == |p| || p[|p| - |r| - 1] == '/'
  {
    match LastIndexOf(p, '/')
    case None => p
    case Some(k) => p[k + 1..]
  }

  /** Joining a plain name onto a directory and taking the basename gives the name back. */
  lemma BasenameOfJoin(dir: string, name: string)
    requires '/' !in name
    ensures Basename(Join(dir, name)) == name
  {
    var p := Join(dir, name);
    if dir == "" {
      assert p == name;
    } else {
      var x := if dir[|dir| - 1] == '/' then dir else dir + "/";
      assert p == x + name;
      assert p[|x| - 1] == '/';
      var k := LastIndexOf(p, '/').value;
      assert forall j :: |x| <= j < |p| ==> p[j] == name[j - |x|];
      assert k == |x| - 1;
      assert p[k + 1..] == name;
    }
  }
}
