/**
 * The source-tree assembly of the MXNet easyblock (`EB_MXNet.extract_step`):
 * after every source archive has been unpacked side by side in the build
 * directory, the one MXNet tree is located and every other entry is moved
 * into that tree's `3rdparty/<submodule>` directory.
 *
 * The filesystem effects (the rename, the removal of the placeholder
 * directory, the move) are not performed here: the model computes the plan,
 * one `Move` per relocated entry, in the order the source performs them.
 */
module SourceAssembly {
  import opened Wrappers
  import opened PyStr

  /** What the `*mxnet-*` glob pattern must find inside an entry name. */
  const MXNetMarker := "mxnet-"
  const ThirdParty := "3rdparty"
  /** The one submodule whose directory is renamed before it is moved. */
  const OneDNN := "oneDNN"
  const MklDnn := "mkldnn"

  /**
   * An entry name `os.listdir` can return: not empty and without a `/`.
   * The lemmas below assume it of every entry; the plan itself does not.
   */
  predicate EntryName(name: string) {
    name != "" && '/' !in name
  }

  /** The entries of a directory listing are pairwise distinct. */
  predicate Distinct(entries: seq<string>) {
    forall i, j :: 0 <= i < j < |entries| ==> entries[i] != entries[j]
  }

  /**
   * Does the entry match the glob pattern `*mxnet-*`? Python's glob never lets
   * a pattern that does not start with `.` match a name that does.
   */
  predicate MatchesMXNetGlob(name: string)
    ensures MatchesMXNetGlob(name) <==>
      (name == "" || name[0] != '.') && exists k: nat :: OccursAt(name, MXNetMarker, k)
  {
    ContainsIff(name, MXNetMarker);
    (name == "" || name[0] != '.') && Contains(name, MXNetMarker)
  }

  /** The entries the glob finds, in listing order. */
  function Matching(entries: seq<string>): (r: seq<string>)
    ensures forall e :: e in r <==> e in entries && MatchesMXNetGlob(e)
    ensures |r| <= |entries|
  {
    if entries == [] then []
    else (if MatchesMXNetGlob(entries[0]) then [entries[0]] else []) + Matching(entries[1..])
  }

  /** The glob keeps the listing order: matching a listing split in two matches each part, in order. */
  lemma {:induction false} MatchingAppend(a: seq<string>, b: seq<string>)
    ensures Matching(a + b) == Matching(a) + Matching(b)
    decreases |a|
  {
    if a == [] {
      assert a + b == b;
    } else {
      assert (a + b)[0] == a[0];
      assert (a + b)[1..] == a[1..] + b;
      MatchingAppend(a[1..], b);
    }
  }

  /** Raised when the MXNet source directory cannot be isolated. */
  datatype AssemblyError = MXNetDirNotIsolated(candidates: seq<string>)

  /**
   * The glob over the build directory: the MXNet source directory (a path
   * inside `builddir`) when exactly one entry matches, an error listing the
   * candidate paths otherwise.
   */
  function FindMXNetDir(builddir: string, entries: seq<string>): (r: Result<string, AssemblyError>)
    ensures r.Success? <==> |Matching(entries)| == 1
    ensures r.Success? ==> r.value == Join(builddir, Matching(entries)[0])
    ensures r.Failure? ==> |r.error.candidates| == |Matching(entries)|
    ensures r.Failure? ==> forall i :: 0 <= i < |Matching(entries)| ==>
      r.error.candidates[i] == Join(builddir, Matching(entries)[i])
  {
    var found := Matching(entries);
    if |found| == 1 then Success(Join(builddir, found[0]))
    else Failure(MXNetDirNotIsolated(seq(|found|, i requires 0 <= i < |found| => Join(builddir, found[i]))))
  }

  /** The entries other than `base`, in listing order. */
  function Others(entries: seq<string>, base: string): (r: seq<string>)
    ensures forall e :: e in r <==> e in entries && e != base
  {
    if entries == [] then []
    else (if entries[0] != base then [entries[0]] else []) + Others(entries[1..], base)
  }

  /**
   * Filtering a listing split in two filters each part and keeps them in
   * order; with the one-entry case this pins `Others` down as the order-preserving
   * filter of the listing.
   */
  lemma {:induction false} OthersAppend(a: seq<string>, b: seq<string>, base: string)
    ensures Others(a + b, base) == Others(a, base) + Others(b, base)
    decreases |a|
  {
    if a == [] {
      assert a + b == b;
    } else {
      assert (a + b)[0] == a[0];
      assert (a + b)[1..] == a[1..] + b;
      OthersAppend(a[1..], b, base);
    }
  }

  /** A single entry is kept exactly when it is not `base`. */
  lemma OthersSingle(e: string, base: string)
    ensures Others([e], base) == if e != base then [e] else []
  {
  }

  /** `entry.rpartition('-')[0]`: the submodule an entry holds. */
  function Submodule(entry: string): (r: string)
    ensures '-' in entry ==> |r| < |entry| && entry[|r|] == '-' && entry[..|r|] == r && '-' !in entry[|r| + 1..]
    ensures '-' !in entry ==> r == ""
  {
    var p := RPartition(entry, '-');
    assert entry == p.head + p.sep + p.tail;
    assert '-' in entry ==> entry[|p.head| + 1..] == p.tail;
    p.head
  }

  /** The directory name under `3rdparty` the entry is moved to. */
  function DestSubmodule(entry: string): (r: string)
    ensures r != OneDNN
    ensures Submodule(entry) != OneDNN ==> r == Submodule(entry)
    ensures Submodule(entry) == OneDNN ==> r == MklDnn
  {
    var submodule := Submodule(entry);
    if submodule == OneDNN then MklDnn else submodule
  }

  /** One relocation: `entry` is first renamed to `renamed` and then moved from `olddir` to `newdir`. */
  datatype Move = Move(entry: string, renamed: string, olddir: string, newdir: string)

  /** The name an entry has when it is moved: only a `oneDNN-...` entry is renamed. */
  function RenamedEntry(entry: string): (r: string)
    ensures Submodule(entry) != OneDNN ==> r == entry
    ensures |r| == |entry|
    ensures Submodule(entry) == OneDNN ==> !Contains(r, OneDNN)
  {
    if Submodule(entry) == OneDNN then
      ReplaceAllRemovesPattern(entry, OneDNN, MklDnn);
      ReplaceAll(entry, OneDNN, MklDnn)
    else entry
  }

  /** The relocation the source performs for one entry of the build directory. */
  function PlanEntry(builddir: string, srcDir: string, entry: string): (m: Move)
    ensures m.entry == entry
    ensures m.renamed == RenamedEntry(entry)
    ensures m.olddir == Join(builddir, m.renamed)
    ensures m.newdir == Join(Join(srcDir, ThirdParty), DestSubmodule(entry))
  {
    var renamed := RenamedEntry(entry);
    Move(entry, renamed, Join(builddir, renamed), Join(Join(srcDir, ThirdParty), DestSubmodule(entry)))
  }

  /** The located MXNet directory and the moves, in the order they are made. */
  datatype Assembly = Assembly(mxnetSrcDir: string, moves: seq<Move>)

  /** The whole of the assembly step: locate the MXNet tree, then plan a move for every other entry. */
  function PlanAssembly(builddir: string, entries: seq<string>): (r: Result<Assembly, AssemblyError>)
    ensures r.Success? <==> |Matching(entries)| == 1
    ensures r.Failure? ==> r.error == FindMXNetDir(builddir, entries).error
    ensures r.Success? ==> r.value.mxnetSrcDir == Join(builddir, Matching(entries)[0])
    ensures r.Success? ==> |r.value.moves| == |Others(entries, Basename(r.value.mxnetSrcDir))|
    ensures r.Success? ==> forall i :: 0 <= i < |r.value.moves| ==>
      r.value.moves[i] == PlanEntry(builddir, r.value.mxnetSrcDir, Others(entries, Basename(r.value.mxnetSrcDir))[i])
  {
    var srcDir :- FindMXNetDir(builddir, entries);
    var others := Others(entries, Basename(srcDir));
    Success(Assembly(srcDir, seq(|others|, i requires 0 <= i < |others| => PlanEntry(builddir, srcDir, others[i]))))
  }

  // ---------------------------------------------------------------------
  // Discovery of the MXNet directory

  lemma {:induction false} MatchingDistinct(entries: seq<string>)
    requires Distinct(entries)
    ensures Distinct(Matching(entries))
  {
    if entries != [] {
      assert Distinct(entries[1..]);
      MatchingDistinct(entries[1..]);
    }
  }

  /**
   * Discovery succeeds exactly when one entry of the (duplicate-free) listing
   * matches `*mxnet-*`; none or several matches are an error.
   */
  lemma DiscoverySucceedsIffUnique(builddir: string, entries: seq<string>)
    requires Distinct(entries)
    ensures PlanAssembly(builddir, entries).Success? <==>
      exists d :: d in entries && MatchesMXNetGlob(d) &&
        forall e :: e in entries && MatchesMXNetGlob(e) ==> e == d
  {
    var m := Matching(entries);
    MatchingDistinct(entries);
    if |m| == 1 {
      assert m[0] in m;
      forall e | e in entries && MatchesMXNetGlob(e) ensures e == m[0] {
        assert e in m;
      }
    } else if |m| >= 2 {
      assert m[0] in m && m[1] in m && m[0] != m[1];
    }
  }

  // ---------------------------------------------------------------------
  // Every other entry is relocated exactly once

  lemma {:induction false} OthersDistinct(entries: seq<string>, base: string)
    requires Distinct(entries)
    ensures Distinct(Others(entries, base))
  {
    if entries != [] {
      assert Distinct(entries[1..]);
      OthersDistinct(entries[1..], base);
      var rest := Others(entries[1..], base);
      assert entries[0] !in entries[1..];
      assert entries[0] !in rest;
      if entries[0] != base {
        assert Others(entries, base) == [entries[0]] + rest;
      }
    }
  }

  lemma {:induction false} OthersLength(entries: seq<string>, base: string)
    requires Distinct(entries)
    ensures |Others(entries, base)| == if base in entries then |entries| - 1 else |entries|
  {
    if entries != [] {
      assert Distinct(entries[1..]);
      OthersLength(entries[1..], base);
      assert entries == [entries[0]] + entries[1..];
      if entries[0] == base {
        assert base !in entries[1..];
      }
    }
  }

  /** On success the moves follow, one by one, the entries other than the MXNet one. */
  lemma MovesFollowOthers(builddir: string, entries: seq<string>)
    requires |Matching(entries)| == 1
    ensures var a := PlanAssembly(builddir, entries).value;
      var others := Others(entries, Basename(a.mxnetSrcDir));
      |a.moves| == |others| && forall i :: 0 <= i < |a.moves| ==> a.moves[i].entry == others[i]
  {
  }

  /**
   * On success the excluded name is the MXNet entry itself; it is never moved,
   * and every other entry of the listing is moved exactly once.
   */
  lemma RelocatedExactlyOnce(builddir: string, entries: seq<string>)
    requires Distinct(entries)
    requires forall e :: e in entries ==> EntryName(e)
    requires |Matching(entries)| == 1
    ensures var a := PlanAssembly(builddir, entries).value;
      var d := Matching(entries)[0];
      && d in entries
      && Basename(a.mxnetSrcDir) == d
      && |a.moves| == |entries| - 1
      && (forall i :: 0 <= i < |a.moves| ==> a.moves[i].entry != d)
      && (forall i, j :: 0 <= i < j < |a.moves| ==> a.moves[i].entry != a.moves[j].entry)
      && (forall e :: e in entries && e != d ==> exists i :: 0 <= i < |a.moves| && a.moves[i].entry == e)
  {
    var a := PlanAssembly(builddir, entries).value;
    var d := Matching(entries)[0];
    assert d in Matching(entries);
    assert Basename(a.mxnetSrcDir) == d by {
      BasenameOfJoin(builddir, d);
    }
    MovesFollowOthers(builddir, entries);
    OthersExactlyOnce(entries, d);
    MovesCoverOthers(a.moves, Others(entries, d), entries, d);
  }

  /** Moves that follow a duplicate-free list of the other entries move each of them once. */
  lemma MovesCoverOthers(moves: seq<Move>, others: seq<string>, entries: seq<string>, d: string)
    requires |moves| == |others| && forall i :: 0 <= i < |moves| ==> moves[i].entry == others[i]
    requires d !in others && Distinct(others)
    requires forall e :: e in entries && e != d ==> exists i :: 0 <= i < |others| && others[i] == e
    ensures forall i :: 0 <= i < |moves| ==> moves[i].entry != d
    ensures forall i, j :: 0 <= i < j < |moves| ==> moves[i].entry != moves[j].entry
    ensures forall e :: e in entries && e != d ==> exists i :: 0 <= i < |moves| && moves[i].entry == e
  {
  }

  /** Leaving one entry out of a duplicate-free listing keeps every other entry exactly once. */
  lemma OthersExactlyOnce(entries: seq<string>, d: string)
    requires Distinct(entries) && d in entries
    ensures var others := Others(entries, d);
      && |others| == |entries| - 1
      && Distinct(others)
      && forall e :: e in entries && e != d ==> exists i :: 0 <= i < |others| && others[i] == e
  {
    OthersDistinct(entries, d);
    OthersLength(entries, d);
  }

  // ---------------------------------------------------------------------
  // Where each entry lands

  /**
   * An entry that is not `oneDNN-...` is moved under its own name, from
   * `builddir/<entry>` to `<mxnet>/3rdparty/<prefix before the last '-'>`.
   */
  lemma PlainEntryDestination(builddir: string, srcDir: string, entry: string)
    requires Submodule(entry) != OneDNN
    ensures var m := PlanEntry(builddir, srcDir, entry);
      && m.renamed == entry
      && m.olddir == Join(builddir, entry)
      && m.newdir == Join(Join(srcDir, ThirdParty), Submodule(entry))
  {
  }

  /** An entry without a `-` has the empty submodule: it is moved onto `3rdparty/` itself. */
  lemma NoHyphenMovesOntoThirdParty(builddir: string, srcDir: string, entry: string)
    requires '-' !in entry
    ensures Submodule(entry) == ""
    ensures PlanEntry(builddir, srcDir, entry).newdir == Join(srcDir, ThirdParty) + "/"
  {
  }

  /**
   * An entry whose part before its last `-` is exactly `oneDNN`, so
   * `oneDNN-<version>`, is first renamed to `mkldnn-<version'>`, where
   * every `oneDNN` inside the version is rewritten too, keeping the length,
   * and it lands at `3rdparty/mkldnn`, never at `3rdparty/oneDNN`.
   */
  lemma OneDNNBecomesMklDnn(builddir: string, srcDir: string, entry: string)
    requires Submodule(entry) == OneDNN
    ensures |entry| > |OneDNN| && entry == OneDNN + "-" + entry[|OneDNN| + 1..]
    ensures var m := PlanEntry(builddir, srcDir, entry);
      && m.renamed == MklDnn + "-" + ReplaceAll(entry[|OneDNN| + 1..], OneDNN, MklDnn)
      && |m.renamed| == |entry|
      && !Contains(m.renamed, OneDNN)
      && m.olddir == Join(builddir, m.renamed)
      && m.newdir == Join(Join(srcDir, ThirdParty), MklDnn)
      && m.newdir != Join(Join(srcDir, ThirdParty), OneDNN)
  {
    var tail := entry[|OneDNN| + 1..];
    assert entry == OneDNN + "-" + tail;
    RenameOneDNN(tail);
    var t := Join(srcDir, ThirdParty);
    assert t != "" && t[|t| - 1] == 'y';
    JoinSameDirectory(t, MklDnn, OneDNN);
  }

  /**
   * The test is on the part before the last `-`, not on the leading
   * `oneDNN-`: an entry `oneDNN-<tail>` whose tail holds another `-` (such as
   * `oneDNN-2.6-rc1`) is neither renamed nor sent to `3rdparty/mkldnn`; it
   * keeps its name and goes to `3rdparty/<prefix before its last '-'>`.
   */
  lemma OneDNNWithLaterHyphenKeepsName(builddir: string, srcDir: string, tail: string)
    requires '-' in tail
    ensures var entry := OneDNN + "-" + tail;
      var m := PlanEntry(builddir, srcDir, entry);
      && Submodule(entry) != OneDNN
      && |Submodule(entry)| > |OneDNN|
      && m.renamed == entry
      && m.newdir == Join(Join(srcDir, ThirdParty), Submodule(entry))
  {
    var entry := OneDNN + "-" + tail;
    var j :| 0 <= j < |tail| && tail[j] == '-';
    assert entry[|OneDNN| + 1 + j] == '-';
    var r := Submodule(entry);
    SeparatorInSuffix(entry, '-', |r| + 1, |OneDNN| + 1 + j);
  }

  /** The rename of a `oneDNN-<tail>` directory name. */
  lemma RenameOneDNN(tail: string)
    ensures ReplaceAll(OneDNN + "-" + tail, OneDNN, MklDnn) == MklDnn + "-" + ReplaceAll(tail, OneDNN, MklDnn)
  {
  }

  /**
   * Two entries are moved to the same destination exactly when they have the
   * same destination submodule; the source then removes the first one's
   * directory before moving the second (only the last survives).
   */
  lemma DestinationsCollideIff(builddir: string, srcDir: string, e1: string, e2: string)
    requires EntryName(e1) && EntryName(e2)
    ensures PlanEntry(builddir, srcDir, e1).newdir == PlanEntry(builddir, srcDir, e2).newdir
      <==> DestSubmodule(e1) == DestSubmodule(e2)
  {
    var t := Join(srcDir, ThirdParty);
    DestSubmoduleIsPlain(e1);
    DestSubmoduleIsPlain(e2);
    assert t != "" && t[|t| - 1] == 'y';
    JoinSameDirectory(t, DestSubmodule(e1), DestSubmodule(e2));
  }

  /** A destination submodule taken from an entry name holds no `/`. */
  lemma DestSubmoduleIsPlain(entry: string)
    requires '/' !in entry
    ensures '/' !in DestSubmodule(entry)
  {
  }
}
