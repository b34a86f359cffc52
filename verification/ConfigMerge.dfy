/**
 The deep merge of configuration files of pkg/config/config.go, on values: what the merge of a list
 of files has at each path, and when the grouping of merges does not matter.
 */
module ConfigMerge {
  import opened Wrappers

  /** A decoded configuration value: a nested table, or anything else. */
  datatype Value = Leaf(text: string) | Table(entries: map<string, Value>)

  type Tree = map<string, Value>

  /** `src` merged into `dst`: nested tables are merged, anything else is overwritten. */
  function Merge(dst: Tree, src: Tree): Tree
    decreases Table(src)
  {
    map k | k in dst.Keys + src.Keys ::
      if k !in src then dst[k]
      else if k in dst && dst[k].Table? && src[k].Table? then Table(Merge(dst[k].entries, src[k].entries))
      else src[k]
  }

  /** Files are merged in order, later ones over earlier ones. */
  function MergeAll(files: seq<Tree>): Tree {
    if files == [] then map[] else Merge(MergeAll(files[..|files| - 1]), files[|files| - 1])
  }

  // ----- what is where

  type Path = seq<string>

  function Lookup(t: Tree, path: Path): Option<Value>
    decreases |path|
  {
    if path == [] then Some(Table(t))
    else if path[0] !in t then None
    else if |path| == 1 then Some(t[path[0]])
    else if t[path[0]].Leaf? then None
    else Lookup(t[path[0]].entries, path[1..])
  }

  datatype Kind = Nothing | LeafOf(text: string) | SomeTable

  function KindAt(t: Tree, path: Path): Kind {
    match Lookup(t, path)
    case None => Nothing
    case Some(Leaf(text)) => LeafOf(text)
    case Some(Table(_)) => SomeTable
  }

  /** A leaf stands in the way of the path. */
  ghost predicate Blocks(t: Tree, path: Path) {
    exists n :: 0 < n < |path| && KindAt(t, path[..n]).LeafOf?
  }

  /** A file decides what is at a path: it has something there, or a leaf in the way. */
  ghost predicate Decides(t: Tree, path: Path) {
    KindAt(t, path) != Nothing || Blocks(t, path)
  }

  lemma BelowTable(t: Tree, path: Path)
    requires |path| > 1 && path[0] in t && t[path[0]].Table?
    ensures KindAt(t, path) == KindAt(t[path[0]].entries, path[1..])
    ensures Blocks(t, path) <==> Blocks(t[path[0]].entries, path[1..])
    ensures Decides(t, path) <==> Decides(t[path[0]].entries, path[1..])
  {
    var sub, rest := t[path[0]].entries, path[1..];
    if Blocks(t, path) {
      var n :| 0 < n < |path| && KindAt(t, path[..n]).LeafOf?;
      assert n > 1;
      assert path[..n][1..] == rest[..n - 1];
      assert KindAt(sub, rest[..n - 1]).LeafOf?;
    }
    if Blocks(sub, rest) {
      var n :| 0 < n < |rest| && KindAt(sub, rest[..n]).LeafOf?;
      assert path[..n + 1][1..] == rest[..n];
      assert KindAt(t, path[..n + 1]).LeafOf?;
    }
  }

  lemma BelowLeaf(t: Tree, path: Path)
    requires |path| > 1 && path[0] in t && t[path[0]].Leaf?
    ensures KindAt(t, path) == Nothing && Blocks(t, path)
  {
    assert path[..1] == [path[0]];
    assert KindAt(t, path[..1]).LeafOf?;
  }

  lemma BelowNothing(t: Tree, path: Path)
    requires |path| > 0 && path[0] !in t
    ensures KindAt(t, path) == Nothing && !Decides(t, path)
  {
    forall n | 0 < n < |path|
      ensures !KindAt(t, path[..n]).LeafOf?
    {
      assert path[..n][0] == path[0];
    }
  }

  /** At every path, the merged file has what `src` has if `src` decides, and what `dst` has otherwise. */
  lemma {:induction false} MergedKind(dst: Tree, src: Tree, path: Path)
    ensures KindAt(Merge(dst, src), path) == if Decides(src, path) then KindAt(src, path) else KindAt(dst, path)
    decreases |path|
  {
    if path == [] {
    } else if path[0] !in src {
      BelowNothing(src, path);
      assert path[0] in Merge(dst, src) <==> path[0] in dst;
    } else if |path| == 1 {
    } else if src[path[0]].Leaf? {
      BelowLeaf(src, path);
      BelowLeaf(Merge(dst, src), path);
    } else {
      BelowTable(src, path);
      BelowTable(Merge(dst, src), path);
      if path[0] in dst && dst[path[0]].Table? {
        BelowTable(dst, path);
        MergedKind(dst[path[0]].entries, src[path[0]].entries, path[1..]);
      } else {
        if !Decides(src, path) {
          if path[0] in dst { BelowLeaf(dst, path); } else { BelowNothing(dst, path); }
        }
      }
    }
  }

  // ----- folding over files

  /** The last file that decides what is at the path. */
  ghost function LastDecider(files: seq<Tree>, path: Path): (r: Option<nat>)
    ensures r.Some? ==> r.value < |files| && Decides(files[r.value], path)
                        && forall j :: r.value < j < |files| ==> !Decides(files[j], path)
    ensures r.None? ==> forall j :: 0 <= j < |files| ==> !Decides(files[j], path)
  {
    if files == [] then None
    else
      var n := |files| - 1;
      if Decides(files[n], path) then Some(n)
      else
        assert forall j :: 0 <= j < n ==> files[..n][j] == files[j];
        LastDecider(files[..n], path)
  }

  /** At every path, the merge of all files has what the last deciding file has there: that file's own
      leaf, a table, or nothing. */
  lemma {:induction false} MergedFilesKind(files: seq<Tree>, path: Path)
    requires path != []
    ensures KindAt(MergeAll(files), path) ==
            if LastDecider(files, path).Some? then KindAt(files[LastDecider(files, path).value], path) else Nothing
  {
    if files != [] {
      var n := |files| - 1;
      MergedFilesKind(files[..n], path);
      MergedKind(MergeAll(files[..n]), files[n], path);
      assert files[..n] + [files[n]] == files;
    }
  }

  /** The leaves of the merge: a leaf is there exactly when the last file that has something at the
      path, or a leaf above it, has that leaf at the path. */
  lemma LeavesOfMergedFiles(files: seq<Tree>, path: Path, text: string)
    requires path != []
    ensures Lookup(MergeAll(files), path) == Some(Leaf(text)) <==>
            exists i :: 0 <= i < |files| && Lookup(files[i], path) == Some(Leaf(text))
                        && forall j :: i < j < |files| ==> !Decides(files[j], path)
  {
    MergedFilesKind(files, path);
    var d := LastDecider(files, path);
    if d.Some? {
      assert KindAt(files[d.value], path) == LeafOf(text) <==> Lookup(files[d.value], path) == Some(Leaf(text));
      forall i | 0 <= i < |files| && Lookup(files[i], path) == Some(Leaf(text)) && forall j :: i < j < |files| ==> !Decides(files[j], path)
        ensures i == d.value
      {
        assert Decides(files[i], path);
      }
    } else {
      forall i | 0 <= i < |files|
        ensures Lookup(files[i], path) != Some(Leaf(text))
      {
        assert !Decides(files[i], path);
      }
    }
  }

  // ----- grouping

  ghost predicate SameKinds(s: Tree, t: Tree) {
    forall path :: KindAt(s, path) == KindAt(t, path)
  }

  /** Trees with the same kinds at all paths are equal. */
  lemma {:induction false} KindsDetermine(s: Tree, t: Tree)
    requires SameKinds(s, t)
    ensures s == t
    decreases Table(s)
  {
    forall k
      ensures k in s <==> k in t
      ensures k in s ==> s[k] == t[k]
    {
      assert KindAt(s, [k]) == KindAt(t, [k]);
      if k in s && s[k].Table? {
        forall path
          ensures KindAt(s[k].entries, path) == KindAt(t[k].entries, path)
        {
          assert KindAt(s, [k] + path) == KindAt(t, [k] + path);
          if path != [] {
            assert ([k] + path)[1..] == path;
          }
        }
        KindsDetermine(s[k].entries, t[k].entries);
      }
    }
  }

  /** A leaf of `middle` hides what `first` has at the path, and a table of `last` takes the place of
      that leaf without saying anything about the path. */
  ghost predicate Resurrects(first: Tree, middle: Tree, last: Tree, path: Path) {
    && KindAt(first, path) != Nothing && !Decides(last, path)
    && exists n :: 0 < n < |path| && KindAt(middle, path[..n]).LeafOf? && KindAt(last, path[..n]) == SomeTable
  }

  lemma {:induction false} NoNodeBelowNothing(t: Tree, path: Path, n: nat)
    requires 0 < n <= |path| && KindAt(t, path[..n]) != SomeTable && n < |path|
    ensures KindAt(t, path) == Nothing
    decreases |path|
  {
    if path[0] !in t {
      BelowNothing(t, path);
    } else if t[path[0]].Leaf? {
      BelowLeaf(t, path);
    } else if n == 1 {
      assert false;
    } else {
      BelowTable(t, path);
      assert path[..n][1..] == path[1..][..n - 1];
      NoNodeBelowNothing(t[path[0]].entries, path[1..], n - 1);
    }
  }

  /** A leaf that blocks a path is the only one, and everything below it is absent. */
  lemma BlockedHasNothing(t: Tree, path: Path)
    requires Blocks(t, path)
    ensures KindAt(t, path) == Nothing
  {
    var n :| 0 < n < |path| && KindAt(t, path[..n]).LeafOf?;
    NoNodeBelowNothing(t, path, n);
  }

  lemma LeafPrefixUnique(t: Tree, path: Path, m: nat, n: nat)
    requires 0 < m < |path| && 0 < n < |path| && KindAt(t, path[..m]).LeafOf? && KindAt(t, path[..n]).LeafOf?
    ensures m == n
  {
    if m < n {
      assert path[..n][..m] == path[..m];
      NoNodeBelowNothing(t, path[..n], m);
    } else if n < m {
      assert path[..m][..n] == path[..n];
      NoNodeBelowNothing(t, path[..m], n);
    }
  }

  /** What blocks a path blocks everything below it. */
  lemma BlocksBelow(t: Tree, path: Path, n: nat)
    requires n <= |path| && Blocks(t, path[..n])
    ensures Blocks(t, path)
  {
    var m :| 0 < m < n && KindAt(t, path[..n][..m]).LeafOf?;
    assert path[..n][..m] == path[..m];
  }

  /** When `last` does not decide, the merge of the other two with `last` decides unless the leaf of
      `middle` in the way has been replaced by a table of `last`. */
  lemma MergeDecides(middle: Tree, last: Tree, path: Path)
    requires !Decides(last, path)
    ensures Decides(Merge(middle, last), path) <==>
            KindAt(middle, path) != Nothing
            || exists n :: 0 < n < |path| && KindAt(middle, path[..n]).LeafOf? && KindAt(last, path[..n]) != SomeTable
  {
    var both := Merge(middle, last);
    MergedKind(middle, last, path);
    forall n | 0 < n < |path|
      ensures KindAt(both, path[..n]).LeafOf? <==> KindAt(middle, path[..n]).LeafOf? && KindAt(last, path[..n]) != SomeTable
    {
      MergedKind(middle, last, path[..n]);
      assert !KindAt(last, path[..n]).LeafOf?;
      if Blocks(last, path[..n]) {
        BlocksBelow(last, path, n);
      }
    }
  }

  lemma GroupingAt(first: Tree, middle: Tree, last: Tree, path: Path)
    ensures KindAt(Merge(first, Merge(middle, last)), path) == KindAt(Merge(Merge(first, middle), last), path)
            <==> !Resurrects(first, middle, last, path)
  {
    MergedKind(first, Merge(middle, last), path);
    MergedKind(Merge(first, middle), last, path);
    MergedKind(first, middle, path);
    MergedKind(middle, last, path);
    if Decides(last, path) {
      if KindAt(last, path) == Nothing {
        assert Blocks(last, path);
        var n :| 0 < n < |path| && KindAt(last, path[..n]).LeafOf?;
        MergedKind(middle, last, path[..n]);
        assert Decides(Merge(middle, last), path);
      }
    } else {
      MergeDecides(middle, last, path);
      if Blocks(middle, path) {
        BlockedHasNothing(middle, path);
        var n :| 0 < n < |path| && KindAt(middle, path[..n]).LeafOf?;
        forall m | 0 < m < |path| && KindAt(middle, path[..m]).LeafOf?
          ensures m == n
        {
          LeafPrefixUnique(middle, path, m, n);
        }
      }
    }
  }

  /** Merging is associative exactly when nothing is hidden by a leaf and then resurrected. */
  lemma AssociativeExactlyWithoutResurrection(first: Tree, middle: Tree, last: Tree)
    ensures Merge(first, Merge(middle, last)) == Merge(Merge(first, middle), last)
            <==> forall path :: !Resurrects(first, middle, last, path)
  {
    var right, left := Merge(first, Merge(middle, last)), Merge(Merge(first, middle), last);
    forall path
      ensures KindAt(right, path) == KindAt(left, path) <==> !Resurrects(first, middle, last, path)
    {
      GroupingAt(first, middle, last, path);
    }
    if forall path :: !Resurrects(first, middle, last, path) {
      assert SameKinds(right, left);
      KindsDetermine(right, left);
    }
  }

  /** In particular when no path is a leaf in the middle file and a table in the last one. */
  lemma AssociativeWhenKindsAgree(first: Tree, middle: Tree, last: Tree)
    requires forall path :: KindAt(middle, path).LeafOf? ==> KindAt(last, path) != SomeTable
    ensures Merge(first, Merge(middle, last)) == Merge(Merge(first, middle), last)
  {
    AssociativeExactlyWithoutResurrection(first, middle, last);
  }

  /** A concrete resurrection: a table, then a scalar, then a table again. */
  lemma GroupingMatters()
    ensures var first: Tree := map["telemetry" := Table(map["endpoint" := Leaf("a")])];
            var middle: Tree := map["telemetry" := Leaf("off")];
            var last: Tree := map["telemetry" := Table(map["enabled" := Leaf("true")])];
            Merge(first, Merge(middle, last)) != Merge(Merge(first, middle), last)
  {
    var first: Tree := map["telemetry" := Table(map["endpoint" := Leaf("a")])];
    var middle: Tree := map["telemetry" := Leaf("off")];
    var last: Tree := map["telemetry" := Table(map["enabled" := Leaf("true")])];
    var path := ["telemetry", "endpoint"];
    assert path[..1] == ["telemetry"] && path[1..] == ["endpoint"];
    assert "telemetry"[0] == 't' && "endpoint"[0] == 'e' && |"enabled"| == 7 && |"endpoint"| == 8;
    assert KindAt(first, path) == SomeTable || KindAt(first, path) == LeafOf("a");
    assert KindAt(middle, path[..1]) == LeafOf("off");
    assert KindAt(last, path[..1]) == SomeTable;
    assert KindAt(last, path) == Nothing;
    forall n | 0 < n < |path|
      ensures !KindAt(last, path[..n]).LeafOf?
    {
    }
    assert Resurrects(first, middle, last, path);
    GroupingAt(first, middle, last, path);
  }
}
