/** kcp workspace discovery and workspace URLs of pkg/kcp/workspace.go. */
module Workspaces {
  import opened Wrappers
  import opened Strings

  /** What listing the children of a workspace gives: None when the client or the request fails. */
  type Listing = string -> Option<seq<string>>

  function Child(parent: string, name: string): string {
    parent + ":" + name
  }

  predicate Lists(list: Listing, parent: string, name: string) {
    name != "" && list(parent).Some? && name in list(parent).value
  }

  /** The workspace is the ancestor, or listed by a workspace that the ancestor reaches. */
  predicate Reaches(list: Listing, ancestor: string, workspace: string)
    decreases |workspace|
  {
    || workspace == ancestor
    || exists i :: 0 <= i < |workspace| && workspace[i] == ':'
                   && Lists(list, workspace[..i], workspace[i + 1..]) && Reaches(list, ancestor, workspace[..i])
  }

  /** The finitely many workspaces that there are. */
  ghost predicate Closed(list: Listing, universe: set<string>) {
    forall parent, name :: parent in universe && Lists(list, parent, name) ==> Child(parent, name) in universe
  }

  lemma ChildIsReached(list: Listing, ancestor: string, parent: string, name: string)
    requires Reaches(list, ancestor, parent) && Lists(list, parent, name)
    ensures Reaches(list, ancestor, Child(parent, name))
  {
    var child, i := Child(parent, name), |parent|;
    assert child[..i] == parent && child[i + 1..] == name && child[i] == ':';
  }

  lemma ChildAt(workspace: string, i: nat)
    requires i < |workspace| && workspace[i] == ':'
    ensures workspace == Child(workspace[..i], workspace[i + 1..])
  {
  }

  lemma LastStep(list: Listing, ancestor: string, workspace: string) returns (parent: string, name: string)
    requires Reaches(list, ancestor, workspace) && workspace != ancestor
    ensures workspace == Child(parent, name) && |parent| < |workspace|
    ensures Lists(list, parent, name) && Reaches(list, ancestor, parent)
  {
    var i :| 0 <= i < |workspace| && workspace[i] == ':'
             && Lists(list, workspace[..i], workspace[i + 1..]) && Reaches(list, ancestor, workspace[..i]);
    parent, name := workspace[..i], workspace[i + 1..];
    ChildAt(workspace, i);
  }

  lemma {:induction false} ReachesTransitively(list: Listing, a: string, b: string, c: string)
    requires Reaches(list, a, b) && Reaches(list, b, c)
    ensures Reaches(list, a, c)
    decreases |c|
  {
    hide Reaches, Lists, Child;
    if c != b {
      var parent, name := LastStep(list, b, c);
      ReachesTransitively(list, a, b, parent);
      ChildIsReached(list, a, parent, name);
    }
  }

  /** All children of the workspace are in the set. */
  ghost predicate Expanded(list: Listing, workspace: string, discovered: set<string>) {
    forall name :: Lists(list, workspace, name) ==> Child(workspace, name) in discovered
  }

  lemma {:induction false} ExpandedSetsHaveAll(list: Listing, root: string, discovered: set<string>, workspace: string)
    requires root in discovered && forall w :: w in discovered ==> Expanded(list, w, discovered)
    requires Reaches(list, root, workspace)
    ensures workspace in discovered
    decreases |workspace|
  {
    hide Reaches, Lists, Child;
    if workspace != root {
      var parent, name := LastStep(list, root, workspace);
      ExpandedSetsHaveAll(list, root, discovered, parent);
      assert Expanded(list, parent, discovered);
    }
  }

  /** Whatever is found besides the root lies below it, and was listed under a nonempty name by a workspace that could be listed. */
  lemma {:induction false} FoundLiesBelow(list: Listing, root: string, workspace: string)
    requires Reaches(list, root, workspace) && workspace != root
    ensures root + ":" <= workspace
    ensures exists parent, name :: workspace == parent + ":" + name && name != "" && list(parent).Some? && name in list(parent).value
    decreases |workspace|
  {
    var parent, name := LastStep(list, root, workspace);
    assert workspace == parent + ":" + name && name != "" && list(parent).Some? && name in list(parent).value;
    hide Reaches, Lists;
    if parent != root {
      FoundLiesBelow(list, root, parent);
      assert root + ":" <= parent <= workspace;
    } else {
      assert workspace == root + ":" + name;
    }
  }

  class Discovery {
    var discovered: set<string>

    constructor (root: string)
      ensures discovered == {root}
    {
      discovered := {root};
    }

    /** Adds workspaces below the parent, and leaves none of the added ones, nor the parent, with a child missing. */
    method DiscoverWorkspacesRecursive(list: Listing, parent: string, ghost universe: set<string>)
      requires Closed(list, universe) && parent in universe && discovered <= universe
      modifies this
      ensures old(discovered) <= discovered <= universe
      ensures forall w :: w in discovered - old(discovered) ==> Reaches(list, parent, w)
      ensures forall w :: w in discovered - old(discovered) + {parent} ==> Expanded(list, w, discovered)
      decreases universe - discovered
    {
      var listed := list(parent);
      if listed.None? {
        return;
      }
      var items := listed.value;
      for i := 0 to |items|
        invariant old(discovered) <= discovered <= universe
        invariant forall w :: w in discovered - old(discovered) ==> Reaches(list, parent, w) && Expanded(list, w, discovered)
        invariant forall j :: 0 <= j < i && items[j] != "" ==> Child(parent, items[j]) in discovered
      {
        var childName := items[i];
        if childName == "" {
          continue;
        }
        var fullPath := Child(parent, childName);
        if fullPath in discovered {
          continue;
        }
        ChildIsReached(list, parent, parent, childName);
        ghost var before := discovered;
        discovered := discovered + {fullPath};
        DiscoverWorkspacesRecursive(list, fullPath, universe);
        forall w | w in discovered - old(discovered)
          ensures Reaches(list, parent, w) && Expanded(list, w, discovered)
        {
          if w in before {
            assert Expanded(list, w, before);
          } else if w != fullPath {
            ReachesTransitively(list, parent, fullPath, w);
          }
        }
      }
    }
  }

  /** Discovery ends, and finds the root and everything that it reaches, each once. */
  method DiscoverAllWorkspaces(list: Listing, root: string, ghost universe: set<string>) returns (workspaces: seq<string>)
    requires Closed(list, universe) && root in universe
    ensures forall w :: w in workspaces <==> Reaches(list, root, w)
    ensures forall i, j :: 0 <= i < j < |workspaces| ==> workspaces[i] != workspaces[j]
  {
    var all := new Discovery(root);
    all.DiscoverWorkspacesRecursive(list, root, universe);
    forall w | Reaches(list, root, w)
      ensures w in all.discovered
    {
      ExpandedSetsHaveAll(list, root, all.discovered, w);
    }
    workspaces := [];
    var rest := all.discovered;
    while rest != {}
      invariant forall w :: w in all.discovered <==> w in rest || w in workspaces
      invariant forall w :: w in rest ==> w !in workspaces
      invariant forall i, j :: 0 <= i < j < |workspaces| ==> workspaces[i] != workspaces[j]
    {
      var ws :| ws in rest;
      workspaces := workspaces + [ws];
      rest := rest - {ws};
    }
  }

  // ----- workspace URLs

  const MARKER: string := "/clusters/"

  /** Where the pattern first occurs. */
  function Index(s: string, pattern: string): (r: Option<nat>)
    ensures r.Some? ==> r.value + |pattern| <= |s| && pattern <= s[r.value..]
                        && forall i :: 0 <= i < r.value ==> !(pattern <= s[i..])
    ensures r.None? ==> forall i :: 0 <= i <= |s| ==> !(pattern <= s[i..])
  {
    if pattern <= s then Some(0)
    else if s == "" then None
    else
      var r := Index(s[1..], pattern);
      assert forall i :: 0 < i <= |s| ==> s[i..] == s[1..][i - 1..];
      if r.Some? then Some(r.value + 1) else None
  }

  function ParseServerUrl(url: string): (string, string) {
    match Index(url, MARKER)
    case None => (url, "")
    case Some(i) => (url[..i], TrimSuffix(url[i + |MARKER|..], '/'))
  }

  function ConstructWorkspaceUrl(baseUrl: string, workspace: string): string {
    baseUrl + MARKER + workspace
  }

  /** The marker is not already in the base URL, not even with the help of the marker that is added. */
  predicate IsBase(baseUrl: string) {
    Index(baseUrl + MARKER[..|MARKER| - 1], MARKER).None?
  }

  lemma FirstMarker(baseUrl: string, rest: string)
    ensures Index(baseUrl + MARKER + rest, MARKER) == Some(|baseUrl|) <==> IsBase(baseUrl)
  {
    var short, url := baseUrl + MARKER[..|MARKER| - 1], baseUrl + MARKER + rest;
    assert url[|baseUrl|..] == MARKER + rest;
    assert MARKER <= url[|baseUrl|..];
    forall i | 0 <= i < |baseUrl|
      ensures MARKER <= url[i..] <==> MARKER <= short[i..]
    {
      assert url[i..][..|MARKER|] == short[i..][..|MARKER|];
    }
    forall i | |baseUrl| <= i <= |short|
      ensures !(MARKER <= short[i..])
    {
      assert |short[i..]| < |MARKER|;
    }
  }

  /** Parsing undoes construction exactly for proper bases and workspaces without a trailing slash. */
  lemma ParsingUndoesConstruction(baseUrl: string, workspace: string)
    ensures ParseServerUrl(ConstructWorkspaceUrl(baseUrl, workspace)) == (baseUrl, workspace)
            <==> IsBase(baseUrl) && (workspace != "" ==> workspace[|workspace| - 1] != '/')
  {
    hide Index, IsBase;
    var url := ConstructWorkspaceUrl(baseUrl, workspace);
    FirstMarker(baseUrl, workspace);
    assert url[..|baseUrl|] == baseUrl && url[|baseUrl| + |MARKER|..] == workspace;
    assert Index(url, MARKER).Some? by {
      assert url[|baseUrl|..] == MARKER + workspace;
      assert MARKER <= url[|baseUrl|..];
    }
  }

  /** The base that comes out of a workspace URL is fit for the URLs of all its workspaces. */
  lemma ParsedBasesAreBases(url: string, workspace: string)
    requires Index(url, MARKER).Some? && (workspace != "" ==> workspace[|workspace| - 1] != '/')
    ensures var baseUrl := ParseServerUrl(url).0;
            ParseServerUrl(ConstructWorkspaceUrl(baseUrl, workspace)) == (baseUrl, workspace)
  {
    hide IsBase, ConstructWorkspaceUrl;
    var i := Index(url, MARKER).value;
    MarkerSplits(url, i);
    FirstMarker(url[..i], url[i + |MARKER|..]);
    ParsingUndoesConstruction(url[..i], workspace);
  }

  /** A URL without the marker in it is a server without a workspace. */
  lemma UnmarkedUrlsHaveNoWorkspace(url: string)
    requires forall i :: 0 <= i <= |url| ==> !("/clusters/" <= url[i..])
    ensures ParseServerUrl(url) == (url, "")
  {
  }

  lemma MarkerSplits(url: string, i: nat)
    requires Index(url, MARKER) == Some(i)
    ensures url == url[..i] + MARKER + url[i + |MARKER|..]
  {
    hide Index;
    assert url[i..][..|MARKER|] == MARKER;
    assert url == url[..i] + url[i..][..|MARKER|] + url[i..][|MARKER|..];
  }

  lemma TrimSuffixCuts(s: string, c: char)
    ensures s == TrimSuffix(s, c) || s == TrimSuffix(s, c) + [c]
  {
  }

  lemma Regroup(a: string, b: string, c: string, d: string)
    ensures a + b + (c + d) == a + b + c + d
  {
  }

  /** Construction undoes parsing, but for a trailing slash. */
  lemma ConstructionUndoesParsing(url: string)
    requires Index(url, MARKER).Some?
    ensures var (baseUrl, workspace) := ParseServerUrl(url);
            url == ConstructWorkspaceUrl(baseUrl, workspace) || url == ConstructWorkspaceUrl(baseUrl, workspace) + "/"
  {
    hide Index, TrimSuffix;
    var i := Index(url, MARKER).value;
    var baseUrl, rest := url[..i], url[i + |MARKER|..];
    MarkerSplits(url, i);
    TrimSuffixCuts(rest, '/');
    Regroup(baseUrl, MARKER, TrimSuffix(rest, '/'), "/");
  }
}
