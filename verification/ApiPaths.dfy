/**
 How the access-control round tripper reads a Kubernetes request path
 (pkg/kubernetes/accesscontrol_round_tripper.go), against how resource paths are printed.
 */
module ApiPaths {
  import opened Wrappers
  import opened Strings

  const NAMESPACES: string := "namespaces"

  datatype Gvr = Gvr(group: string, version: string, resource: string)

  /** The segments of a path: it is trimmed of slashes and then split at them. */
  function Parts(path: string): (parts: seq<string>)
    ensures parts != []
  {
    Split(Trim(path, '/'), '/')
  }

  function GvrOf(parts: seq<string>): Option<Gvr>
    requires parts != []
  {
    if parts[0] == "api" then
      if |parts| < 3 then None
      else Some(Gvr("", parts[1], if parts[2] == NAMESPACES && |parts| > 4 then parts[4] else parts[2]))
    else if parts[0] == "apis" then
      if |parts| < 4 then None
      else Some(Gvr(parts[1], parts[2], if parts[3] == NAMESPACES && |parts| > 5 then parts[5] else parts[3]))
    else None
  }

  function ParseUrlToGvr(path: string): Option<Gvr> {
    GvrOf(Parts(path))
  }

  function FindResourceTypeIndex(parts: seq<string>): (r: Option<nat>)
    ensures r.Some? ==> 2 <= r.value < |parts|
  {
    if parts == [] then None
    else if parts[0] == "api" then
      if |parts| < 3 then None else if parts[2] == NAMESPACES && |parts| > 4 then Some(4) else Some(2)
    else if parts[0] == "apis" then
      if |parts| < 4 then None else if parts[3] == NAMESPACES && |parts| > 5 then Some(5) else Some(3)
    else None
  }

  /** A segment that announces a namespace: the marker, with a segment after it. */
  predicate Announces(parts: seq<string>, i: nat) {
    i + 1 < |parts| && parts[i] == NAMESPACES
  }

  function FirstAnnounced(parts: seq<string>, i: nat): string
    requires i <= |parts|
    decreases |parts| - i
  {
    if i == |parts| then "" else if Announces(parts, i) then parts[i + 1] else FirstAnnounced(parts, i + 1)
  }

  function NameAfter(parts: seq<string>, index: Option<nat>): string {
    if index.Some? && index.value + 1 < |parts| then parts[index.value + 1] else ""
  }

  method ParseUrlToNamespaceAndName(path: string) returns (namespace: string, name: string)
    ensures namespace == FirstAnnounced(Parts(path), 0)
    ensures name == NameAfter(Parts(path), FindResourceTypeIndex(Parts(path)))
  {
    var parts := Parts(path);
    namespace, name := "", "";
    var i := 0;
    while i < |parts|
      invariant 0 <= i <= |parts|
      invariant forall j :: 0 <= j < i ==> !Announces(parts, j)
      invariant namespace == ""
      invariant FirstAnnounced(parts, 0) == FirstAnnounced(parts, i)
    {
      if parts[i] == NAMESPACES && i + 1 < |parts| {
        namespace := parts[i + 1];
        break;
      }
      i := i + 1;
    }
    var resourceIdx := FindResourceTypeIndex(parts);
    if resourceIdx.Some? && resourceIdx.value + 1 < |parts| {
      name := parts[resourceIdx.value + 1];
    }
  }

  predicate IsCollectionPath(path: string) {
    var index := FindResourceTypeIndex(Parts(path));
    index.Some? && index.value == |Parts(path)| - 1
  }

  function HttpMethodToVerb(httpMethod: string, path: string): string {
    if httpMethod == "GET" then if IsCollectionPath(path) then "list" else "get"
    else if httpMethod == "POST" then "create"
    else if httpMethod == "PUT" then "update"
    else if httpMethod == "PATCH" then "patch"
    else if httpMethod == "DELETE" then if IsCollectionPath(path) then "deletecollection" else "delete"
    else ToLower(httpMethod)
  }

  function StripApiPathPrefix(path: string, prefix: string): string {
    var p := TrimSuffix(prefix, '/');
    if p == "" then path
    else if path == p then "/"
    else if p + "/" <= path then path[|p|..]
    else path
  }

  /** The two readers of a path agree, whatever the path is, and find a resource in everything below a group and version. */
  lemma ReadersAgree(path: string)
    ensures ParseUrlToGvr(path).Some? <==>
              (Parts(path)[0] == "api" && |Parts(path)| >= 3) || (Parts(path)[0] == "apis" && |Parts(path)| >= 4)
    ensures ParseUrlToGvr(path).Some? <==> FindResourceTypeIndex(Parts(path)).Some?
    ensures ParseUrlToGvr(path).Some? ==> ParseUrlToGvr(path).value.resource == Parts(path)[FindResourceTypeIndex(Parts(path)).value]
  {
  }

  // ----- printing

  /** What a request is about. A path without a namespace is cluster-scoped, one without a name is a collection. */
  datatype Target = Target(gvr: Gvr, namespace: Option<string>, name: Option<string>, subresources: seq<string>)

  function Root(gvr: Gvr): seq<string> {
    if gvr.group == "" then ["api", gvr.version] else ["apis", gvr.group, gvr.version]
  }

  function Segments(t: Target): seq<string> {
    Root(t.gvr)
    + (if t.namespace.Some? then [NAMESPACES, t.namespace.value] else [])
    + [t.gvr.resource]
    + Tail(t)
  }

  function Tail(t: Target): seq<string> {
    (if t.name.Some? then [t.name.value] else []) + t.subresources
  }

  predicate Segment(s: string) {
    s != "" && '/' !in s
  }

  /** Names that can stand in a path; any of them may be the namespace marker. */
  predicate Printable(t: Target) {
    && (t.gvr.group == "" || Segment(t.gvr.group)) && Segment(t.gvr.version) && Segment(t.gvr.resource)
    && (t.namespace.Some? ==> Segment(t.namespace.value))
    && (t.name.Some? ==> Segment(t.name.value))
    && (t.subresources != [] ==> t.name.Some?)
    && (forall i :: 0 <= i < |t.subresources| ==> Segment(t.subresources[i]))
  }

  /** The path of a resource, with any number of slashes around it. */
  function Print(t: Target, lead: string, trail: string): string {
    lead + Join(Segments(t), '/') + trail
  }

  predicate AllSegments(parts: seq<string>) {
    forall i :: 0 <= i < |parts| ==> Segment(parts[i])
  }

  lemma SegmentsAreSegments(t: Target)
    requires Printable(t)
    ensures AllSegments(Segments(t)) && "" !in Segments(t) && Free(Segments(t), '/')
  {
    var marker := if t.namespace.Some? then [NAMESPACES, t.namespace.value] else [];
    assert Segment("api") && Segment("apis") && Segment(NAMESPACES);
    assert AllSegments(Root(t.gvr)) && AllSegments(marker) && AllSegments([t.gvr.resource]) && AllSegments(Tail(t));
    hide Root, Tail, Segment, Printable;
    assert AllSegments(Root(t.gvr) + marker + [t.gvr.resource] + Tail(t));
    forall i | 0 <= i < |Segments(t)|
      ensures Segments(t)[i] != "" && '/' !in Segments(t)[i]
    {
      SegmentMeans(Segments(t)[i]);
    }
  }

  lemma SegmentMeans(s: string)
    requires Segment(s)
    ensures s != "" && '/' !in s
  {
  }

  lemma PartsOfPrinted(t: Target, lead: string, trail: string)
    requires Printable(t) && AllOf(lead, '/') && AllOf(trail, '/')
    ensures Parts(Print(t, lead, trail)) == Segments(t)
  {
    var parts := Segments(t);
    SegmentsAreSegments(t);
    hide Segments, Join, Trim, Split, Printable;
    JoinEnds(parts, '/');
    TrimUndoesPadding(lead, Join(parts, '/'), trail, '/');
    SplitUndoesJoin(parts, '/');
  }

  /** A Namespace lies in the namespace of its own name. */
  function NamespaceOf(t: Target): string {
    if t.namespace.Some? then t.namespace.value
    else if t.gvr.resource == NAMESPACES then t.name.GetOr("")
    else ""
  }

  /**
   The targets whose resource and name are read correctly: all in a namespace, all cluster-scoped ones but
   Namespaces, and Namespaces without a subresource (or with one that repeats the marker and the name).
   */
  predicate ResourceReadable(t: Target) {
    || t.namespace.Some?
    || t.gvr.resource != NAMESPACES
    || t.subresources == []
    || (|t.subresources| >= 2 && t.subresources[0] == NAMESPACES && t.name == Some(t.subresources[1]))
  }

  /**
   The targets whose namespace is read correctly: those in a namespace, Namespaces, and others where no later
   segment announces a namespace. A group or a version that is called like the marker comes first, and
   then the next segment is read as the namespace.
   */
  predicate NamespaceReadable(t: Target) {
    if t.gvr.group == NAMESPACES then NamespaceOf(t) == t.gvr.version
    else if t.gvr.version == NAMESPACES then NamespaceOf(t) == if t.namespace.Some? then NAMESPACES else t.gvr.resource
    else t.namespace.Some? || t.gvr.resource == NAMESPACES || forall j: nat :: j < |Tail(t)| ==> !Announces(Tail(t), j)
  }

  predicate Readable(t: Target) {
    ResourceReadable(t) && NamespaceReadable(t)
  }

  lemma {:induction false} FirstAnnouncedAt(parts: seq<string>, i: nat, j: nat)
    requires i <= j && Announces(parts, j) && forall k: nat :: i <= k < j ==> !Announces(parts, k)
    ensures FirstAnnounced(parts, i) == parts[j + 1]
    decreases j - i
  {
    if i < j {
      FirstAnnouncedAt(parts, i + 1, j);
    }
  }

  lemma {:induction false} FirstAnnouncedOrNone(parts: seq<string>, i: nat)
    requires i <= |parts| && "" !in parts
    ensures FirstAnnounced(parts, i) == "" <==> forall j: nat :: i <= j < |parts| ==> !Announces(parts, j)
    decreases |parts| - i
  {
    if i < |parts| && !Announces(parts, i) {
      FirstAnnouncedOrNone(parts, i + 1);
    }
  }

  lemma RootSegments(t: Target)
    requires Printable(t)
    ensures var root := Root(t.gvr);
            && |root| >= 2 && root[0] != NAMESPACES && root[|root| - 1] == t.gvr.version
            && (t.gvr.group == NAMESPACES ==> root[1] == NAMESPACES && |root| == 3)
            && (t.gvr.group != NAMESPACES ==> forall k: nat :: k < |root| - 1 ==> root[k] != NAMESPACES)
  {
    assert NAMESPACES != "";
  }

  lemma SegmentsAre(t: Target)
    requires Printable(t)
    ensures "" !in Segments(t) && Segments(t) != []
    ensures var parts, n := Segments(t), |Root(t.gvr)|;
            && n >= 2 && |parts| > n && parts[..n] == Root(t.gvr) && (forall k: nat :: k < n ==> parts[k] == Root(t.gvr)[k])
            && (t.namespace.None? ==> |parts| == n + 1 + |Tail(t)| && parts[n] == t.gvr.resource && parts[n + 1..] == Tail(t))
            && (t.namespace.Some? ==> |parts| == n + 3 + |Tail(t)| && parts[n] == NAMESPACES && parts[n + 1] == t.namespace.value
                                      && parts[n + 2] == t.gvr.resource && parts[n + 3..] == Tail(t))
  {
    SegmentsAreSegments(t);
    RootSegments(t);
    hide Root, Printable, Segment, AllSegments, Tail;
    assert Segments(t)[..|Root(t.gvr)|] == Root(t.gvr);
    assert forall k: nat :: k < |Root(t.gvr)| ==> Segments(t)[k] == Root(t.gvr)[k];
  }

  /** Everything but the namespace that is read from the segments of a path. */
  predicate ResourceReadsBack(t: Target, parts: seq<string>)
    requires parts != []
  {
    var index := FindResourceTypeIndex(parts);
    && GvrOf(parts) == Some(t.gvr)
    && NameAfter(parts, index) == t.name.GetOr("")
    && ((index.Some? && index.value == |parts| - 1) <==> t.name.None?)
  }

  function IndexIn(t: Target): nat {
    var parts, n := Segments(t), |Root(t.gvr)|;
    if parts[n] == NAMESPACES && |parts| > n + 2 then n + 2 else n
  }

  lemma ReadersOnSegments(t: Target)
    requires Printable(t)
    ensures FindResourceTypeIndex(Segments(t)) == Some(IndexIn(t))
    ensures GvrOf(Segments(t)) == Some(t.gvr.(resource := Segments(t)[IndexIn(t)]))
  {
    SegmentsAre(t);
    var parts, n := Segments(t), |Root(t.gvr)|;
    hide Segments;
    assert parts[0] == parts[..n][0] && parts[1] == parts[..n][1] && (n == 3 ==> parts[2] == parts[..n][2]);
  }

  /** The index points at the resource of the target. */
  lemma ReadsAt(t: Target, parts: seq<string>, i: nat)
    requires Printable(t) && i < |parts| && parts[i..] == [t.gvr.resource] + Tail(t)
    requires FindResourceTypeIndex(parts) == Some(i) && GvrOf(parts) == Some(t.gvr.(resource := parts[i]))
    ensures ResourceReadsBack(t, parts)
  {
    hide FindResourceTypeIndex, GvrOf;
    assert parts[i] == parts[i..][0];
    if t.name.Some? {
      assert parts[i + 1] == parts[i..][1] == Tail(t)[0];
    }
  }

  /** The index points at the first subresource of a Namespace. */
  lemma ReadsSubresource(t: Target, parts: seq<string>, i: nat)
    requires Printable(t) && t.gvr.resource == NAMESPACES && t.namespace.None? && t.subresources != []
    requires i < |parts| && parts[i..] == t.subresources
    requires FindResourceTypeIndex(parts) == Some(i) && GvrOf(parts) == Some(t.gvr.(resource := parts[i]))
    ensures ResourceReadsBack(t, parts) <==> ResourceReadable(t)
  {
    hide FindResourceTypeIndex, GvrOf;
    assert parts[i] == parts[i..][0];
    assert |t.subresources| >= 2 ==> parts[i + 1] == parts[i..][1];
  }

  predicate HasSubresourceOfNamespace(t: Target) {
    t.namespace.None? && t.gvr.resource == NAMESPACES && t.subresources != []
  }

  lemma IndexOf(t: Target)
    requires Printable(t)
    ensures IndexIn(t) == |Root(t.gvr)| + if t.namespace.Some? || HasSubresourceOfNamespace(t) then 2 else 0
  {
    SegmentsAre(t);
    hide Segments, Root;
  }

  /** What the path has from the index on. */
  lemma FromIndex(t: Target)
    requires Printable(t)
    ensures IndexIn(t) < |Segments(t)|
    ensures Segments(t)[IndexIn(t)..] == if HasSubresourceOfNamespace(t) then t.subresources else [t.gvr.resource] + Tail(t)
  {
    IndexOf(t);
    SegmentsAre(t);
    var parts, n := Segments(t), |Root(t.gvr)|;
    hide Segments, Root, IndexIn;
    if t.namespace.Some? {
      assert parts[n + 2..] == [parts[n + 2]] + parts[n + 3..];
    } else if HasSubresourceOfNamespace(t) {
      assert parts[n + 2..] == parts[n + 1..][1..];
      assert Tail(t)[1..] == t.subresources;
    } else {
      assert parts[n..] == [parts[n]] + parts[n + 1..];
    }
  }

  lemma ResourceIsReadBack(t: Target)
    requires Printable(t)
    ensures ResourceReadsBack(t, Segments(t)) <==> ResourceReadable(t)
  {
    SegmentsAreSegments(t);
    FromIndex(t);
    ReadersOnSegments(t);
    hide Segments, FindResourceTypeIndex, GvrOf, ResourceReadsBack, IndexIn, Tail;
    if HasSubresourceOfNamespace(t) {
      ReadsSubresource(t, Segments(t), IndexIn(t));
    } else {
      ReadsAt(t, Segments(t), IndexIn(t));
    }
  }

  /** A group or a version called like the marker is what the search finds. */
  lemma MarkerInRoot(t: Target)
    requires Printable(t) && (t.gvr.group == NAMESPACES || t.gvr.version == NAMESPACES)
    ensures FirstAnnounced(Segments(t), 0) == if t.gvr.group == NAMESPACES then t.gvr.version else Segments(t)[|Root(t.gvr)|]
  {
    SegmentsAre(t);
    RootSegments(t);
    var parts, n := Segments(t), |Root(t.gvr)|;
    hide Segments, Root, Printable;
    FirstAnnouncedAt(parts, 0, if t.gvr.group == NAMESPACES then 1 else n - 1);
  }

  /** Where neither the root nor the resource is called like the marker, the first announcement is in the tail. */
  lemma MarkerInTail(t: Target)
    requires Printable(t) && t.gvr.group != NAMESPACES && t.gvr.version != NAMESPACES
    requires t.namespace.None? && (t.gvr.resource != NAMESPACES || t.name.None?)
    ensures FirstAnnounced(Segments(t), 0) == "" <==> forall j: nat :: j < |Tail(t)| ==> !Announces(Tail(t), j)
  {
    SegmentsAre(t);
    RootSegments(t);
    var parts, n := Segments(t), |Root(t.gvr)|;
    FirstAnnouncedOrNone(parts, 0);
    hide Segments, Root, FirstAnnounced;
    forall j: nat | j < |Tail(t)|
      ensures Announces(parts, n + 1 + j) <==> Announces(Tail(t), j)
    {
      assert parts[n + 1 + j] == parts[n + 1..][j];
      assert j + 1 < |Tail(t)| ==> parts[n + 2 + j] == parts[n + 1..][j + 1];
    }
    forall j: nat | j < |parts| && Announces(parts, j)
      ensures j >= n + 1 && Announces(Tail(t), j - n - 1)
    {
      assert parts[j] == NAMESPACES;
    }
  }

  /** The search on a path whose group and version are not called like the marker. */
  lemma MarkerAfterRoot(t: Target)
    requires Printable(t) && t.gvr.group != NAMESPACES && t.gvr.version != NAMESPACES
    ensures FirstAnnounced(Segments(t), 0) == NamespaceOf(t)
            <==> t.namespace.Some? || t.gvr.resource == NAMESPACES || forall j: nat :: j < |Tail(t)| ==> !Announces(Tail(t), j)
  {
    if t.namespace.None? && (t.gvr.resource != NAMESPACES || t.name.None?) {
      MarkerInTail(t);
    } else {
      SegmentsAre(t);
      RootSegments(t);
      var parts, n := Segments(t), |Root(t.gvr)|;
      hide Segments, Root, FirstAnnounced;
      FirstAnnouncedAt(parts, 0, n);
      assert t.namespace.None? ==> parts[n + 1] == parts[n + 1..][0];
    }
  }

  lemma NamespaceIsReadBack(t: Target)
    requires Printable(t)
    ensures FirstAnnounced(Segments(t), 0) == NamespaceOf(t) <==> NamespaceReadable(t)
  {
    if t.gvr.group == NAMESPACES || t.gvr.version == NAMESPACES {
      MarkerInRoot(t);
      SegmentsAre(t);
      hide Segments, Root, FirstAnnounced, Printable;
    } else {
      MarkerAfterRoot(t);
    }
  }

  /** Parsing undoes printing, under any prefix that the API server is mounted at, exactly on the readable targets. */
  lemma ParsingUndoesPrinting(t: Target, prefix: string, lead: string, trail: string)
    requires Printable(t) && AllOf(lead, '/') && AllOf(trail, '/') && lead != ""
    ensures var path := StripApiPathPrefix(TrimSuffix(prefix, '/') + Print(t, lead, trail), prefix);
            Readable(t) <==>
            && ParseUrlToGvr(path) == Some(t.gvr)
            && FirstAnnounced(Parts(path), 0) == NamespaceOf(t)
            && NameAfter(Parts(path), FindResourceTypeIndex(Parts(path))) == t.name.GetOr("")
            && (IsCollectionPath(path) <==> t.name.None?)
  {
    hide Segments, FirstAnnounced, FindResourceTypeIndex, GvrOf, ResourceReadable, NamespaceReadable, Printable, Print;
    PartsOfPrinted(t, lead, trail);
    LeadingSlash(t, lead, trail);
    StrippingUndoesMounting(prefix, Print(t, lead, trail));
    ResourceIsReadBack(t);
    NamespaceIsReadBack(t);
  }

  lemma LeadingSlash(t: Target, lead: string, trail: string)
    requires AllOf(lead, '/') && lead != ""
    ensures Print(t, lead, trail) != "" && Print(t, lead, trail)[0] == '/'
  {
  }

  /** A path that does not lie below the prefix stays as it is, and the prefix itself is the root. */
  lemma OtherPathsStay(prefix: string, path: string)
    requires prefix != "" && prefix != "/"
    ensures var p := TrimSuffix(prefix, '/');
            && (path == p ==> StripApiPathPrefix(path, prefix) == "/")
            && (path != p && !(p + "/" <= path) ==> StripApiPathPrefix(path, prefix) == path)
  {
  }

  /** Whatever prefix the API server is mounted at, stripping gives the path below it. */
  lemma StrippingUndoesMounting(prefix: string, path: string)
    requires path != "" && path[0] == '/'
    ensures StripApiPathPrefix(TrimSuffix(prefix, '/') + path, prefix) == path
  {
    var p := TrimSuffix(prefix, '/');
    var mounted := p + path;
    assert mounted[|p|..] == path;
    if p != "" {
      assert mounted != p;
      assert (p + "/")[..|p|] == p && mounted[..|p|] == p && mounted[|p|] == '/';
      assert p + "/" <= mounted;
    } else {
      assert mounted == path;
    }
  }

  /** On a readable target, reading and deleting are told apart from listing and deleting a collection. */
  /** The other methods have their verb whatever the path, and an unknown method is its own verb, in lower case. */
  lemma VerbsOfMethods(httpMethod: string, path: string)
    ensures HttpMethodToVerb("POST", path) == "create"
    ensures HttpMethodToVerb("PUT", path) == "update"
    ensures HttpMethodToVerb("PATCH", path) == "patch"
    ensures httpMethod !in ["GET", "POST", "PUT", "PATCH", "DELETE"] ==> HttpMethodToVerb(httpMethod, path) == ToLower(httpMethod)
  {
    var methods := ["GET", "POST", "PUT", "PATCH", "DELETE"];
    assert forall i :: 0 <= i < |methods| ==> methods[i] in methods;
    assert methods[0] == "GET" && methods[1] == "POST" && methods[2] == "PUT" && methods[3] == "PATCH" && methods[4] == "DELETE";
  }

  lemma VerbsMatch(t: Target, lead: string, trail: string)
    requires Printable(t) && Readable(t) && AllOf(lead, '/') && AllOf(trail, '/') && lead != ""
    ensures HttpMethodToVerb("GET", Print(t, lead, trail)) == if t.name.None? then "list" else "get"
    ensures HttpMethodToVerb("DELETE", Print(t, lead, trail)) == if t.name.None? then "deletecollection" else "delete"
  {
    hide Segments, FirstAnnounced, FindResourceTypeIndex, GvrOf, Readable, Printable, Print, IsCollectionPath;
    ParsingUndoesPrinting(t, "", lead, trail);
    assert TrimSuffix("", '/') + Print(t, lead, trail) == Print(t, lead, trail);
    assert StripApiPathPrefix(Print(t, lead, trail), "") == Print(t, lead, trail);
  }

  /** A subresource of a Namespace is taken for a collection of another resource. */
  lemma NamespaceSubresourceIsMisread(t: Target, lead: string, trail: string)
    requires Printable(t) && AllOf(lead, '/') && AllOf(trail, '/')
    requires t.namespace.None? && t.gvr.resource == NAMESPACES && |t.subresources| == 1
    ensures ParseUrlToGvr(Print(t, lead, trail)) == Some(t.gvr.(resource := t.subresources[0]))
    ensures HttpMethodToVerb("GET", Print(t, lead, trail)) == "list"
  {
    PartsOfPrinted(t, lead, trail);
    SegmentsAre(t);
    var parts, n := Segments(t), |Root(t.gvr)|;
    ReadersOnSegments(t);
    hide FindResourceTypeIndex, GvrOf, Segments;
    assert parts[n + 2] == parts[n + 1..][1] == Tail(t)[1];
  }

  /** For example the status of a Namespace. */
  lemma NamespaceStatusIsMisread()
    ensures var t := Target(Gvr("", "v1", NAMESPACES), None, Some("foo"), ["status"]);
            Printable(t) && !Readable(t) && ParseUrlToGvr(Print(t, "/", "")) == Some(Gvr("", "v1", "status"))
  {
    NamespaceSubresourceIsMisread(Target(Gvr("", "v1", NAMESPACES), None, Some("foo"), ["status"]), "/", "");
  }
}
