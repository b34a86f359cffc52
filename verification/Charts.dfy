/**
 The chart allowlist of pkg/helm: entries are normalised once by Validate, and a chart reference is
 then matched as a string against them. URL parsing is an oracle.
 */
module Charts {
  import opened Wrappers
  import opened Strings

  datatype Url = Url(scheme: string, host: string, path: string)

  /** None is a parse error; the scheme of a plain name is empty. */
  type Parser = string -> Option<Url>

  /** What a parsed URL with a scheme looks like: no slash in the host, and the path is empty or rooted. */
  predicate WellFormed(u: Url) {
    '/' !in u.host && (u.path != "" ==> u.path[0] == '/')
  }

  // ----- cleaned paths

  /** The effect of path.Clean on the segments of a rooted path. */
  function CleanSegments(segments: seq<string>): (r: seq<string>)
    ensures "" !in r && "." !in r && ".." !in r
    ensures forall i :: 0 <= i < |r| ==> r[i] in segments
  {
    if segments == [] then []
    else
      var n := |segments| - 1;
      var r := CleanSegments(segments[..n]);
      assert forall i :: 0 <= i < |r| ==> r[i] in segments[..n] && r[i] in segments;
      if segments[n] == "" || segments[n] == "." then r
      else if segments[n] == ".." then if r == [] then [] else r[..|r| - 1]
      else r + [segments[n]]
  }

  function Rooted(segments: seq<string>): string {
    if segments == [] then "" else "/" + segments[0] + Rooted(segments[1..])
  }

  /** The cleaned path of a chart, where the source turns the "." for an empty path back into an empty one. */
  function Cleaned(path: string): string {
    if path == "" then ""
    else if CleanSegments(Split(path, '/')) == [] then "/"
    else Rooted(CleanSegments(Split(path, '/')))
  }

  function TrimRight(s: string, cut: char): (r: string)
    ensures r <= s && (r != "" ==> r[|r| - 1] != cut)
    ensures AllOf(s[|r|..], cut)
  {
    if s != "" && s[|s| - 1] == cut then TrimRight(s[..|s| - 1], cut) else s
  }

  // ----- normalisation of the configuration

  function Prefix(u: Url): string {
    ToLower(u.scheme) + "://" + ToLower(u.host)
  }

  function NormalizedEntry(u: Url): string {
    Prefix(u) + TrimRight(u.path, '/')
  }

  function NormalizedChart(u: Url): string {
    Prefix(u) + Cleaned(u.path)
  }

  predicate IsRegistryScheme(scheme: string) {
    ToLower(scheme) == "oci" || ToLower(scheme) == "https"
  }

  predicate ValidEntry(entry: string, parse: Parser) {
    var u := parse(entry);
    u.Some? && IsRegistryScheme(u.value.scheme) && u.value.host != ""
  }

  predicate ValidDriver(driver: string) {
    driver == "" || ToLower(driver) == "secret" || ToLower(driver) == "configmap"
  }

  /** An entry is good exactly if it is a URL with a host, and with one of the two schemes in any case of letters. */
  lemma ValidEntriesAreRegistries(entry: string, parse: Parser)
    ensures ValidEntry(entry, parse) <==>
              && parse(entry).Some? && parse(entry).value.host != ""
              && (EqualFold(parse(entry).value.scheme, "oci") || EqualFold(parse(entry).value.scheme, "https"))
  {
    if parse(entry).Some? {
      SchemesIgnoreCase(parse(entry).value.scheme);
    }
  }

  lemma SchemesIgnoreCase(scheme: string)
    ensures IsRegistryScheme(scheme) <==> EqualFold(scheme, "oci") || EqualFold(scheme, "https")
  {
    hide ToLower, EqualFold;
    LoweredTo(scheme, "oci");
    LoweredTo(scheme, "https");
  }

  lemma DriversIgnoreCase(driver: string)
    ensures ValidDriver(driver) <==> driver == "" || EqualFold(driver, "secret") || EqualFold(driver, "configmap")
  {
    hide ToLower, EqualFold;
    LoweredTo(driver, "secret");
    LoweredTo(driver, "configmap");
  }

  datatype ConfigError = InvalidEntry(index: nat) | UnsupportedDriver

  class Config {
    var allowedRegistries: array<string>
    var storageDriver: string

    constructor (allowedRegistries: array<string>, storageDriver: string)
      ensures this.allowedRegistries == allowedRegistries && this.storageDriver == storageDriver
    {
      this.allowedRegistries := allowedRegistries;
      this.storageDriver := storageDriver;
    }

    /** Entries are rewritten in place up to the first invalid one, the driver only once all entries are valid. */
    method Validate(parse: Parser) returns (err: Option<ConfigError>)
      modifies this`storageDriver, allowedRegistries
      ensures err.None? <==> (forall i :: 0 <= i < allowedRegistries.Length ==> ValidEntry(old(allowedRegistries[i]), parse))
                             && ValidDriver(old(storageDriver))
      ensures match err
              case Some(InvalidEntry(k)) =>
                && k < allowedRegistries.Length && !ValidEntry(old(allowedRegistries[k]), parse)
                && (forall i :: 0 <= i < k ==> ValidEntry(old(allowedRegistries[i]), parse) && allowedRegistries[i] == NormalizedEntry(parse(old(allowedRegistries[i])).value))
                && (forall i :: k <= i < allowedRegistries.Length ==> allowedRegistries[i] == old(allowedRegistries[i]))
                && storageDriver == old(storageDriver)
              case _ =>
                && (forall i :: 0 <= i < allowedRegistries.Length ==>
                      ValidEntry(old(allowedRegistries[i]), parse) && allowedRegistries[i] == NormalizedEntry(parse(old(allowedRegistries[i])).value))
                && storageDriver == ToLower(old(storageDriver))
    {
      var i := 0;
      while i < allowedRegistries.Length
        invariant 0 <= i <= allowedRegistries.Length && storageDriver == old(storageDriver)
        invariant forall j :: 0 <= j < i ==>
                    ValidEntry(old(allowedRegistries[j]), parse) && allowedRegistries[j] == NormalizedEntry(parse(old(allowedRegistries[j])).value)
        invariant forall j :: i <= j < allowedRegistries.Length ==> allowedRegistries[j] == old(allowedRegistries[j])
      {
        var u := parse(allowedRegistries[i]);
        if u.None? || u.value.scheme == "" {
          return Some(InvalidEntry(i));
        }
        var scheme := ToLower(u.value.scheme);
        if scheme != "oci" && scheme != "https" {
          return Some(InvalidEntry(i));
        }
        if u.value.host == "" {
          return Some(InvalidEntry(i));
        }
        allowedRegistries[i] := ToLower(u.value.scheme) + "://" + ToLower(u.value.host) + TrimRight(u.value.path, '/');
        i := i + 1;
      }
      if storageDriver != "" {
        storageDriver := ToLower(storageDriver);
        if storageDriver != "secret" && storageDriver != "configmap" {
          return Some(UnsupportedDriver);
        }
      }
      return None;
    }
  }

  // ----- matching

  datatype Verdict = Allowed | OnlyRegistryUrls | NotInAllowlist | HttpBlocked | FileBlocked | SchemeNotPermitted

  /** Names, paths and drive letters are no URLs. */
  predicate IsUrl(u: Option<Url>) {
    u.Some? && |u.value.scheme| >= 2
  }

  predicate Matches(normalized: string, entry: string) {
    normalized == entry || entry + "/" <= normalized
  }

  /** An empty list is no list. */
  method ValidateChartReference(chart: string, allowed: seq<string>, parse: Parser) returns (r: Verdict)
    ensures allowed == [] ==> (r == Allowed <==> IsUrl(parse(chart)) ==> IsRegistryScheme(parse(chart).value.scheme))
    ensures allowed != [] ==>
              (r == Allowed <==> IsUrl(parse(chart)) && IsRegistryScheme(parse(chart).value.scheme)
                                 && exists i :: 0 <= i < |allowed| && Matches(NormalizedChart(parse(chart).value), allowed[i]))
    ensures r == OnlyRegistryUrls <==> allowed != [] && (parse(chart).None? || |parse(chart).value.scheme| <= 1)
    ensures r == NotInAllowlist <==>
              allowed != [] && IsUrl(parse(chart)) && IsRegistryScheme(parse(chart).value.scheme)
              && forall i :: 0 <= i < |allowed| ==> !Matches(NormalizedChart(parse(chart).value), allowed[i])
    ensures r == SchemeNotPermitted <==>
              IsUrl(parse(chart)) && ToLower(parse(chart).value.scheme) !in ["oci", "https", "http", "file"]
    ensures r == HttpBlocked <==> IsUrl(parse(chart)) && ToLower(parse(chart).value.scheme) == "http"
    ensures r == FileBlocked <==> IsUrl(parse(chart)) && ToLower(parse(chart).value.scheme) == "file"
  {
    var u := parse(chart);
    if u.None? || u.value.scheme == "" || |u.value.scheme| == 1 {
      return if allowed != [] then OnlyRegistryUrls else Allowed;
    }
    var scheme := ToLower(u.value.scheme);
    if scheme == "oci" || scheme == "https" {
      if allowed != [] {
        var normalized := scheme + "://" + ToLower(u.value.host) + Cleaned(u.value.path);
        for i := 0 to |allowed|
          invariant forall j :: 0 <= j < i ==> !Matches(normalized, allowed[j])
        {
          if normalized == allowed[i] || allowed[i] + "/" <= normalized {
            assert Matches(normalized, allowed[i]);
            return Allowed;
          }
        }
        return NotInAllowlist;
      }
      return Allowed;
    } else if scheme == "http" {
      return HttpBlocked;
    } else if scheme == "file" {
      return FileBlocked;
    }
    return SchemeNotPermitted;
  }

  // ----- what the string test means

  /** The segments of an entry, without trailing slashes. */
  function EntrySegments(u: Url): seq<string> {
    var path := TrimRight(u.path, '/');
    if path == "" then [] else Split(path, '/')[1..]
  }

  function ChartSegments(u: Url): seq<string> {
    CleanSegments(Split(u.path, '/'))
  }

  lemma {:induction false} RootedIsJoined(segments: seq<string>)
    requires segments != []
    ensures Rooted(segments) == "/" + Join(segments, '/')
  {
    if |segments| > 1 {
      RootedIsJoined(segments[1..]);
    }
  }

  /** Without a slash in the heads, prefixes are compared head by head. */
  lemma HeadsFirst(a: string, p: string, b: string, c: string)
    requires '/' !in a && '/' !in b
    requires (p != "" ==> p[0] == '/') && (c != "" ==> c[0] == '/')
    ensures Matches(b + c, a + p) <==> a == b && Matches(c, p)
  {
    var s, t := a + p, b + c;
    if s == t || s + "/" <= t {
      assert forall i :: 0 <= i < |s| ==> s[i] == t[i];
      assert forall i :: 0 <= i < |a| ==> s[i] == a[i] && a[i] != '/';
      assert forall i :: 0 <= i < |b| ==> t[i] == b[i] && b[i] != '/';
      assert |a| < |s| ==> s[|a|] == '/';
      assert |b| < |t| ==> t[|b|] == '/';
      assert s + "/" <= t ==> t[|s|] == '/';
      assert |a| == |b|;
      assert a == s[..|a|] == t[..|b|] == b;
      assert p == s[|a|..] && c == t[|b|..];
      if s + "/" <= t {
        assert (s + "/")[|a|..] == p + "/";
      }
    }
    if a == b && p + "/" <= c {
      assert t[|a|..] == c && c[..|p| + 1] == p + "/";
      assert t[..|s| + 1] == a + c[..|p| + 1];
      assert s + "/" == a + (p + "/");
    }
  }

  lemma BelowRoot(p: string, c: string)
    ensures Matches("/" + c, "/" + p) <==> Matches(c, p)
  {
    var s, t := "/" + p, "/" + c;
    assert s[1..] == p && t[1..] == c && (s + "/")[1..] == p + "/";
    assert s + "/" <= t ==> (s + "/")[1..] <= t[1..];
    assert p + "/" <= c ==> "/" + (p + "/") <= t;
    assert s + "/" == "/" + (p + "/");
  }

  lemma {:induction false} SegmentsMatch(entry: seq<string>, chart: seq<string>)
    requires Free(entry, '/') && Free(chart, '/')
    ensures Matches(Rooted(chart), Rooted(entry)) <==> entry <= chart
  {
    if entry == [] {
      assert Rooted(chart) != "" ==> Rooted(chart)[0] == '/';
    } else if chart != [] {
      var p, c := Rooted(entry[1..]), Rooted(chart[1..]);
      assert Free(entry[1..], '/') && Free(chart[1..], '/');
      SegmentsMatch(entry[1..], chart[1..]);
      HeadsFirst(entry[0], p, chart[0], c);
      BelowRoot(entry[0] + p, chart[0] + c);
      assert Rooted(entry) == "/" + (entry[0] + p) && Rooted(chart) == "/" + (chart[0] + c);
      assert entry == [entry[0]] + entry[1..] && chart == [chart[0]] + chart[1..];
    }
  }

  lemma EntryPath(u: Url)
    requires WellFormed(u)
    ensures TrimRight(u.path, '/') == Rooted(EntrySegments(u)) && Free(EntrySegments(u), '/')
    ensures EntrySegments(u) != [""]
    ensures TrimRight(u.path, '/') != "" ==> TrimRight(u.path, '/')[0] == '/'
  {
    var path := TrimRight(u.path, '/');
    if path != "" {
      var segments := Split(path[1..], '/');
      assert EntrySegments(u) == segments;
      SplitIsFree(path[1..], '/');
      RootedIsJoined(segments);
      assert path == "/" + path[1..];
    }
  }

  lemma ChartPath(u: Url)
    ensures Free(ChartSegments(u), '/')
    ensures Cleaned(u.path) == Rooted(ChartSegments(u)) || (ChartSegments(u) == [] && Cleaned(u.path) == "/")
    ensures Cleaned(u.path) != "" ==> Cleaned(u.path)[0] == '/'
  {
    SplitIsFree(u.path, '/');
    assert Split("", '/') == [""];
    assert CleanSegments([""]) == [] by {
      assert [""][..0] == [];
    }
  }

  /** Two URLs denote the same registry, and the segments of the entry come first in the chart's cleaned ones. */
  predicate Covers(entry: Url, chart: Url) {
    && ToLower(entry.scheme) == ToLower(chart.scheme)
    && ToLower(entry.host) == ToLower(chart.host)
    && EntrySegments(entry) <= ChartSegments(chart)
  }

  lemma PathsMatch(entry: Url, chart: Url)
    requires WellFormed(entry)
    ensures Matches(Cleaned(chart.path), TrimRight(entry.path, '/')) <==> EntrySegments(entry) <= ChartSegments(chart)
  {
    EntryPath(entry);
    ChartPath(chart);
    SegmentsMatch(EntrySegments(entry), ChartSegments(chart));
    var segments := EntrySegments(entry);
    if ChartSegments(chart) == [] && segments != [] {
      assert Rooted(segments) == "/" + segments[0] + Rooted(segments[1..]);
      assert |segments| == 1 ==> segments[0] != "";
    }
  }

  lemma LowerKeepsSlashes(s: string)
    ensures '/' in s <==> '/' in ToLower(s)
  {
    assert forall i :: 0 <= i < |s| ==> (ToLower(s)[i] == '/' <==> s[i] == '/');
    if '/' in s {
      var i :| 0 <= i < |s| && s[i] == '/';
      assert ToLower(s)[i] == '/';
    }
  }

  /** The string test is the comparison of scheme, host and segments. */
  lemma StringTestRefinesSegments(entry: Url, chart: Url)
    requires WellFormed(entry) && WellFormed(chart)
    requires IsRegistryScheme(entry.scheme) && IsRegistryScheme(chart.scheme)
    ensures Matches(NormalizedChart(chart), NormalizedEntry(entry)) <==> Covers(entry, chart)
  {
    hide EntrySegments, ChartSegments, TrimRight, Cleaned, Matches, ToLower;
    var p, c := TrimRight(entry.path, '/'), Cleaned(chart.path);
    var h, k := ToLower(entry.host), ToLower(chart.host);
    EntryPath(entry);
    ChartPath(chart);
    PathsMatch(entry, chart);
    LowerKeepsSlashes(entry.host);
    LowerKeepsSlashes(chart.host);
    HeadsFirst(h, p, k, c);
    SameScheme(ToLower(entry.scheme), h + p, ToLower(chart.scheme), k + c);
    assert NormalizedEntry(entry) == ToLower(entry.scheme) + "://" + (h + p);
    assert NormalizedChart(chart) == ToLower(chart.scheme) + "://" + (k + c);
  }

  lemma SameScheme(a: string, p: string, b: string, c: string)
    requires a in ["oci", "https"] && b in ["oci", "https"]
    ensures Matches(b + "://" + c, a + "://" + p) <==> a == b && Matches(c, p)
  {
    var s, t := a + "://" + p, b + "://" + c;
    var n := |a + "://"|;
    assert s + "/" == (a + "://") + (p + "/");
    if Matches(t, s) {
      assert s[0] == t[0];
      assert t[n..] == c && s[n..] == p && (s + "/")[n..] == p + "/";
      assert s + "/" <= t ==> (s + "/")[n..] <= t[n..];
    }
    if a == b && p + "/" <= c {
      assert t[..n + |p| + 1] == (a + "://") + c[..|p| + 1];
    }
  }

  predicate EntryCovers(raw: string, parse: Parser, chart: Url) {
    parse(raw).Some? && Covers(parse(raw).value, chart)
  }

  /**
   With a validated allowlist that is not empty, a chart is allowed exactly if it is a URL with a
   registry scheme and some configured entry covers it.
   */
  lemma AllowlistIsExact(raw: seq<string>, allowed: seq<string>, parse: Parser, chart: string)
    requires |allowed| == |raw| > 0
    requires forall i :: 0 <= i < |raw| ==> ValidEntry(raw[i], parse) && allowed[i] == NormalizedEntry(parse(raw[i]).value)
    requires forall s :: parse(s).Some? ==> WellFormed(parse(s).value)
    ensures IsUrl(parse(chart)) && IsRegistryScheme(parse(chart).value.scheme) ==>
              ((exists i :: 0 <= i < |allowed| && Matches(NormalizedChart(parse(chart).value), allowed[i]))
               <==> exists i :: 0 <= i < |raw| && EntryCovers(raw[i], parse, parse(chart).value))
  {
    hide Matches, Covers, NormalizedChart, NormalizedEntry, WellFormed;
    if IsUrl(parse(chart)) && IsRegistryScheme(parse(chart).value.scheme) {
      var u := parse(chart).value;
      forall i | 0 <= i < |raw|
        ensures Matches(NormalizedChart(u), allowed[i]) <==> EntryCovers(raw[i], parse, u)
      {
        StringTestRefinesSegments(parse(raw[i]).value, u);
      }
    }
  }

  /** An entry whose own path is not clean covers nothing. */
  lemma UncleanEntriesCoverNothing(entry: Url, chart: Url)
    requires exists s :: s in EntrySegments(entry) && s in ["", ".", ".."]
    ensures !Covers(entry, chart)
  {
    var s :| s in EntrySegments(entry) && s in ["", ".", ".."];
    PrefixHas(EntrySegments(entry), ChartSegments(chart), s);
  }

  lemma PrefixHas(a: seq<string>, b: seq<string>, s: string)
    requires s in a
    ensures a <= b ==> s in b
  {
    var i :| 0 <= i < |a| && a[i] == s;
    assert a <= b ==> i < |b| && b[i] == s;
  }

  lemma {:induction false} CleanKeepsClean(segments: seq<string>)
    requires "" !in segments && "." !in segments && ".." !in segments
    ensures CleanSegments(segments) == segments
  {
    if segments != [] {
      CleanKeepsClean(segments[..|segments| - 1]);
    }
  }

  lemma OneMoreSegment(segments: seq<string>, s: string)
    ensures var r := CleanSegments(segments);
            CleanSegments(segments + [s])
            == if s in ["", "."] then r else if s != ".." then r + [s] else if r == [] then [] else r[..|r| - 1]
  {
    assert (segments + [s])[..|segments|] == segments;
  }

  lemma LastApart(a: seq<string>, rest: seq<string>)
    requires rest != []
    ensures a + rest == (a + rest[..|rest| - 1]) + [rest[|rest| - 1]]
  {
  }

  /** What has been cleaned to the same segments stays the same, whatever follows. */
  lemma {:induction false} FollowedAlike(a: seq<string>, b: seq<string>, rest: seq<string>)
    requires CleanSegments(a) == CleanSegments(b)
    ensures CleanSegments(a + rest) == CleanSegments(b + rest)
  {
    hide CleanSegments;
    if rest == [] {
      assert a + rest == a && b + rest == b;
    } else {
      var n := |rest| - 1;
      FollowedAlike(a, b, rest[..n]);
      OneMoreSegment(a + rest[..n], rest[n]);
      OneMoreSegment(b + rest[..n], rest[n]);
      LastApart(a, rest);
      LastApart(b, rest);
    }
  }

  /** Empty and "." segments count for nothing. */
  lemma NothingVanishes(a: seq<string>, s: string, b: seq<string>)
    requires s in ["", "."]
    ensures CleanSegments(a + [s] + b) == CleanSegments(a + b)
  {
    OneMoreSegment(a, s);
    FollowedAlike(a + [s], a, b);
    hide CleanSegments;
  }

  /** There is nothing above the root. */
  lemma RootIsTheTop(b: seq<string>)
    ensures CleanSegments([".."] + b) == CleanSegments(b)
  {
    OneMoreSegment([], "..");
    assert [] + [".."] == [".."] && [] + b == b;
    FollowedAlike([".."], [], b);
  }

  lemma CleaningIsIdempotent(segments: seq<string>)
    ensures CleanSegments(CleanSegments(segments)) == CleanSegments(segments)
  {
    CleanKeepsClean(CleanSegments(segments));
  }

  /** Going down and up again leads nowhere. */
  lemma UpUndoesDown(segments: seq<string>, s: string, rest: seq<string>)
    requires s !in ["", ".", ".."]
    ensures CleanSegments(segments + [s, ".."] + rest) == CleanSegments(segments + rest)
  {
    hide CleanSegments;
    OneMoreSegment(segments, s);
    OneMoreSegment(segments + [s], "..");
    var r := CleanSegments(segments);
    assert (r + [s])[..|r|] == r;
    assert segments + [s, ".."] == (segments + [s]) + [".."];
    FollowedAlike(segments + [s, ".."], segments, rest);
  }
}
