/**
 The openid-configuration cache of pkg/http/wellknown.go, as the object that its lock protects:
 who holds which map, and which maps may be changed.
 */
module WellKnown {
  import opened Wrappers

  // Seconds; oidcConfigCacheTTL.
  const TTL: int := 300

  datatype Value = Text(text: string) | Flag(flag: bool) | Words(words: seq<string>)

  type Document = map<string, Value>

  /** What the OAuth snapshot says about served documents. */
  datatype Overrides = Overrides(disableDynamicClientRegistration: bool, scopes: seq<string>)

  const REGISTRATION_ENDPOINT: string := "registration_endpoint"
  const REQUIRE_REGISTRATION: string := "require_request_uri_registration"
  const SCOPES_SUPPORTED: string := "scopes_supported"

  function Overridden(doc: Document, o: Overrides): Document {
    var closed := if o.disableDynamicClientRegistration then (doc - {REGISTRATION_ENDPOINT})[REQUIRE_REGISTRATION := Flag(false)] else doc;
    if |o.scopes| > 0 then closed[SCOPES_SUPPORTED := Words(o.scopes)] else closed
  }

  /** What a snapshot says about a field: it must be absent, it has a value, or nothing. */
  datatype Ruling = Removed | Fixed(value: Value) | Free

  function RulingOn(o: Overrides, key: string): Ruling {
    if o.disableDynamicClientRegistration && key == REGISTRATION_ENDPOINT then Removed
    else if o.disableDynamicClientRegistration && key == REQUIRE_REGISTRATION then Fixed(Flag(false))
    else if |o.scopes| > 0 && key == SCOPES_SUPPORTED then Fixed(Words(o.scopes))
    else Free
  }

  /** Every field is as the snapshot rules, and as the server sent it where the snapshot does not. */
  lemma OverriddenMeaning(doc: Document, o: Overrides, key: string)
    ensures var r := Overridden(doc, o);
            match RulingOn(o, key)
            case Removed => key !in r
            case Fixed(value) => key in r && r[key] == value
            case Free => (key in r <==> key in doc) && (key in doc ==> r[key] == doc[key])
  {
    assert |SCOPES_SUPPORTED| == 16 && |REGISTRATION_ENDPOINT| == 21 && |REQUIRE_REGISTRATION| == 32;
  }

  /** Overriding a document again under the same snapshot changes nothing more. */
  lemma OverridesAreIdempotent(doc: Document, o: Overrides)
    ensures Overridden(Overridden(doc, o), o) == Overridden(doc, o)
  {
    var once, twice := Overridden(doc, o), Overridden(Overridden(doc, o), o);
    forall key
      ensures key in twice <==> key in once
      ensures key in once ==> twice[key] == once[key]
    {
      OverriddenMeaning(doc, o, key);
      OverriddenMeaning(once, o, key);
    }
  }

  /** A Go map: shared by reference, changed in place. */
  class MapObject {
    var fields: Document

    constructor (fields: Document)
      ensures this.fields == fields
    {
      this.fields := fields;
    }
  }

  method CopyMap(src: MapObject) returns (dst: MapObject)
    ensures fresh(dst) && dst.fields == src.fields
  {
    dst := new MapObject(map[]);
    var unvisited := src.fields.Keys;
    while unvisited != {}
      invariant unvisited <= src.fields.Keys && src.fields == old(src.fields)
      invariant fresh(dst) && dst.fields == src.fields - unvisited
      decreases unvisited
    {
      var k :| k in unvisited;
      unvisited := unvisited - {k};
      dst.fields := dst.fields[k := src.fields[k]];
    }
  }

  method ApplyConfigOverrides(doc: MapObject, snapshot: Option<Overrides>)
    modifies doc
    ensures doc.fields == if snapshot.Some? then Overridden(old(doc.fields), snapshot.value) else old(doc.fields)
  {
    if snapshot.Some? && snapshot.value.disableDynamicClientRegistration {
      doc.fields := doc.fields - {REGISTRATION_ENDPOINT};
      doc.fields := doc.fields[REQUIRE_REGISTRATION := Flag(false)];
    }
    if snapshot.Some? && |snapshot.value.scopes| > 0 {
      doc.fields := doc.fields[SCOPES_SUPPORTED := Words(snapshot.value.scopes)];
    }
  }

  /** An entry answers a call: it is for the same URL, and younger than the lifetime. */
  predicate Serves(url: string, writtenAt: int, authUrl: string, now: int) {
    url == authUrl && now - writtenAt < TTL
  }

  class Cache {
    var doc: MapObject?
    var writtenAt: int
    var url: string

    constructor ()
      ensures doc == null
    {
      doc, writtenAt, url := null, 0, "";
    }

    predicate Fresh(authUrl: string, now: int)
      reads this
    {
      doc != null && Serves(url, writtenAt, authUrl, now)
    }

    /** The first half of fetchOpenIDConfiguration: a hit is always a private copy. */
    method Lookup(authUrl: string, now: int) returns (found: MapObject?)
      ensures found != null <==> doc != null && url == authUrl && now - writtenAt < 300
      ensures found != null ==> fresh(found) && found.fields == doc.fields
    {
      if doc != null && url == authUrl && now - writtenAt < TTL {
        found := CopyMap(doc);
      } else {
        found := null;
      }
    }

    /** The cache write of a flight: the cache gets a copy of its own. */
    method Store(fetched: MapObject, authUrl: string, now: int)
      modifies this
      ensures doc != null && fresh(doc) && doc.fields == fetched.fields && url == authUrl && writtenAt == now
      ensures fetched.fields == old(fetched.fields)
    {
      var copy := CopyMap(fetched);
      doc, writtenAt, url := copy, now, authUrl;
    }
  }
}
