/** The region registry and the classification of a monitored application into a region. */
module Regions {
  import opened Common

  /** A platform region: its code, its identity-provider and control-plane bases, and the host
      suffixes its domain pattern accepts. */
  datatype Region = Region(code: string, uaa: string, api: string, suffixes: seq<string>)

  const UsSuffix := ".us10.hana.ondemand.com"
  const UsLegacySuffix := ".us10-001.hana.ondemand.com"
  const ApSuffix := ".ap21.hana.ondemand.com"

  /** The registry, in declaration order (US before AP). */
  const Registry: seq<Region> := [
    Region("US", "https://uaa.cf.us10-001.hana.ondemand.com", "https://api.cf.us10-001.hana.ondemand.com",
           [UsSuffix, UsLegacySuffix]),
    Region("AP", "https://uaa.cf.ap21.hana.ondemand.com", "https://api.cf.ap21.hana.ondemand.com",
           [ApSuffix])
  ]

  /** The code reported for an application that no rule classifies. */
  const Unknown := "UNKNOWN"

  /** A monitored application; `region` is the optional explicit region of the configuration. */
  datatype App = App(name: string, url: string, region: Option<string>)

  /** The configured applications, in configuration order. */
  const MonitoredApps: seq<App> := [
    App("s1", "https://sggudgxx.cfapps.ap21.hana.ondemand.com", Some("AP")),
    App("us0", "https://us0.cfapps.us10-001.hana.ondemand.com", Some("US"))
  ]

  /** The region's domain pattern accepts the URL: it ends with one of the region's suffixes. */
  predicate Matches(r: Region, url: string)
  {
    exists s :: s in r.suffixes && EndsWith(url, s)
  }

  /** `code` names an entry of the registry. */
  predicate IsRegion(code: string)
  {
    exists i :: 0 <= i < |Registry| && Registry[i].code == code
  }

  /** The registry entry with the given code, if any. */
  function Lookup(code: string): (r: Option<Region>)
    ensures r.Some? <==> IsRegion(code)
    ensures r.Some? ==> r.value in Registry && r.value.code == code
  {
    if code == "US" then Some(Registry[0])
    else if code == "AP" then Some(Registry[1])
    else None
  }

  function DetectFrom(url: string, i: nat): (r: Option<string>)
    requires i <= |Registry|
    ensures r.Some? <==> exists j :: i <= j < |Registry| && Matches(Registry[j], url)
    ensures r.Some? ==> exists j :: i <= j < |Registry| && Registry[j].code == r.value
                                    && Matches(Registry[j], url)
                                    && forall k :: i <= k < j ==> !Matches(Registry[k], url)
    decreases |Registry| - i
  {
    if i == |Registry| then None
    else if Matches(Registry[i], url) then Some(Registry[i].code)
    else DetectFrom(url, i + 1)
  }

  /** Classifies a URL by the first registry entry whose pattern accepts it. */
  function DetectRegion(url: string): (r: Option<string>)
    ensures r.Some? <==> exists j :: 0 <= j < |Registry| && Matches(Registry[j], url)
    ensures r.Some? ==> exists j :: 0 <= j < |Registry| && Registry[j].code == r.value
                                    && Matches(Registry[j], url)
                                    && forall k :: 0 <= k < j ==> !Matches(Registry[k], url)
  {
    DetectFrom(url, 0)
  }

  /** The region of an application: an explicit (non-empty) region wins, then the URL, then "UNKNOWN". */
  function AppRegion(app: App): (r: string)
    ensures Truthy(app.region) ==> r == app.region.value
    ensures !Truthy(app.region) ==> (IsRegion(r) || r == Unknown)
    ensures !Truthy(app.region) && r == Unknown ==>
              forall j :: 0 <= j < |Registry| ==> !Matches(Registry[j], app.url)
    ensures !Truthy(app.region) && r != Unknown ==>
              exists j :: 0 <= j < |Registry| && Registry[j].code == r && Matches(Registry[j], app.url)
  {
    if Truthy(app.region) then app.region.value
    else match DetectRegion(app.url)
      case Some(code) => code
      case None => Unknown
  }

  /** A host ending with two suffixes of the same length ends with equal strings. */
  lemma SameLengthSuffixes(url: string, a: string, b: string)
    requires EndsWith(url, a) && EndsWith(url, b) && |a| == |b|
    ensures a == b
  {
  }

  /** If a URL ends with both `long` and `short`, then `short` is a suffix of `long`. */
  lemma NestedSuffixes(url: string, long: string, short: string)
    requires EndsWith(url, long) && EndsWith(url, short) && |short| <= |long|
    ensures EndsWith(long, short)
  {
    assert long[|long| - |short|..] == url[|url| - |short|..];
  }

  /** No host ends with both a US suffix and the AP suffix. */
  lemma SuffixesDisjoint(url: string)
    ensures !(EndsWith(url, ApSuffix) && (EndsWith(url, UsSuffix) || EndsWith(url, UsLegacySuffix)))
  {
    if EndsWith(url, ApSuffix) && EndsWith(url, UsSuffix) {
      SameLengthSuffixes(url, UsSuffix, ApSuffix);
    }
    if EndsWith(url, ApSuffix) && EndsWith(url, UsLegacySuffix) {
      NestedSuffixes(url, UsLegacySuffix, ApSuffix);
    }
  }

  /** The US entry accepts exactly the URLs with a US suffix, the AP entry those with the AP suffix. */
  lemma RegistryMatches(url: string)
    ensures Matches(Registry[0], url) <==> EndsWith(url, UsSuffix) || EndsWith(url, UsLegacySuffix)
    ensures Matches(Registry[1], url) <==> EndsWith(url, ApSuffix)
  {
    assert Registry[0].suffixes == [UsSuffix, UsLegacySuffix];
    assert Registry[1].suffixes == [ApSuffix];
  }

  /** No URL matches both registry entries, so registry order never changes a classification. */
  lemma RegistryPatternsDisjoint(url: string)
    ensures !(Matches(Registry[0], url) && Matches(Registry[1], url))
  {
    RegistryMatches(url);
    SuffixesDisjoint(url);
  }

  /** The two configured applications are classified as their explicit regions say. */
  lemma ConfiguredAppsClassified()
    ensures AppRegion(MonitoredApps[0]) == "AP" && AppRegion(MonitoredApps[1]) == "US"
  {
  }

  /** Without an explicit region, the configured Singapore URL still classifies as "AP". */
  lemma ConfiguredApUrlDetected()
    ensures DetectRegion("https://sggudgxx.cfapps.ap21.hana.ondemand.com") == Some("AP")
  {
    var ap := "https://sggudgxx.cfapps.ap21.hana.ondemand.com";
    assert EndsWith(ap, ApSuffix);
    assert Matches(Registry[1], ap);
    RegistryPatternsDisjoint(ap);
  }

  /** Without an explicit region, the configured US URL still classifies as "US". */
  lemma ConfiguredUsUrlDetected()
    ensures DetectRegion("https://us0.cfapps.us10-001.hana.ondemand.com") == Some("US")
  {
    var us := "https://us0.cfapps.us10-001.hana.ondemand.com";
    assert EndsWith(us, UsLegacySuffix);
    assert Matches(Registry[0], us);
  }

  /** Without an explicit region, an application is "US" exactly when its URL has a US suffix,
      "AP" exactly when it has the AP suffix, and "UNKNOWN" when it has neither. */
  lemma {:induction false} AppRegionBySuffix(app: App)
    requires !Truthy(app.region)
    ensures AppRegion(app) == "US" <==> (EndsWith(app.url, UsSuffix) || EndsWith(app.url, UsLegacySuffix))
    ensures AppRegion(app) == "AP" <==> EndsWith(app.url, ApSuffix)
    ensures AppRegion(app) == Unknown <==>
              !(EndsWith(app.url, UsSuffix) || EndsWith(app.url, UsLegacySuffix) || EndsWith(app.url, ApSuffix))
  {
    RegistryMatches(app.url);
    SuffixesDisjoint(app.url);
  }
}
