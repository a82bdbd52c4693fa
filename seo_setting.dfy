/** The site's SEO settings row (app/Models/SeoSetting.php): the meta tags
    and the schema.org LocalBusiness object derived from it, and the cached
    lookup of the active row that every save or delete invalidates. */
module SeoSettings {
  import opened Common
  import opened Collections

  /** A `decimal:7` column as the cast renders it: a string with seven
      decimals, so never "" and never "0"; no arithmetic is done on it. */
  type Decimal = string

  /** One row of `seo_settings`; every nullable column is an `Option`.
      `businessHours` is the `array` cast of the JSON column, its entries
      kept opaque. */
  datatype SeoRow = SeoRow(
    // Basic meta tags
    metaTitle: Option<string>,
    metaDescription: Option<string>,
    metaKeywords: Option<string>,
    canonicalUrl: Option<string>,
    // Open Graph
    ogTitle: Option<string>,
    ogDescription: Option<string>,
    ogImage: Option<string>,
    ogType: Option<string>,
    ogSiteName: Option<string>,
    // Twitter card
    twitterCard: Option<string>,
    twitterTitle: Option<string>,
    twitterDescription: Option<string>,
    twitterImage: Option<string>,
    twitterSite: Option<string>,
    // Local business
    businessName: Option<string>,
    businessType: Option<string>,
    businessDescription: Option<string>,
    businessPhone: Option<string>,
    businessEmail: Option<string>,
    street: Option<string>,
    city: Option<string>,
    state: Option<string>,
    zip: Option<string>,
    country: Option<string>,
    latitude: Option<Decimal>,
    longitude: Option<Decimal>,
    businessLogo: Option<string>,
    businessHours: Option<seq<string>>,
    priceRange: Option<string>,
    // Social links
    facebookUrl: Option<string>,
    instagramUrl: Option<string>,
    twitterUrl: Option<string>,
    pinterestUrl: Option<string>,
    yelpUrl: Option<string>,
    googleBusinessUrl: Option<string>,
    // Additional SEO
    robotsTxt: Option<string>,
    googleSiteVerification: Option<string>,
    bingSiteVerification: Option<string>,
    pinterestSiteVerification: Option<string>,
    customHeadScripts: Option<string>,
    customBodyScripts: Option<string>,
    googleAnalyticsId: Option<string>,
    googleTagManagerId: Option<string>,
    facebookPixelId: Option<string>,
    isActive: bool)

  // ---- getMetaTags ----

  /** The keys `getMetaTags` can set, in the order it sets them. */
  datatype MetaKey =
    | Description | Keywords
    | OgTitle | OgDescription | OgImage | OgType | OgSiteName | OgUrl
    | TwitterCard | TwitterTitle | TwitterDescription | TwitterImage | TwitterSite

  /** The array key each tag is stored under. */
  function KeyName(k: MetaKey): string
  {
    match k
    case Description => "description"
    case Keywords => "keywords"
    case OgTitle => "og:title"
    case OgDescription => "og:description"
    case OgImage => "og:image"
    case OgType => "og:type"
    case OgSiteName => "og:site_name"
    case OgUrl => "og:url"
    case TwitterCard => "twitter:card"
    case TwitterTitle => "twitter:title"
    case TwitterDescription => "twitter:description"
    case TwitterImage => "twitter:image"
    case TwitterSite => "twitter:site"
  }

  /** No two tags share an array key. */
  lemma KeyNameInjective(k1: MetaKey, k2: MetaKey)
    requires KeyName(k1) == KeyName(k2)
    ensures k1 == k2
  {
    var n1 := KeyName(k1);
    var n2 := KeyName(k2);
    assert |n1| == |n2| && n1[0] == n2[0];
    if |n1| > 3 { assert n1[3] == n2[3]; }
    if |n1| > 8 { assert n1[8] == n2[8]; }
  }

  const AllMetaKeys: set<MetaKey> := {
    Description, Keywords, OgTitle, OgDescription, OgImage, OgType, OgSiteName, OgUrl,
    TwitterCard, TwitterTitle, TwitterDescription, TwitterImage, TwitterSite }

  /** What `getMetaTags` assigns to key `k` before filtering: `None` when
      the key is not assigned (its guard is false), otherwise the assigned,
      possibly null, value. Each key is assigned at most once, so the
      order of the assignments does not affect the array's contents. */
  function Assigned(s: SeoRow, appUrl: string, assetRoot: string, k: MetaKey): Option<Option<string>>
  {
    match k
    case Description => if Truthy(s.metaDescription) then Some(s.metaDescription) else None
    case Keywords => if Truthy(s.metaKeywords) then Some(s.metaKeywords) else None
    case OgTitle =>
      if Truthy(s.ogTitle) || Truthy(s.metaTitle) then Some(Coalesce(s.ogTitle, s.metaTitle)) else None
    case OgDescription =>
      if Truthy(s.ogDescription) || Truthy(s.metaDescription)
      then Some(Coalesce(s.ogDescription, s.metaDescription)) else None
    case OgImage => if Truthy(s.ogImage) then Some(Some(StorageUrl(assetRoot, s.ogImage.value))) else None
    case OgType => Some(Coalesce(s.ogType, Some("website")))
    case OgSiteName => if Truthy(s.ogSiteName) then Some(s.ogSiteName) else None
    case OgUrl => Some(Some(appUrl))
    case TwitterCard => Some(Coalesce(s.twitterCard, Some("summary_large_image")))
    case TwitterTitle =>
      if Truthy(s.twitterTitle) || Truthy(s.metaTitle) then Some(Coalesce(s.twitterTitle, s.metaTitle)) else None
    case TwitterDescription =>
      if Truthy(s.twitterDescription) || Truthy(s.metaDescription)
      then Some(Coalesce(s.twitterDescription, s.metaDescription)) else None
    case TwitterImage =>
      if Truthy(s.twitterImage) || Truthy(s.ogImage) then
        Some(if Truthy(s.twitterImage) then Some(StorageUrl(assetRoot, s.twitterImage.value))
             else if Truthy(s.ogImage) then Some(StorageUrl(assetRoot, s.ogImage.value))
             else None)
      else None
    case TwitterSite => if Truthy(s.twitterSite) then Some(s.twitterSite) else None
  }

  /** The tag array before the final filter. */
  function RawMetaTags(s: SeoRow, appUrl: string, assetRoot: string): (raw: map<MetaKey, Option<string>>)
    ensures forall k :: k in raw <==> Assigned(s, appUrl, assetRoot, k).Some?
    ensures forall k :: k in raw ==> raw[k] == Assigned(s, appUrl, assetRoot, k).value
  {
    map k | k in AllMetaKeys && Assigned(s, appUrl, assetRoot, k).Some? :: Assigned(s, appUrl, assetRoot, k).value
  }

  /** PHP's `array_filter` on the tag array: the entries with a truthy value. */
  function StripFalsy(raw: map<MetaKey, Option<string>>): (m: map<MetaKey, string>)
    ensures forall k :: k in m <==> k in raw && Truthy(raw[k])
    ensures forall k :: k in m ==> raw[k] == Some(m[k])
  {
    map k | k in raw && Truthy(raw[k]) :: raw[k].value
  }

  /** `getMetaTags()`: the filtered tag array; no falsy value survives. */
  function MetaTags(s: SeoRow, appUrl: string, assetRoot: string): (m: map<MetaKey, string>)
    ensures forall k :: k in m ==> TruthyStr(m[k])
  {
    StripFalsy(RawMetaTags(s, appUrl, assetRoot))
  }

  /** The plain meta tags are the truthy meta fields. */
  lemma MetaTagsBasic(s: SeoRow, appUrl: string, assetRoot: string)
    ensures var m := MetaTags(s, appUrl, assetRoot);
      (Description in m <==> Truthy(s.metaDescription)) &&
      (Description in m ==> m[Description] == s.metaDescription.value) &&
      (Keywords in m <==> Truthy(s.metaKeywords)) &&
      (Keywords in m ==> m[Keywords] == s.metaKeywords.value)
  {
  }

  /** The Open Graph title and description: a tag is present exactly when
      the `??` fallback yields a truthy value, so a non-null but empty OG
      field suppresses the tag instead of falling back. */
  lemma MetaTagsOgText(s: SeoRow, appUrl: string, assetRoot: string)
    ensures var m := MetaTags(s, appUrl, assetRoot);
      (OgTitle in m <==> Truthy(Coalesce(s.ogTitle, s.metaTitle))) &&
      (OgTitle in m ==> Some(m[OgTitle]) == Coalesce(s.ogTitle, s.metaTitle)) &&
      (OgDescription in m <==> Truthy(Coalesce(s.ogDescription, s.metaDescription))) &&
      (OgDescription in m ==> Some(m[OgDescription]) == Coalesce(s.ogDescription, s.metaDescription))
  {
  }

  /** The other Open Graph tags: the image's storage URL, `og:type`
      defaulting to `website` when null, the site name, and `og:url`
      always the application URL (unless that is itself falsy). */
  lemma MetaTagsOgOther(s: SeoRow, appUrl: string, assetRoot: string)
    ensures var m := MetaTags(s, appUrl, assetRoot);
      (OgImage in m <==> Truthy(s.ogImage)) &&
      (OgImage in m ==> m[OgImage] == StorageUrl(assetRoot, s.ogImage.value)) &&
      (s.ogType.None? ==> OgType in m && m[OgType] == "website") &&
      (s.ogType.Some? ==> (OgType in m <==> TruthyStr(s.ogType.value))) &&
      (s.ogType.Some? && OgType in m ==> m[OgType] == s.ogType.value) &&
      (OgSiteName in m <==> Truthy(s.ogSiteName)) &&
      (OgSiteName in m ==> m[OgSiteName] == s.ogSiteName.value) &&
      (OgUrl in m <==> TruthyStr(appUrl)) &&
      (OgUrl in m ==> m[OgUrl] == appUrl)
  {
  }

  /** The Twitter title and description fall back to the meta fields, under
      the same truthiness rule as the OG ones. */
  lemma MetaTagsTwitterText(s: SeoRow, appUrl: string, assetRoot: string)
    ensures var m := MetaTags(s, appUrl, assetRoot);
      (TwitterTitle in m <==> Truthy(Coalesce(s.twitterTitle, s.metaTitle))) &&
      (TwitterTitle in m ==> Some(m[TwitterTitle]) == Coalesce(s.twitterTitle, s.metaTitle)) &&
      (TwitterDescription in m <==> Truthy(Coalesce(s.twitterDescription, s.metaDescription))) &&
      (TwitterDescription in m ==> Some(m[TwitterDescription]) == Coalesce(s.twitterDescription, s.metaDescription))
  {
  }

  /** `twitter:card` defaults to `summary_large_image`; the image is the
      Twitter image's URL if set, else the OG image's, and absent when
      neither is set. */
  lemma MetaTagsTwitterOther(s: SeoRow, appUrl: string, assetRoot: string)
    ensures var m := MetaTags(s, appUrl, assetRoot);
      (s.twitterCard.None? ==> TwitterCard in m && m[TwitterCard] == "summary_large_image") &&
      (s.twitterCard.Some? ==> (TwitterCard in m <==> TruthyStr(s.twitterCard.value))) &&
      (s.twitterCard.Some? && TwitterCard in m ==> m[TwitterCard] == s.twitterCard.value) &&
      (TwitterImage in m <==> Truthy(s.twitterImage) || Truthy(s.ogImage)) &&
      (TwitterImage in m ==> (m[TwitterImage] ==
        if Truthy(s.twitterImage) then StorageUrl(assetRoot, s.twitterImage.value)
         else StorageUrl(assetRoot, s.ogImage.value))) &&
      (TwitterSite in m <==> Truthy(s.twitterSite)) &&
      (TwitterSite in m ==> m[TwitterSite] == s.twitterSite.value)
  {
  }

  /** The Twitter title and description fall back to the meta fields only:
      the OG title and description have no influence on them. */
  lemma TwitterIgnoresOg(s: SeoRow, ogTitle: Option<string>, ogDescription: Option<string>, appUrl: string, assetRoot: string)
    ensures var m := MetaTags(s, appUrl, assetRoot);
            var m' := MetaTags(s.(ogTitle := ogTitle, ogDescription := ogDescription), appUrl, assetRoot);
            (TwitterTitle in m <==> TwitterTitle in m') &&
            (TwitterTitle in m ==> m[TwitterTitle] == m'[TwitterTitle]) &&
            (TwitterDescription in m <==> TwitterDescription in m') &&
            (TwitterDescription in m ==> m[TwitterDescription] == m'[TwitterDescription])
  {
    MetaTagsTwitterText(s, appUrl, assetRoot);
    MetaTagsTwitterText(s.(ogTitle := ogTitle, ogDescription := ogDescription), appUrl, assetRoot);
  }

  /** A present but empty OG title suppresses `og:title` even when the meta
      title is set. */
  lemma EmptyOgTitleSuppresses(s: SeoRow, appUrl: string, assetRoot: string)
    requires s.ogTitle == Some("") && Truthy(s.metaTitle)
    ensures OgTitle !in MetaTags(s, appUrl, assetRoot)
    ensures s.twitterTitle.None? ==> TwitterTitle in MetaTags(s, appUrl, assetRoot)
  {
    MetaTagsOgText(s, appUrl, assetRoot);
    MetaTagsTwitterText(s, appUrl, assetRoot);
  }

  // ---- getLocalBusinessJsonLd ----

  /** The `address` object (its `@type` is always `PostalAddress`). */
  datatype PostalAddress = PostalAddress(
    streetAddress: string,
    addressLocality: Option<string>,
    addressRegion: Option<string>,
    postalCode: Option<string>,
    addressCountry: Option<string>)

  /** The `geo` object (its `@type` is always `GeoCoordinates`). */
  datatype GeoCoordinates = GeoCoordinates(latitude: Decimal, longitude: Decimal)

  /** The JSON-LD object. The first seven keys are always present (a null
      value is an emitted null); each `Option` after them is a key that is
      either present (`Some`) or absent (`None`). */
  datatype LocalBusiness = LocalBusiness(
    context: string,
    businessType: string,
    name: Option<string>,
    description: Option<string>,
    telephone: Option<string>,
    email: Option<string>,
    url: string,
    logo: Option<string>,
    image: Option<string>,
    address: Option<PostalAddress>,
    geo: Option<GeoCoordinates>,
    openingHoursSpecification: Option<seq<string>>,
    priceRange: Option<string>,
    sameAs: Option<seq<string>>)

  /** `array_values(array_filter($urls))`: the truthy URLs, in order. */
  function TruthyValues(urls: seq<Option<string>>): (r: seq<string>)
    ensures |r| <= |urls|
    ensures forall i :: 0 <= i < |r| ==> TruthyStr(r[i]) && Some(r[i]) in urls
    ensures forall i :: 0 <= i < |urls| && Truthy(urls[i]) ==> urls[i].value in r
  {
    if urls == [] then []
    else
      assert urls == [urls[0]] + urls[1..];
      (if Truthy(urls[0]) then [urls[0].value] else []) + TruthyValues(urls[1..])
  }

  /** Filtering distributes over concatenation, so the filter keeps the
      relative order of the URLs it retains. */
  lemma {:induction false} TruthyValuesAppend(xs: seq<Option<string>>, ys: seq<Option<string>>)
    ensures TruthyValues(xs + ys) == TruthyValues(xs) + TruthyValues(ys)
  {
    if xs == [] {
      assert xs + ys == ys;
    } else {
      assert (xs + ys)[1..] == xs[1..] + ys;
      TruthyValuesAppend(xs[1..], ys);
    }
  }

  /** The social links that feed `sameAs`; Twitter is not among them. */
  function SameAsCandidates(s: SeoRow): seq<Option<string>>
  {
    [s.facebookUrl, s.instagramUrl, s.pinterestUrl, s.yelpUrl, s.googleBusinessUrl]
  }

  /** The `sameAs` entry: the truthy social URLs in order, or absent when
      there are none. */
  function SameAs(s: SeoRow): (r: Option<seq<string>>)
    ensures r.Some? <==> exists i :: 0 <= i < 5 && Truthy(SameAsCandidates(s)[i])
    ensures r.Some? ==> r.value == TruthyValues(SameAsCandidates(s)) && r.value != []
  {
    var c := SameAsCandidates(s);
    var urls := TruthyValues(c);
    assert urls != [] ==> exists i :: 0 <= i < 5 && Truthy(c[i]) by {
      if urls != [] {
        assert TruthyStr(urls[0]) && Some(urls[0]) in c;
        var i :| 0 <= i < 5 && c[i] == Some(urls[0]);
        assert Truthy(c[i]);
      }
    }
    assert (exists i :: 0 <= i < 5 && Truthy(c[i])) ==> urls != [] by {
      if exists i :: 0 <= i < 5 && Truthy(c[i]) {
        var i :| 0 <= i < 5 && Truthy(c[i]);
        assert c[i].value in urls;
      }
    }
    if urls != [] then Some(urls) else None
  }

  const SchemaOrg := "https://schema.org"
  const DefaultBusinessType := "LocalBusiness"

  /** `getLocalBusinessJsonLd()`. */
  function LocalBusinessJsonLd(s: SeoRow, appUrl: string, assetRoot: string): LocalBusiness
  {
    var logo := if Truthy(s.businessLogo) then Some(StorageUrl(assetRoot, s.businessLogo.value)) else None;
    LocalBusiness(
      SchemaOrg,
      if s.businessType.Some? then s.businessType.value else DefaultBusinessType,
      s.businessName,
      s.businessDescription,
      s.businessPhone,
      s.businessEmail,
      appUrl,
      logo,
      logo,
      if Truthy(s.street) then Some(PostalAddress(s.street.value, s.city, s.state, s.zip, s.country)) else None,
      if s.latitude.Some? && s.longitude.Some? then Some(GeoCoordinates(s.latitude.value, s.longitude.value)) else None,
      if s.businessHours.Some? && s.businessHours.value != [] then s.businessHours else None,
      if Truthy(s.priceRange) then s.priceRange else None,
      SameAs(s))
  }

  /** The fields that are always present: the schema.org context, the
      business type (`LocalBusiness` unless set), the contact fields as
      stored and the application URL. */
  lemma LocalBusinessFixedFields(s: SeoRow, appUrl: string, assetRoot: string)
    ensures var j := LocalBusinessJsonLd(s, appUrl, assetRoot);
      j.context == SchemaOrg &&
      j.businessType == (if s.businessType.Some? then s.businessType.value else DefaultBusinessType) &&
      j.name == s.businessName && j.description == s.businessDescription &&
      j.telephone == s.businessPhone && j.email == s.businessEmail && j.url == appUrl
  {
  }

  /** The optional fields: logo and image are the logo's storage URL exactly
      when the logo is truthy; the address exactly when the street is
      truthy; the coordinates exactly when both are set; the hours exactly
      when there is a non-empty list; the price range exactly when truthy;
      `sameAs` the truthy social URLs. */
  lemma LocalBusinessOptionalFields(s: SeoRow, appUrl: string, assetRoot: string)
    ensures var j := LocalBusinessJsonLd(s, appUrl, assetRoot);
      (j.logo.Some? <==> Truthy(s.businessLogo)) && j.image == j.logo &&
      (j.logo.Some? ==> j.logo.value == StorageUrl(assetRoot, s.businessLogo.value))
    ensures var j := LocalBusinessJsonLd(s, appUrl, assetRoot);
      (j.address.Some? <==> Truthy(s.street)) &&
      (j.address.Some? ==> j.address.value == PostalAddress(s.street.value, s.city, s.state, s.zip, s.country))
    ensures var j := LocalBusinessJsonLd(s, appUrl, assetRoot);
      (j.geo.Some? <==> s.latitude.Some? && s.longitude.Some?) &&
      (j.geo.Some? ==> j.geo.value == GeoCoordinates(s.latitude.value, s.longitude.value))
    ensures var j := LocalBusinessJsonLd(s, appUrl, assetRoot);
      (j.openingHoursSpecification.Some? <==> s.businessHours.Some? && s.businessHours.value != []) &&
      (j.openingHoursSpecification.Some? ==> j.openingHoursSpecification == s.businessHours)
    ensures var j := LocalBusinessJsonLd(s, appUrl, assetRoot);
      (j.priceRange.Some? <==> Truthy(s.priceRange)) && (j.priceRange.Some? ==> j.priceRange == s.priceRange)
    ensures LocalBusinessJsonLd(s, appUrl, assetRoot).sameAs == SameAs(s)
  {
  }

  /** The Twitter URL never reaches the JSON-LD: changing it changes
      nothing. */
  lemma JsonLdIgnoresTwitter(s: SeoRow, twitterUrl: Option<string>, appUrl: string, assetRoot: string)
    ensures LocalBusinessJsonLd(s.(twitterUrl := twitterUrl), appUrl, assetRoot) == LocalBusinessJsonLd(s, appUrl, assetRoot)
  {
  }

  /** With only Instagram and Yelp truthy (Facebook null, Pinterest empty,
      say), `sameAs` is exactly those two, reindexed. */
  lemma SameAsSkipsEmpty(s: SeoRow)
    requires !Truthy(s.facebookUrl) && !Truthy(s.pinterestUrl) && !Truthy(s.googleBusinessUrl)
    requires Truthy(s.instagramUrl) && Truthy(s.yelpUrl)
    ensures TruthyValues(SameAsCandidates(s)) == [s.instagramUrl.value, s.yelpUrl.value]
    ensures SameAs(s) == Some([s.instagramUrl.value, s.yelpUrl.value])
  {
    SecondAndFourth(SameAsCandidates(s));
  }

  /** Of five candidates, only the second and fourth truthy. */
  lemma SecondAndFourth(c: seq<Option<string>>)
    requires |c| == 5 && !Truthy(c[0]) && Truthy(c[1]) && !Truthy(c[2]) && Truthy(c[3]) && !Truthy(c[4])
    ensures TruthyValues(c) == [c[1].value, c[3].value]
  {
    TruthyValuesCons(c[4], []);
    assert [c[4]] + [] == c[4..];
    TruthyValuesCons(c[3], c[4..]);
    assert [c[3]] + c[4..] == c[3..];
    TruthyValuesCons(c[2], c[3..]);
    assert [c[2]] + c[3..] == c[2..];
    TruthyValuesCons(c[1], c[2..]);
    assert [c[1]] + c[2..] == c[1..];
    TruthyValuesCons(c[0], c[1..]);
    assert [c[0]] + c[1..] == c;
  }

  lemma TruthyValuesCons(x: Option<string>, xs: seq<Option<string>>)
    ensures TruthyValues([x] + xs) == (if Truthy(x) then [x.value] else []) + TruthyValues(xs)
  {
    assert ([x] + xs)[1..] == xs;
  }

  // ---- getActive and cache invalidation ----

  /** `where('is_active', true)->first()`, in table order. */
  function FirstActive(rows: seq<SeoRow>): (r: Option<SeoRow>)
    ensures r.None? <==> forall i :: 0 <= i < |rows| ==> !rows[i].isActive
    ensures r.Some? ==> exists i :: (0 <= i < |rows| && rows[i] == r.value && r.value.isActive &&
      forall k :: 0 <= k < i ==> !rows[k].isActive)
  {
    FirstWhere(rows, (s: SeoRow) => s.isActive)
  }

  /** The `seo_settings` table together with the single cache entry
      `seo_settings` (`None`: not cached; `Some(v)`: the remembered result
      of the query, which may itself be null). */
  class SeoStore {
    var rows: seq<SeoRow>
    var cache: Option<Option<SeoRow>>

    /** A remembered value is always the current answer of the query. */
    predicate Valid()
      reads this
    {
      cache.Some? ==> cache.value == FirstActive(rows)
    }

    constructor (initial: seq<SeoRow>)
      ensures rows == initial && cache.None? && Valid()
    {
      rows := initial;
      cache := None;
    }

    /** `getActive()`: the remembered row, or the query's answer, which is
        then remembered. */
    method GetActive() returns (r: Option<SeoRow>)
      requires Valid()
      modifies this`cache
      ensures Valid() && rows == old(rows)
      ensures r == FirstActive(rows) && cache == Some(r)
    {
      if cache.None? {
        cache := Some(FirstActive(rows));
      }
      r := cache.value;
    }

    /** `clearCache()`: forget the entry. */
    method ClearCache()
      modifies this`cache
      ensures cache.None? && Valid()
    {
      cache := None;
    }

    /** Saving row `i` (an update when `i` is an existing position, an
        insert otherwise); the `saved` hook then clears the cache. */
    method Save(i: nat, row: SeoRow)
      modifies this
      ensures rows == if i < |old(rows)| then old(rows)[i := row] else old(rows) + [row]
      ensures cache.None? && Valid()
    {
      if i < |rows| {
        rows := rows[i := row];
      } else {
        rows := rows + [row];
      }
      ClearCache();
    }

    /** Deleting row `i`; the `deleted` hook then clears the cache. */
    method Delete(i: nat)
      requires i < |rows|
      modifies this
      ensures rows == old(rows)[..i] + old(rows)[i + 1..]
      ensures cache.None? && Valid()
    {
      rows := rows[..i] + rows[i + 1..];
      ClearCache();
    }
  }

  /** A read after a save sees the saved table: the stale entry cannot
      survive the write. */
  method SaveThenRead(store: SeoStore, i: nat, row: SeoRow) returns (r: Option<SeoRow>)
    requires store.Valid()
    modifies store
    ensures r == FirstActive(store.rows) && store.Valid()
    ensures row.isActive && (forall k :: 0 <= k < |old(store.rows)| ==> !old(store.rows)[k].isActive) ==> r == Some(row)
  {
    store.Save(i, row);
    r := store.GetActive();
    if row.isActive && (forall k :: 0 <= k < |old(store.rows)| ==> !old(store.rows)[k].isActive) {
      var idx := if i < |old(store.rows)| then i else |old(store.rows)|;
      assert store.rows[idx] == row;
      assert forall k :: 0 <= k < |store.rows| && k != idx ==> !store.rows[k].isActive;
    }
  }
}
