/** The props of the home page, composed by the `/` route of routes/web.php
    from the active SEO row, the active content rows and the site settings.
    The application URL, the asset root and the registration feature flag
    are parameters; settings are read against the table and cache as they
    stand when the request starts. */
module Home {
  import opened Common
  import opened Collections
  import opened SeoSettings
  import opened SiteSettings
  import opened StoreHours

  // ---- Content rows ----

  /** A row of one of the content tables (hero and about sections, product
      categories, gallery items, testimonials): the columns the page shows
      are carried through unchanged; `is_active` and `order` drive the
      queries. */
  datatype ContentRow = ContentRow(id: nat, columns: map<string, Option<string>>, isActive: bool, order: int)

  function IsActive(r: ContentRow): bool { r.isActive }
  function OrderOf(r: ContentRow): int { r.order }

  /** `active()->ordered()->get()`: the active rows by ascending `order`
      (ties in no promised order). */
  function ActiveOrdered(rows: seq<ContentRow>): (r: seq<ContentRow>)
    ensures SortedBy(r, OrderOf)
    ensures forall i :: 0 <= i < |r| ==> r[i].isActive
    ensures multiset(r) == multiset(Filter(rows, IsActive))
  {
    var sorted := SortBy(Filter(rows, IsActive), OrderOf);
    forall i | 0 <= i < |sorted| ensures sorted[i].isActive {
      assert sorted[i] in multiset(sorted);
    }
    sorted
  }

  /** `getActive()` on the hero and about sections: `active()->first()`,
      the first active row in table order. */
  function FirstActiveRow(rows: seq<ContentRow>): (r: Option<ContentRow>)
    ensures r.None? <==> forall i :: 0 <= i < |rows| ==> !rows[i].isActive
    ensures r.Some? ==> exists i :: (0 <= i < |rows| && rows[i] == r.value && r.value.isActive &&
      forall k :: 0 <= k < i ==> !rows[k].isActive)
  {
    FirstWhere(rows, (c: ContentRow) => c.isActive)
  }

  // ---- Settings ----

  datatype Day = Monday | Tuesday | Wednesday | Thursday | Friday | Saturday | Sunday

  /** The key of a day in the `hours` object. */
  function DayName(d: Day): string
  {
    match d
    case Monday => "monday"
    case Tuesday => "tuesday"
    case Wednesday => "wednesday"
    case Thursday => "thursday"
    case Friday => "friday"
    case Saturday => "saturday"
    case Sunday => "sunday"
  }

  /** The `hours` object: one entry per day of the week, nothing else. */
  datatype WeekHours = WeekHours(
    monday: Option<string>, tuesday: Option<string>, wednesday: Option<string>,
    thursday: Option<string>, friday: Option<string>, saturday: Option<string>,
    sunday: Option<string>)
  {
    function At(d: Day): Option<string>
    {
      match d
      case Monday => monday
      case Tuesday => tuesday
      case Wednesday => wednesday
      case Thursday => thursday
      case Friday => friday
      case Saturday => saturday
      case Sunday => sunday
    }
  }

  /** The `settings` prop. */
  datatype Settings = Settings(
    siteName: Option<string>,
    locationName: Option<string>,
    phone: Option<string>,
    addressLine1: Option<string>,
    addressLine2: Option<string>,
    hours: WeekHours,
    footerTagline: Option<string>)

  const WeekdayHours := "9 AM \U{2013} 7 PM"
  const SaturdayHours := "10 AM \U{2013} 6 PM"
  const SundayHours := "12 PM \U{2013} 5 PM"

  /** Each setting read with its literal default; `footer_tagline` has
      none, so its default is null. */
  function HomeSettings(rows: seq<SettingRow>, cache: map<string, Option<string>>): Settings
  {
    Settings(
      Read(rows, cache, "site_name", Some("Mary's Lace n Craft")),
      Read(rows, cache, "location_name", Some("South Hill Square")),
      Read(rows, cache, "phone", Some("(626) 918-8511")),
      Read(rows, cache, "address_line1", Some("South Hills Shopping Center")),
      Read(rows, cache, "address_line2", Some("1629 N Hacienda Blvd, La Puente, CA 91744")),
      WeekHours(
        Read(rows, cache, "hours_monday", Some(WeekdayHours)),
        Read(rows, cache, "hours_tuesday", Some(WeekdayHours)),
        Read(rows, cache, "hours_wednesday", Some(WeekdayHours)),
        Read(rows, cache, "hours_thursday", Some(WeekdayHours)),
        Read(rows, cache, "hours_friday", Some(WeekdayHours)),
        Read(rows, cache, "hours_saturday", Some(SaturdayHours)),
        Read(rows, cache, "hours_sunday", Some(SundayHours))),
      Read(rows, cache, "footer_tagline", None))
  }

  /** The default a day's hours are read with. */
  function DayDefault(d: Day): string
  {
    match d
    case Saturday => SaturdayHours
    case Sunday => SundayHours
    case _ => WeekdayHours
  }

  /** Day `d` is read from the setting `hours_<d>` with its default. */
  lemma HoursReadFromKey(rows: seq<SettingRow>, cache: map<string, Option<string>>, d: Day)
    ensures HomeSettings(rows, cache).hours.At(d) == Read(rows, cache, "hours_" + DayName(d), Some(DayDefault(d)))
  {
    match d
    case Monday => assert "hours_" + DayName(d) == "hours_monday";
    case Tuesday => assert "hours_" + DayName(d) == "hours_tuesday";
    case Wednesday => assert "hours_" + DayName(d) == "hours_wednesday";
    case Thursday => assert "hours_" + DayName(d) == "hours_thursday";
    case Friday => assert "hours_" + DayName(d) == "hours_friday";
    case Saturday => assert "hours_" + DayName(d) == "hours_saturday";
    case Sunday => assert "hours_" + DayName(d) == "hours_sunday";
  }

  /** On an empty settings table with an empty cache every setting is its
      literal default and `footer_tagline` is null. */
  lemma SettingsDefaults(d: Day)
    ensures var st := HomeSettings([], map[]);
      st.siteName == Some("Mary's Lace n Craft") && st.locationName == Some("South Hill Square") &&
      st.phone == Some("(626) 918-8511") && st.addressLine1 == Some("South Hills Shopping Center") &&
      st.addressLine2 == Some("1629 N Hacienda Blvd, La Puente, CA 91744") &&
      st.hours.At(d) == Some(DayDefault(d)) && st.footerTagline.None?
  {
  }

  /** The prop that shows field `i` of the store-hours page. */
  function StoreFieldProp(st: Settings, i: nat): Option<string>
    requires i < |StoreFields|
  {
    match i
    case 0 => st.locationName
    case 1 => st.addressLine1
    case 2 => st.addressLine2
    case 3 => st.phone
    case 4 => st.hours.monday
    case 5 => st.hours.tuesday
    case 6 => st.hours.wednesday
    case 7 => st.hours.thursday
    case 8 => st.hours.friday
    case 9 => st.hours.saturday
    case _ => st.hours.sunday
  }

  /** The home page shows, for each of the eleven fields of the store-hours
      page, the value that page's `mount` reads: same key, same default. */
  lemma HomeAgreesWithStoreHours(rows: seq<SettingRow>, cache: map<string, Option<string>>, i: nat)
    requires i < |StoreFields|
    ensures StoreFieldProp(HomeSettings(rows, cache), i) ==
      Read(rows, cache, StoreFields[i].key, Some(StoreFields[i].fallback))
  {
  }

  // ---- The `seo` prop ----

  datatype SocialLinks = SocialLinks(
    facebook: Option<string>, instagram: Option<string>, twitter: Option<string>,
    pinterest: Option<string>, yelp: Option<string>, google: Option<string>)

  datatype SeoProps = SeoProps(
    title: Option<string>,
    description: Option<string>,
    keywords: Option<string>,
    ogTitle: Option<string>,
    ogDescription: Option<string>,
    ogImage: Option<string>,
    ogType: Option<string>,
    ogSiteName: Option<string>,
    twitterCard: Option<string>,
    twitterSite: Option<string>,
    canonicalUrl: string,
    localBusiness: LocalBusiness,
    googleAnalyticsId: Option<string>,
    googleTagManagerId: Option<string>,
    facebookPixelId: Option<string>,
    customHeadScripts: Option<string>,
    customBodyScripts: Option<string>,
    googleSiteVerification: Option<string>,
    bingSiteVerification: Option<string>,
    pinterestSiteVerification: Option<string>,
    socialLinks: SocialLinks)

  function SeoPropsOf(s: SeoRow, appUrl: string, assetRoot: string): SeoProps
  {
    SeoProps(
      s.metaTitle, s.metaDescription, s.metaKeywords,
      Coalesce(s.ogTitle, s.metaTitle),
      Coalesce(s.ogDescription, s.metaDescription),
      if Truthy(s.ogImage) then Some(StorageUrl(assetRoot, s.ogImage.value)) else None,
      s.ogType, s.ogSiteName, s.twitterCard, s.twitterSite,
      if s.canonicalUrl.Some? then s.canonicalUrl.value else appUrl,
      LocalBusinessJsonLd(s, appUrl, assetRoot),
      s.googleAnalyticsId, s.googleTagManagerId, s.facebookPixelId,
      s.customHeadScripts, s.customBodyScripts,
      s.googleSiteVerification, s.bingSiteVerification, s.pinterestSiteVerification,
      SocialLinks(s.facebookUrl, s.instagramUrl, s.twitterUrl, s.pinterestUrl, s.yelpUrl, s.googleBusinessUrl))
  }

  /** The prop fallbacks: the OG title and description fall back only on
      null, the OG image is a storage URL exactly when `og_image` is truthy,
      the canonical URL falls back to the app URL, and the social links pass
      all six URLs through, twitter included. */
  lemma SeoPropsFallbacks(s: SeoRow, appUrl: string, assetRoot: string)
    ensures var p := SeoPropsOf(s, appUrl, assetRoot);
      (s.ogTitle.Some? ==> p.ogTitle == s.ogTitle) && (s.ogTitle.None? ==> p.ogTitle == s.metaTitle) &&
      (s.ogDescription.Some? ==> p.ogDescription == s.ogDescription) &&
      (s.ogDescription.None? ==> p.ogDescription == s.metaDescription) &&
      (p.ogImage.Some? <==> Truthy(s.ogImage)) &&
      (p.ogImage.Some? ==> p.ogImage.value == assetRoot + "/storage/" + s.ogImage.value && TruthyStr(p.ogImage.value)) &&
      (s.canonicalUrl.Some? ==> p.canonicalUrl == s.canonicalUrl.value) &&
      (s.canonicalUrl.None? ==> p.canonicalUrl == appUrl) &&
      p.socialLinks.twitter == s.twitterUrl && p.socialLinks.facebook == s.facebookUrl &&
      p.socialLinks.google == s.googleBusinessUrl
  {
  }

  /** A non-null empty `og_title` reaches the page as the empty OG title
      prop, while the `og:title` meta tag is dropped altogether. */
  lemma EmptyOgTitleProp(s: SeoRow, appUrl: string, assetRoot: string)
    requires s.ogTitle == Some("") && Truthy(s.metaTitle)
    ensures SeoPropsOf(s, appUrl, assetRoot).ogTitle == Some("")
    ensures OgTitle !in MetaTags(s, appUrl, assetRoot)
  {
    EmptyOgTitleSuppresses(s, appUrl, assetRoot);
  }

  // ---- The page ----

  datatype HomeProps = HomeProps(
    canRegister: bool,
    seo: Option<SeoProps>,
    hero: Option<ContentRow>,
    about: Option<ContentRow>,
    categories: seq<ContentRow>,
    gallery: seq<ContentRow>,
    testimonials: seq<ContentRow>,
    settings: Settings)

  /** The tables the route reads. */
  datatype Tables = Tables(
    seo: seq<SeoRow>, heroes: seq<ContentRow>, abouts: seq<ContentRow>,
    categories: seq<ContentRow>, gallery: seq<ContentRow>, testimonials: seq<ContentRow>,
    settings: seq<SettingRow>, settingsCache: map<string, Option<string>>)

  /** The `/` route. */
  function HomePage(t: Tables, appUrl: string, assetRoot: string, canRegister: bool): (p: HomeProps)
    ensures p.seo.None? <==> forall i :: 0 <= i < |t.seo| ==> !t.seo[i].isActive
    ensures p.seo.Some? ==> FirstActive(t.seo).Some? && p.seo.value == SeoPropsOf(FirstActive(t.seo).value, appUrl, assetRoot)
    ensures p.hero == FirstActiveRow(t.heroes) && p.about == FirstActiveRow(t.abouts)
    ensures SortedBy(p.categories, OrderOf) && multiset(p.categories) == multiset(Filter(t.categories, IsActive))
    ensures SortedBy(p.gallery, OrderOf) && multiset(p.gallery) == multiset(Filter(t.gallery, IsActive))
    ensures SortedBy(p.testimonials, OrderOf) && multiset(p.testimonials) == multiset(Filter(t.testimonials, IsActive))
    ensures p.settings == HomeSettings(t.settings, t.settingsCache)
  {
    var seo := FirstActive(t.seo);
    HomeProps(
      canRegister,
      if seo.Some? then Some(SeoPropsOf(seo.value, appUrl, assetRoot)) else None,
      FirstActiveRow(t.heroes),
      FirstActiveRow(t.abouts),
      ActiveOrdered(t.categories),
      ActiveOrdered(t.gallery),
      ActiveOrdered(t.testimonials),
      HomeSettings(t.settings, t.settingsCache))
  }
}
