/** The data the home page component (resources/js/pages/welcome.tsx)
    derives from its props before rendering: the product, testimonial and
    gallery lists with their built-in fallbacks, the category icon lookup,
    image URLs, gallery hues and tile sizes, the `tel:` link, today's
    opening hours, the testimonial rotation and the title fallbacks.
    JavaScript's `a || b` is `JsOr`; a prop that is absent or null is
    `None`; an absent list behaves as an empty one. The weekday and the
    browser's location are parameters. */
module Welcome {
  import opened Common
  import opened Collections
  import opened SeoSettings
  import opened SiteSettings
  import opened Home

  // ---- Category icons ----

  datatype Icon = Heart | Sparkles | Gift | Star | Scissors | Calendar

  /** The icon table, in insertion order: six emoji keys, then six words. */
  const IconMap: seq<(string, Icon)> := [
    ("\U{1F380}", Heart), ("\U{2728}", Sparkles), ("\U{1F381}", Gift),
    ("\U{1F338}", Star), ("\U{1F9FA}", Scissors), ("\U{1F389}", Calendar),
    ("Ribbons", Heart), ("Laces", Sparkles), ("Party", Gift),
    ("Flowers", Star), ("Baskets", Scissors), ("Event", Calendar)]

  /** `iconOrTitle?.includes(key)`: an absent argument includes nothing. */
  predicate Includes(arg: Option<string>, key: string)
  {
    arg.Some? && Contains(arg.value, key)
  }

  /** The icon of the first entry whose key the argument includes. */
  function FirstMatch(arg: Option<string>, m: seq<(string, Icon)>): (r: Option<Icon>)
    ensures r.None? <==> forall i :: 0 <= i < |m| ==> !Includes(arg, m[i].0)
    ensures r.Some? ==> exists i :: (0 <= i < |m| && Includes(arg, m[i].0) && r.value == m[i].1 &&
      forall k :: 0 <= k < i ==> !Includes(arg, m[k].0))
  {
    if m == [] then None
    else if Includes(arg, m[0].0) then Some(m[0].1)
    else
      var r := FirstMatch(arg, m[1..]);
      if r.Some? then
        var i :| 0 <= i < |m[1..]| && Includes(arg, m[1..][i].0) && r.value == m[1..][i].1 &&
          forall k :: 0 <= k < i ==> !Includes(arg, m[1..][k].0);
        assert m[i + 1] == m[1..][i];
        assert forall k :: 1 <= k < i + 1 ==> m[k] == m[1..][k - 1];
        r
      else
        assert forall k :: 1 <= k < |m| ==> m[k] == m[1..][k - 1];
        r
  }

  /** The icon a category shows: the first match, or Star. */
  function IconSpec(arg: Option<string>): Icon
  {
    var r := FirstMatch(arg, IconMap);
    if r.Some? then r.value else Star
  }

  /** `getIconForCategory(iconOrTitle)`: scan the table in order and return
      at the first key the argument includes; Star when none does. */
  method IconForCategory(arg: Option<string>) returns (icon: Icon)
    ensures icon == IconSpec(arg)
  {
    var i := 0;
    while i < |IconMap|
      invariant 0 <= i <= |IconMap|
      invariant forall k :: 0 <= k < i ==> !Includes(arg, IconMap[k].0)
    {
      var (key, ic) := IconMap[i];
      if arg.Some? && Contains(arg.value, key) {
        FirstMatchAt(arg, IconMap, i);
        return ic;
      }
      i := i + 1;
    }
    icon := Star;
  }

  /** The first key included determines the match. */
  lemma FirstMatchAt(arg: Option<string>, m: seq<(string, Icon)>, i: nat)
    requires i < |m| && Includes(arg, m[i].0)
    requires forall k :: 0 <= k < i ==> !Includes(arg, m[k].0)
    ensures FirstMatch(arg, m) == Some(m[i].1)
  {
    var r := FirstMatch(arg, m);
    var j :| 0 <= j < |m| && Includes(arg, m[j].0) && r.value == m[j].1 &&
      forall k :: 0 <= k < j ==> !Includes(arg, m[k].0);
    assert j == i;
  }

  /** The argument looked up: the category's icon when it is truthy,
      otherwise its title. */
  function IconArg(icon: Option<string>, title: Option<string>): (a: Option<string>)
    ensures JsTruthy(icon) ==> a == icon
    ensures !JsTruthy(icon) ==> a == title
  {
    if JsTruthy(icon) then icon else title
  }

  /** A string containing `t` contains the first character of `t`. */
  lemma ContainsHead(s: string, t: string)
    requires |t| > 0 && Contains(s, t)
    ensures t[0] in s
  {
    var i :| 0 <= i <= |s| && OccursAt(s, t, i);
    assert s[i] == t[0];
  }

  /** A title that names a product family gets that family's icon: a
      category titled "Laces & Trims" without an icon shows Sparkles. */
  lemma LacesAndTrimsIcon(icon: Option<string>)
    requires !JsTruthy(icon)
    ensures IconSpec(IconArg(icon, Some("Laces & Trims"))) == Sparkles
  {
    var s := "Laces & Trims";
    var arg := IconArg(icon, Some(s));
    forall k | 0 <= k < 7 ensures !Includes(arg, IconMap[k].0) {
      if Includes(arg, IconMap[k].0) {
        ContainsHead(s, IconMap[k].0);
        assert false;
      }
    }
    assert s[..5] == "Laces";
    ContainsAt(s, "Laces", 0);
    FirstMatchAt(arg, IconMap, 7);
  }

  /** No key included means the Star icon, whatever the argument. */
  lemma NoMatchIsStar(arg: Option<string>)
    requires forall k :: 0 <= k < |IconMap| ==> !Includes(arg, IconMap[k].0)
    ensures IconSpec(arg) == Star
  {
  }

  // ---- Lists ----

  /** `cat.image ? '/storage/' + cat.image : null` (likewise for gallery
      items): JavaScript truthiness, so "0" still makes a URL. */
  function ImageUrl(image: Option<string>): (u: Option<string>)
    ensures u.Some? <==> JsTruthy(image)
    ensures u.Some? ==> StartsWith(u.value, "/storage/") && u.value[|"/storage/"|..] == image.value
  {
    if JsTruthy(image) then
      assert ("/storage/" + image.value)[..|"/storage/"|] == "/storage/";
      Some("/storage/" + image.value)
    else None
  }

  /** A template-literal interpolation: null prints as "null". */
  function Interp(o: Option<string>): string
  {
    if o.Some? then o.value else "null"
  }

  datatype CategoryProp = CategoryProp(
    icon: Option<string>, title: Option<string>, description: Option<string>,
    colorFrom: Option<string>, colorTo: Option<string>, image: Option<string>)

  datatype Product = Product(
    icon: Icon, title: Option<string>, description: Option<string>,
    color: string, image: Option<string>)

  function ProductOf(c: CategoryProp): Product
  {
    Product(IconSpec(IconArg(c.icon, c.title)), c.title, c.description,
      "from-" + Interp(c.colorFrom) + " to-" + Interp(c.colorTo), ImageUrl(c.image))
  }

  const DefaultProducts: seq<Product> := [
    Product(Heart, Some("Ribbons"), Some("Satin, grosgrain, organza, velvet and more in every color imaginable"), "from-pink-100 to-pink-50", None),
    Product(Sparkles, Some("Laces & Trims"), Some("Vintage-inspired and contemporary laces for elegant finishing touches"), "from-amber-100 to-amber-50", None),
    Product(Gift, Some("Party Favors"), Some("Beautiful favors and supplies for weddings, quinceañeras, baby showers & all events"), "from-rose-100 to-rose-50", None),
    Product(Star, Some("Flowers"), Some("Silk flowers, floral arrangements and supplies for stunning decorations"), "from-pink-100 to-pink-50", None),
    Product(Scissors, Some("Baskets"), Some("Decorative baskets in all sizes perfect for gifts and arrangements"), "from-amber-100 to-amber-50", None),
    Product(Calendar, Some("Event Supplies"), Some("Everything you need for birthdays, holidays, and special celebrations"), "from-stone-200 to-stone-100", None)]

  /** `products`: the categories mapped one to one, or the six built-in
      products when there are none. */
  function Products(cats: seq<CategoryProp>): (ps: seq<Product>)
    ensures |cats| > 0 ==> |ps| == |cats| && forall i :: 0 <= i < |cats| ==> ps[i] == ProductOf(cats[i])
    ensures |cats| == 0 ==> ps == DefaultProducts
    ensures |ps| > 0
  {
    if |cats| > 0 then seq(|cats|, i requires 0 <= i < |cats| => ProductOf(cats[i]))
    else DefaultProducts
  }

  datatype TestimonialProp = TestimonialProp(content: Option<string>, authorName: Option<string>, authorTitle: Option<string>)

  datatype Testimonial = Testimonial(text: Option<string>, author: Option<string>, title: Option<string>)

  const DefaultTestimonials: seq<Testimonial> := [
    Testimonial(Some("Mary's selection is unmatched! I've been a customer for 5 years and always find the perfect ribbons for my wedding invitations business."), Some("Sarah Mitchell"), Some("Wedding Stationery Designer")),
    Testimonial(Some("The quality of laces here is exceptional. I travel 2 hours just to visit this store because nothing else compares."), Some("Emily Chen"), Some("Fashion Designer")),
    Testimonial(Some("Best craft store in the area! Mary always helps me find exactly what I need, even when I don't know what I'm looking for."), Some("Jennifer Adams"), Some("DIY Enthusiast"))]

  /** `testimonials`: the stored ones renamed field by field, or the three
      built-in ones. Never empty. */
  function Testimonials(ts: seq<TestimonialProp>): (r: seq<Testimonial>)
    ensures |ts| > 0 ==> |r| == |ts| && forall i :: 0 <= i < |ts| ==>
      r[i] == Testimonial(ts[i].content, ts[i].authorName, ts[i].authorTitle)
    ensures |ts| == 0 ==> r == DefaultTestimonials
    ensures |r| > 0
  {
    if |ts| > 0 then seq(|ts|, i requires 0 <= i < |ts| => Testimonial(ts[i].content, ts[i].authorName, ts[i].authorTitle))
    else DefaultTestimonials
  }

  datatype GalleryProp = GalleryProp(
    title: Option<string>, category: Option<string>, image: Option<string>,
    gradientFrom: Option<string>, gradientVia: Option<string>, gradientTo: Option<string>,
    isLarge: bool, isFeatured: bool)

  datatype GalleryItem = GalleryItem(
    title: Option<string>, category: Option<string>, image: Option<string>, hue: string, isLarge: bool)

  /** The tile's gradient classes; each missing stop takes its default. */
  function Hue(from: Option<string>, via: Option<string>, to: Option<string>): string
  {
    "bg-gradient-to-br from-" + JsOr(from, "pink-200") + " via-" + JsOr(via, "rose-100") + " to-" + JsOr(to, "white")
  }

  function GalleryItemOf(g: GalleryProp): GalleryItem
  {
    GalleryItem(g.title, g.category, ImageUrl(g.image), Hue(g.gradientFrom, g.gradientVia, g.gradientTo),
      g.isLarge || g.isFeatured)
  }

  const DefaultGallery: seq<GalleryItem> := [
    GalleryItem(Some("Wedding Decor"), Some("Weddings"), None, "bg-gradient-to-br from-pink-200 via-rose-100 to-white", true),
    GalleryItem(Some("Quinceañera"), Some("Events"), None, "bg-gradient-to-br from-fuchsia-200 via-pink-100 to-white", false),
    GalleryItem(Some("Baby Showers"), Some("Baby Shower"), None, "bg-gradient-to-br from-sky-200 via-blue-100 to-white", false),
    GalleryItem(Some("Birthday Parties"), Some("Events"), None, "bg-gradient-to-br from-amber-200 via-orange-100 to-white", false),
    GalleryItem(Some("Floral Arrangements"), Some("Flowers"), None, "bg-gradient-to-br from-rose-300 via-pink-200 to-white", true),
    GalleryItem(Some("Gift Baskets"), Some("Gifts"), None, "bg-gradient-to-br from-stone-200 via-stone-100 to-white", false)]

  /** `galleryItems`: the stored items mapped one to one, or the six
      built-in tiles. */
  function GalleryItems(gs: seq<GalleryProp>): (r: seq<GalleryItem>)
    ensures |gs| > 0 ==> |r| == |gs| && forall i :: 0 <= i < |gs| ==> r[i] == GalleryItemOf(gs[i])
    ensures |gs| == 0 ==> r == DefaultGallery
  {
    if |gs| > 0 then seq(|gs|, i requires 0 <= i < |gs| => GalleryItemOf(gs[i]))
    else DefaultGallery
  }

  /** A stored tile with no gradient stops, or only empty ones, gets the
      gradient whose stops are pink-200, rose-100 and white, the one of the
      first built-in tile. */
  lemma GalleryDefaultHue(g: GalleryProp)
    requires !JsTruthy(g.gradientFrom) && !JsTruthy(g.gradientVia) && !JsTruthy(g.gradientTo)
    ensures GalleryItemOf(g).hue == Hue(Some("pink-200"), Some("rose-100"), Some("white"))
  {
  }

  /** A tile spans two rows when it is large or sits at position 0 or 4. */
  predicate TallTile(item: GalleryItem, index: nat)
  {
    item.isLarge || index == 0 || index == 4
  }

  /** Among the built-in tiles exactly the first and the fifth are tall;
      among stored ones, those two positions are tall whatever their flags,
      and any other is tall exactly when marked large or featured. */
  lemma TallTiles(gs: seq<GalleryProp>, i: nat)
    requires i < |GalleryItems(gs)|
    ensures |gs| == 0 ==> (TallTile(GalleryItems(gs)[i], i) <==> i == 0 || i == 4)
    ensures |gs| > 0 && i != 0 && i != 4 ==> (TallTile(GalleryItems(gs)[i], i) <==> gs[i].isLarge || gs[i].isFeatured)
    ensures i == 0 || i == 4 ==> TallTile(GalleryItems(gs)[i], i)
  {
  }

  // ---- Testimonial rotation ----

  /** The timer's step: `(prev + 1) % testimonials.length`. */
  function NextTestimonial(prev: nat, n: nat): (r: nat)
    requires n > 0
    ensures r < n
    ensures prev + 1 < n ==> r == prev + 1
    ensures prev + 1 == n ==> r == 0
  {
    (prev + 1) % n
  }

  /** The index after `k` ticks from the initial 0. */
  function AfterTicks(k: nat, n: nat): (r: nat)
    requires n > 0
    ensures r < n
  {
    if k == 0 then 0 else NextTestimonial(AfterTicks(k - 1, n), n)
  }

  /** During the first round the `k`-th tick shows testimonial `k`. */
  lemma {:induction false} FirstRound(k: nat, n: nat)
    requires 0 < n && k < n
    ensures AfterTicks(k, n) == k
  {
    if k > 0 {
      FirstRound(k - 1, n);
    }
  }

  /** After `n` ticks the rotation is back where it started, at every
      point. */
  lemma {:induction false} Periodic(k: nat, n: nat)
    requires n > 0
    ensures AfterTicks(k + n, n) == AfterTicks(k, n)
  {
    if k == 0 {
      FirstRound(n - 1, n);
    } else {
      Periodic(k - 1, n);
    }
  }

  /** The rotation over the page's testimonials: never empty, so the step
      is always defined, it shows them in order and wraps around. */
  lemma RotationCycles(ts: seq<TestimonialProp>, k: nat)
    ensures |Testimonials(ts)| > 0
    ensures k < |Testimonials(ts)| ==> AfterTicks(k, |Testimonials(ts)|) == k
    ensures AfterTicks(k + |Testimonials(ts)|, |Testimonials(ts)|) == AfterTicks(k, |Testimonials(ts)|)
  {
    if k < |Testimonials(ts)| {
      FirstRound(k, |Testimonials(ts)|);
    }
    Periodic(k, |Testimonials(ts)|);
  }

  // ---- Contact details and hours ----

  predicate IsDigit(c: char) { '0' <= c <= '9' }

  /** `replace(/[^0-9]/g, '')`: the digits of `s`, in order. */
  function Digits(s: string): (r: string)
    ensures forall i :: 0 <= i < |r| ==> IsDigit(r[i])
    ensures (forall i :: 0 <= i < |s| ==> IsDigit(s[i])) ==> r == s
  {
    if s == [] then []
    else
      assert s == [s[0]] + s[1..];
      (if IsDigit(s[0]) then [s[0]] else []) + Digits(s[1..])
  }

  /** Stripping keeps every digit, as often as it occurs, and drops
      everything else. */
  lemma {:induction false} DigitsKept(s: string)
    ensures forall c :: IsDigit(c) ==> multiset(Digits(s))[c] == multiset(s)[c]
    ensures forall c :: !IsDigit(c) ==> multiset(Digits(s))[c] == 0
  {
    if s != [] {
      assert s == [s[0]] + s[1..];
      DigitsKept(s[1..]);
    }
  }

  lemma {:induction false} DigitsAppend(s: string, t: string)
    ensures Digits(s + t) == Digits(s) + Digits(t)
  {
    if s == [] {
      assert s + t == t;
    } else {
      assert (s + t)[1..] == s[1..] + t;
      DigitsAppend(s[1..], t);
    }
  }

  const DefaultPhone := "(626) 918-8511"

  /** `phone`: the phone setting, or the default number when it is empty
      or there are no settings. */
  function Phone(settings: Option<Settings>): string
  {
    if settings.Some? then JsOr(settings.value.phone, DefaultPhone) else DefaultPhone
  }

  /** The `tel:` link of a phone number. */
  function TelHref(phone: string): string
  {
    "tel:" + Digits(phone)
  }

  /** Only digits follow `tel:`, and stripping twice changes nothing. */
  lemma TelDigitsOnly(phone: string)
    ensures StartsWith(TelHref(phone), "tel:")
    ensures var h := TelHref(phone); forall i :: 4 <= i < |h| ==> IsDigit(h[i])
    ensures Digits(Digits(phone)) == Digits(phone)
  {
    var d := Digits(phone);
    var h := "tel:" + d;
    assert h[..4] == "tel:";
    forall i | 4 <= i < |h| ensures IsDigit(h[i]) {
      assert h[i] == d[i - 4];
    }
  }

  /** `hours`: the settings' object, or the built-in week when there are no
      settings at all. */
  function HoursOf(settings: Option<Settings>): WeekHours
  {
    if settings.Some? then settings.value.hours
    else WeekHours(Some(WeekdayHours), Some(WeekdayHours), Some(WeekdayHours), Some(WeekdayHours),
      Some(WeekdayHours), Some(SaturdayHours), Some(SundayHours))
  }

  /** `days[new Date().getDay()]`: 0 is Sunday. */
  function DayOfWeek(i: nat): Day
    requires i < 7
  {
    [Sunday, Monday, Tuesday, Wednesday, Thursday, Friday, Saturday][i]
  }

  /** `todayHours`: today's entry, or "Closed" when it is empty or
      missing. */
  function TodayHours(settings: Option<Settings>, weekday: nat): (h: string)
    requires weekday < 7
    ensures JsTruthy(HoursOf(settings).At(DayOfWeek(weekday))) ==> h == HoursOf(settings).At(DayOfWeek(weekday)).value
    ensures !JsTruthy(HoursOf(settings).At(DayOfWeek(weekday))) ==> h == "Closed"
  {
    JsOr(HoursOf(settings).At(DayOfWeek(weekday)), "Closed")
  }

  /** With the settings the home route sends, a day whose setting was stored
      empty reads "Closed"; on a store with no settings at all each day
      shows its built-in hours. */
  lemma TodayHoursFromStore(rows: seq<SettingRow>, cache: map<string, Option<string>>, weekday: nat)
    requires weekday < 7
    ensures var v := Read(rows, cache, "hours_" + DayName(DayOfWeek(weekday)), Some(DayDefault(DayOfWeek(weekday))));
      TodayHours(Some(HomeSettings(rows, cache)), weekday) == JsOr(v, "Closed")
    ensures TodayHours(Some(HomeSettings([], map[])), weekday) == DayDefault(DayOfWeek(weekday))
  {
    HoursReadFromKey(rows, cache, DayOfWeek(weekday));
    SettingsDefaults(DayOfWeek(weekday));
  }

  // ---- Titles ----

  const DefaultTitle := "Mary's Lace n Craft | Wholesale & Retail Craft Supplies"

  /** `pageTitle`. */
  function PageTitle(seo: Option<SeoProps>): string
  {
    JsOr(if seo.Some? then seo.value.title else None, DefaultTitle)
  }

  /** The `og:title` the page renders: the OG title prop, or the page
      title when that prop is empty or missing. */
  function OgTitleShown(seo: Option<SeoProps>): string
  {
    JsOr(if seo.Some? then seo.value.ogTitle else None, PageTitle(seo))
  }

  /** `og:url`: the canonical URL prop, or the browser's location. */
  function OgUrl(seo: Option<SeoProps>, href: string): string
  {
    JsOr(if seo.Some? then Some(seo.value.canonicalUrl) else None, href)
  }

  /** An empty stored `og_title` reaches the page as an empty prop, the
      server's meta tags leave `og:title` out, and the page still renders an
      `og:title`: the meta title. */
  lemma EmptyOgTitleFallsBack(s: SeoRow, appUrl: string, assetRoot: string)
    requires s.ogTitle == Some("") && Truthy(s.metaTitle)
    ensures OgTitleShown(Some(SeoPropsOf(s, appUrl, assetRoot))) == s.metaTitle.value
    ensures OgTitle !in MetaTags(s, appUrl, assetRoot)
  {
    EmptyOgTitleProp(s, appUrl, assetRoot);
  }

  /** With no active SEO row the page falls back to its built-in title and
      to the browser's location for `og:url`. */
  lemma NoSeoFallbacks(href: string)
    ensures PageTitle(None) == DefaultTitle && OgTitleShown(None) == DefaultTitle
    ensures OgUrl(None, href) == href
  {
  }
}
