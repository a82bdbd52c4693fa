# Mary's Lace n Craft — a verified model of the site's core

Mary's Lace n Craft is a Laravel and React marketing site for a craft-supply
store. It has a public home page, a sitemap, a robots file and a Filament
admin panel. This project models in Dafny the logic behind those pages and
proves properties of it:

- the visitor-tracking middleware: which requests are recorded, how a user
  agent is classified, and what the stored row holds;
- the `Visitor` statistics: totals, uniques, per-day counts, top pages, and
  the device and browser breakdowns;
- the two dashboard charts built from those statistics;
- the `SiteSetting` key/value store with its "remember forever" cache;
- the store-hours admin page that reads and writes that store;
- the `SeoSetting` row: the active row, its cache, its meta tags and its
  schema.org `LocalBusiness` JSON-LD;
- the sitemap and `robots.txt` controller;
- the home route that gathers everything for the page;
- the page's own derivations in `welcome.tsx`: icons, defaults, gallery
  tiles, testimonial rotation, the `tel:` link, today's hours, titles;
- the contact-submission workflow: statuses, scopes, badges, actions and the
  view page.

Database tables are sequences of rows. A query is a function over those
rows. The caches are explicit fields of the stores, and the "saved" and
"deleted" model events that clear them are explicit updates. Strings are
`seq<char>`. Dates are day numbers. The clock, `asset()`, `config('app.url')`,
`htmlspecialchars`, date formatting, `window.location` and the current
weekday are parameters.

Modules:

- `Common`: PHP and JavaScript truthiness, `??`, `||`, case-insensitive
  search, `substr` truncation and storage URLs.
- `Collections`: sorting, filtering, grouping and ranking.
- `Visitors`, `TrackVisitors`, `VisitorChart` and `DeviceStats`.
- `SiteSettings`, `StoreHours` and `SeoSettings`.
- `Sitemap`, `Home`, `Welcome` and `Contact`.

## Model

| member | source | states |
|---|---|---|
| Common.JsOrSettles | resources/js/pages/welcome.tsx:258-262 | the shown value is `a` itself or the fallback; feeding it back in shows it again; a non-empty fallback means the page never shows an empty string |
| Common.Truncate | app/Http/Middleware/TrackVisitors.php:81-83 | `substr($s, 0, n)` is a prefix of `s` of length `n` or less, exactly `n` when the string is longer, and `s` itself when it fits |
| Common.StorageUrl | app/Models/SeoSetting.php:121-124 | an `asset('storage/' . p)` URL is non-empty and contains `/storage/` |
| Common.ToLower | app/Http/Middleware/TrackVisitors.php:102-137 | the `/i` matching lower-cases a string character by character, keeping its length and leaving no upper-case ASCII letter; other characters are kept |
| Common.ToLowerIdempotent | app/Http/Middleware/TrackVisitors.php:102-137 | lower-casing twice is lower-casing once |
| Common.MatchesCIIgnoresCase | app/Http/Middleware/TrackVisitors.php:102-137 | a case-insensitive token match gives the same answer on the lower-cased subject |
| Common.ContainsTrans | app/Http/Middleware/TrackVisitors.php:60-66 | substring containment is transitive |
| Collections.Insert | app/Models/ProductCategory.php:29-32 | inserting into a list sorted by `order` keeps it sorted and is a permutation of the list plus the new row |
| Collections.SortBy | app/Models/ProductCategory.php:29-32 | `orderBy` yields a sorted permutation of its input |
| Collections.Filter | app/Models/HeroSection.php:26-29 | a `where` keeps exactly the rows that satisfy the condition, in order, as a sub-multiset |
| Collections.FilterCounts | app/Models/HeroSection.php:26-29 | each row survives a `where` exactly as often as it occurs when it satisfies the condition, and never otherwise |
| Collections.FilterAppend | app/Models/HeroSection.php:26-29 | filtering distributes over concatenation, so the kept rows keep their relative order |
| Collections.FilterSame | app/Models/HeroSection.php:26-29 | two conditions that agree on every row select the same rows |
| Collections.FilterSplit | app/Models/Visitor.php:64-68 | a condition that is the disjoint union of two others selects as many rows as both together |
| Collections.FirstWhere | app/Models/HeroSection.php:31-34 | `where(p)->first()`: the first element satisfying the condition with none before it; none exactly when no element does |
| Collections.Distinct | app/Models/Visitor.php:38-41 | `distinct` holds each value of the input exactly once and nothing else |
| Collections.GroupCount | app/Models/Visitor.php:109-116 | `groupBy(...)->count()`: one entry per distinct value, each with its number of occurrences, every value present; the counts add up to the input length |
| Collections.RankByCount | app/Models/Visitor.php:96-104 | `orderByDesc('count')`: one entry per distinct value with its true count, counts non-increasing, every value of the input present |
| Collections.TopByCount | app/Models/Visitor.php:121-130 | `limit(n)` over the ranking: `n` entries, or every distinct value when there are fewer; each with its true count, most frequent first; any value left out occurs no more often than any value kept |
| Collections.PrefixMostFrequent | app/Models/Visitor.php:96-104 | a prefix of a ranking by count holds the most frequent values: a value outside it occurs no more often than any value in it |
| Collections.SumCountsPermutation | app/Models/Visitor.php:109-116 | reordering grouped counts does not change their total |
| Visitors.UniqueVisitors | app/Models/Visitor.php:38-41 | `distinct('ip_address')->count()` never exceeds the total |
| Visitors.DistinctAtMostTotal | app/Models/Visitor.php:30-41 | there are no more distinct IP addresses than visit rows |
| Visitors.OnDay | app/Models/Visitor.php:46-49 | `whereDate('visit_date', today)` selects exactly the rows of that day |
| Visitors.OnDayCounts | app/Models/Visitor.php:46-49 | each row is among the day's rows exactly as often as the table holds it when it is dated that day, and never otherwise |
| Visitors.TodayVisitors | app/Models/Visitor.php:46-49 | today's count is at most the total |
| Visitors.TodayUniqueVisitors | app/Models/Visitor.php:54-59 | today's unique count is at most today's count and at most the all-time unique count |
| Visitors.ThisWeekVisitors | app/Models/Visitor.php:64-68 | the week count (the week being the seven days that hold today) is at most the total and at least today's count |
| Visitors.RangeCount | app/Models/Visitor.php:64-68 | counting the rows of a range of days at once equals adding up the per-day counts |
| Visitors.ThisWeekIsSevenDays | app/Models/Visitor.php:64-68 | the week count is the sum of the daily counts of the week's seven days |
| Visitors.ThisMonthVisitors | app/Models/Visitor.php:73-78 | the month count is at most the total and at least today's count |
| Visitors.DaysWithVisits | app/Models/Visitor.php:83-91 | per-day counts come out in ascending date order, each positive and equal to that day's count |
| Visitors.DaysWithVisitsComplete | app/Models/Visitor.php:83-91 | every day in range with a visit appears in the per-day result |
| Visitors.VisitorsByDay | app/Models/Visitor.php:83-91 | `getVisitorsByDay(n)`: ascending, each entry a positive count of its date, and every visited date since `now()->subDays(n)` present |
| Visitors.TopPages | app/Models/Visitor.php:96-104 | `getTopPages(limit)`: `limit` distinct pages, or every visited page when there are fewer; each with its true visit count, most visited first; a page left out has no more visits than any page listed |
| Visitors.NonNull | app/Models/Visitor.php:109-130 | `whereNotNull` keeps exactly the present values, as many as the rows that have one |
| Visitors.NonNullCounts | app/Models/Visitor.php:109-130 | each value occurs among the non-null values exactly as often as the column holds it |
| Visitors.CountsThroughNonNull | app/Models/Visitor.php:109-130 | counts over the non-null values are counts over the column |
| Visitors.RankThroughNonNull | app/Models/Visitor.php:121-130 | a browser ranked below the kept ones among the non-null values is ranked so over the column |
| Visitors.DeviceBreakdown | app/Models/Visitor.php:109-116 | distinct device types, each with the number of rows naming it, every non-null type present, the counts adding up to the rows with a device type |
| Visitors.BrowserBreakdown | app/Models/Visitor.php:121-130 | five distinct browsers, or every browser seen when there are fewer; each with the number of rows naming it, most frequent first; a browser left out is seen no more often than any listed |
| TrackVisitors.ShouldTrack | app/Http/Middleware/TrackVisitors.php:30-69 | the loop-based check agrees with `Trackable`: GET only, no excluded path prefix, no bot token in the lower-cased agent |
| TrackVisitors.BrowserLabel | app/Http/Middleware/TrackVisitors.php:116-126 | a browser label is one of the seven names the middleware writes |
| TrackVisitors.OsLabel | app/Http/Middleware/TrackVisitors.php:131-140 | an OS label is one of the six names the middleware writes |
| TrackVisitors.MobileBeatsTablet | app/Http/Middleware/TrackVisitors.php:98-111 | an agent with a mobile token is Mobile even if it also has a tablet token |
| TrackVisitors.DesktopIffNoToken | app/Http/Middleware/TrackVisitors.php:98-111 | Desktop exactly when no mobile or tablet token occurs |
| TrackVisitors.ClassificationIgnoresCase | app/Http/Middleware/TrackVisitors.php:98-140 | device, browser and OS classification and the bot test give the same answer for an agent and its lower-cased form |
| TrackVisitors.EdgWins | app/Http/Middleware/TrackVisitors.php:118 | any agent containing "edg" is Edge |
| TrackVisitors.ChromeBeforeOpera | app/Http/Middleware/TrackVisitors.php:118-123 | an agent containing "chrome" is Edge or Chrome and never Opera |
| TrackVisitors.SafariExcludesChrome | app/Http/Middleware/TrackVisitors.php:120 | Safari only when "safari" occurs and "chrome" does not |
| TrackVisitors.LinuxBeforeAndroid | app/Http/Middleware/TrackVisitors.php:131-137 | an Android agent that mentions Linux is reported as Linux |
| TrackVisitors.MacBeforeIos | app/Http/Middleware/TrackVisitors.php:134-137 | an iPhone agent that says "Mac OS" is reported as macOS |
| TrackVisitors.IPhoneAgentNotIOS | app/Http/Middleware/TrackVisitors.php:134-137 | a stock iPhone agent string is never classified as iOS |
| TrackVisitors.AndroidPhoneIsMobile | app/Http/Middleware/TrackVisitors.php:102 | a stock Android phone agent is Mobile |
| TrackVisitors.BuildRecord | app/Http/Middleware/TrackVisitors.php:79-88 | the stored row: agent and referrer truncated prefixes (referrer null when the header is falsy), page `/` + path, classified device, browser and OS, IP and date |
| TrackVisitors.VisitorTable.constructor | app/Models/Visitor.php:30-33 | the table starts with the given rows |
| TrackVisitors.VisitorTable.TrackVisit | app/Http/Middleware/TrackVisitors.php:74-93 | appends exactly the built row, or nothing when the insert fails (the error is swallowed) |
| TrackVisitors.VisitorTable.Handle | app/Http/Middleware/TrackVisitors.php:17-25 | the response is always the next handler's; a row is appended exactly when the request is trackable and the insert succeeds |
| TrackVisitors.NonGetNeverTracked | app/Http/Middleware/TrackVisitors.php:33-35 | non-GET requests are never tracked |
| TrackVisitors.RawPrefixExclusion | app/Http/Middleware/TrackVisitors.php:40-56 | the exclusion is a raw prefix test: `administrator`, `buildings` and `admin/resources` are all skipped |
| TrackVisitors.GooglebotRejected | app/Http/Middleware/TrackVisitors.php:58-66 | a Googlebot agent is not tracked |
| TrackVisitors.MissingAgentTracked | app/Http/Middleware/TrackVisitors.php:58-66 | a GET with no user agent to a page path is tracked |
| VisitorChart.LastCount | app/Filament/Widgets/VisitorChart.php:31-36 | the overlay leaves a day with its last entry's count, or untouched when no entry has that date |
| VisitorChart.ChartData | app/Filament/Widgets/VisitorChart.php:17-50 | fourteen labels and values, oldest first; label `j` formats day `j` of the window and value `j` is the overlaid count of that day |
| VisitorChart.ChartMatchesCounts | app/Filament/Widgets/VisitorChart.php:20-36 | fed with `getVisitorsByDay(14)`, each plotted value is exactly that day's visit count |
| VisitorChart.OutsideWindowIgnored | app/Filament/Widgets/VisitorChart.php:31-36 | entries dated outside the window never change the chart |
| VisitorChart.WindowEntries | app/Filament/Widgets/VisitorChart.php:31-36 | the entries kept all fall in the window |
| DeviceStats.ColorFor | app/Filament/Widgets/VisitorDeviceStats.php:25-35 | `#999` exactly for labels outside the colour table |
| DeviceStats.Slices | app/Filament/Widgets/VisitorDeviceStats.php:21-23 | the chart always has at least one slice |
| DeviceStats.DeviceChart | app/Filament/Widgets/VisitorDeviceStats.php:16-46 | labels and values are those of the breakdown, or the placeholder; colour `i` belongs to label `i` |
| DeviceStats.PlaceholderIffNoDevices | app/Filament/Widgets/VisitorDeviceStats.php:18-23 | the placeholder appears exactly when no visit has a device type; otherwise the slices add up to those visits |
| SiteSettings.IndexOfKey | app/Models/SiteSetting.php:25 | `where('key', k)->first()`: the first row with that key, or none when no row has it |
| SiteSettings.Find | app/Models/SiteSetting.php:25-26 | the row found has the key, and none is found exactly when no row has it |
| SiteSettings.UcWords | app/Models/SiteSetting.php:41 | `ucwords`: a character is upper-cased exactly when it starts the string or follows a word delimiter |
| SiteSettings.DefaultLabelShape | app/Models/SiteSetting.php:41 | the derived label keeps the key's length, has no underscore left, a space where each underscore was, and an upper-cased first character and character after each underscore |
| SiteSettings.DefaultLabelExample | app/Models/SiteSetting.php:41 | the default label of `hours_monday` is `Hours Monday` |
| SiteSettings.Upsert | app/Models/SiteSetting.php:35-43 | `updateOrCreate`: the key now finds the new values (keeping its order), every other key finds what it did, a row is added only for a new key, unique keys stay unique |
| SiteSettings.RemovePreservesFind | app/Models/SiteSetting.php:76-78 | deleting a row leaves every other key's lookup unchanged |
| SiteSettings.GroupRows | app/Models/SiteSetting.php:53-54 | `where('group', g)->orderBy('order')`: a sorted permutation of the group's rows |
| SiteSettings.GetGroup | app/Models/SiteSetting.php:51-57 | `pluck('value', 'key')` over the ordered group rows |
| SiteSettings.GetGroupContents | app/Models/SiteSetting.php:51-57 | every row of the group is plucked, every plucked pair comes from a row of the group, and the order follows `order` |
| SiteSettings.SettingsStore.constructor | app/Models/SiteSetting.php:22-28 | a store starts with the given rows and an empty cache |
| SiteSettings.SettingsStore.Get | app/Models/SiteSetting.php:22-28 | `get` returns a remembered value if any, else the row's value or the default, and remembers it; a stored key always yields its current value |
| SiteSettings.SettingsStore.Set | app/Models/SiteSetting.php:33-46 | `set` upserts the row with the given or default label and forgets that key |
| SiteSettings.SettingsStore.Delete | app/Models/SiteSetting.php:76-78 | deleting a row forgets its key |
| SiteSettings.SettingsStore.ClearCache | app/Models/SiteSetting.php:62-68 | `clearCache` forgets every stored key, and only those |
| SiteSettings.GetTwice | app/Models/SiteSetting.php:22-28 | for a key with no row a non-null first default is remembered forever: a later `get` with another default returns the first |
| SiteSettings.SetThenGet | app/Models/SiteSetting.php:33-46 | after `set`, `get` returns the new value; other keys read the same as before |
| StoreHours.FieldKeysDistinct | app/Filament/Pages/ManageStoreHours.php:114-126 | the eleven fields have distinct keys |
| StoreHours.FieldGroups | app/Filament/Pages/ManageStoreHours.php:114-126 | the first four are saved to group `contact`, the seven hours to `hours` |
| StoreHours.FieldLimits | app/Filament/Pages/ManageStoreHours.php:50-102 | the three location fields accept 255 characters, the phone and the seven hours fields 50 |
| StoreHours.WriteFields | app/Filament/Pages/ManageStoreHours.php:113-126 | one `set` per field in order: every field's row holds its form value, label and group, every other key reads as before, and the written keys are dropped from the cache |
| StoreHours.StoreHoursPage.constructor | app/Filament/Pages/ManageStoreHours.php:25 | the form starts empty |
| StoreHours.ReadFields | app/Filament/Pages/ManageStoreHours.php:27-39 | one `get(key, default)` per field: each answer is the read against the cache as it stood before the first, since the keys are distinct; each key is then cached with its answer and every other key is left as it was |
| StoreHours.StoreHoursPage.Mount | app/Filament/Pages/ManageStoreHours.php:25-40 | each field is filled from `get` with its default; a stored key shows its stored value; each field's key is then cached with the value shown |
| StoreHours.StoreHoursPage.Edit | app/Filament/Pages/ManageStoreHours.php:111 | the form state changes only at the edited field |
| StoreHours.StoreHoursPage.Save | app/Filament/Pages/ManageStoreHours.php:109-132 | `getState()` validation first: when any field is longer than its `maxLength` nothing is written and the cache is kept; otherwise every field's row holds the form value with its label and group, the eleven keys are forgotten; other keys are untouched either way |
| StoreHours.MountThenSave | app/Filament/Pages/ManageStoreHours.php:25-40 | opening and saving unchanged leaves every value as the page showed it whether or not validation passes, and a save that passes stores every field |
| SeoSettings.KeyNameInjective | app/Models/SeoSetting.php:172-218 | no two meta tags share a name |
| SeoSettings.RawMetaTags | app/Models/SeoSetting.php:174-215 | the tag array holds exactly the assigned keys with their assigned values |
| SeoSettings.MetaTags | app/Models/SeoSetting.php:217 | `array_filter` leaves only truthy values |
| SeoSettings.MetaTagsBasic | app/Models/SeoSetting.php:176-182 | description and keywords appear exactly when truthy, with their values |
| SeoSettings.MetaTagsOgText | app/Models/SeoSetting.php:185-190 | og:title and og:description fall back to the meta title and description by `??` and appear when that is truthy |
| SeoSettings.MetaTagsOgOther | app/Models/SeoSetting.php:191-198 | og:image is a storage URL, og:type defaults to `website` only for null, og:site_name appears when truthy, og:url is the app URL |
| SeoSettings.MetaTagsTwitterText | app/Models/SeoSetting.php:202-207 | twitter title and description fall back to the meta fields by `??` |
| SeoSettings.MetaTagsTwitterOther | app/Models/SeoSetting.php:201-215 | twitter:card defaults to `summary_large_image` for null; twitter:image is the twitter image, else the og image; twitter:site when truthy |
| SeoSettings.TwitterIgnoresOg | app/Models/SeoSetting.php:202-207 | the twitter title and description do not depend on the og fields |
| SeoSettings.EmptyOgTitleSuppresses | app/Models/SeoSetting.php:185-187 | an empty og title does not fall back and drops og:title, while a missing twitter title still falls back |
| SeoSettings.TruthyValues | app/Models/SeoSetting.php:154-164 | `array_filter` over the social URLs keeps exactly the truthy ones |
| SeoSettings.SameAs | app/Models/SeoSetting.php:154-164 | `sameAs` is set exactly when some social URL is truthy, and then holds the truthy URLs in order |
| SeoSettings.LocalBusinessFixedFields | app/Models/SeoSetting.php:109-119 | context, type (default `LocalBusiness`), name, description, phone, email and URL |
| SeoSettings.LocalBusinessOptionalFields | app/Models/SeoSetting.php:121-164 | logo and image, address, geo, opening hours, price range and sameAs appear exactly under their source conditions, with their values |
| SeoSettings.JsonLdIgnoresTwitter | app/Models/SeoSetting.php:154-160 | the twitter URL never reaches the JSON-LD |
| SeoSettings.SameAsSkipsEmpty | app/Models/SeoSetting.php:154-164 | with only Instagram and Yelp set, `sameAs` is exactly those two, in that order |
| SeoSettings.FirstActive | app/Models/SeoSetting.php:83 | `where('is_active', true)->first()`: the first active row, none exactly when no row is active |
| SeoSettings.SeoStore.constructor | app/Models/SeoSetting.php:80-85 | the store starts with the given rows and nothing cached |
| SeoSettings.SeoStore.GetActive | app/Models/SeoSetting.php:80-85 | `getActive` returns the first active row and remembers it |
| SeoSettings.SeoStore.ClearCache | app/Models/SeoSetting.php:90-93 | `clearCache` forgets the remembered row |
| SeoSettings.SeoStore.Save | app/Models/SeoSetting.php:95-100 | saving a row replaces or appends it and clears the cache |
| SeoSettings.SeoStore.Delete | app/Models/SeoSetting.php:102-104 | deleting a row removes it and clears the cache |
| SeoSettings.SaveThenRead | app/Models/SeoSetting.php:95-100 | after a save, `getActive` sees the new rows; a newly active row with no active predecessor is returned |
| Sitemap.Terminated | app/Http/Controllers/SitemapController.php:48-60 | joining lines each ended by a newline yields text ending in a newline |
| Sitemap.BuildSitemap | app/Http/Controllers/SitemapController.php:48-60 | the string the loop builds is the sitemap document of the five URLs |
| Sitemap.SitemapShape | app/Http/Controllers/SitemapController.php:15-46 | 33 lines: declaration, `<urlset>`, six lines per URL, `</urlset>`; the five locations, priorities and change frequencies |
| Sitemap.SitemapFrame | app/Http/Controllers/SitemapController.php:48-60 | the document starts with the declaration and `<urlset>` and ends with `</urlset>` |
| Sitemap.SitemapXmlIsLines | app/Http/Controllers/SitemapController.php:48-60 | the document is its lines joined by newlines |
| Sitemap.RobotsOverride | app/Http/Controllers/SitemapController.php:74-83 | the custom `robots_txt` is served exactly when there is an active row with a truthy value, else the default |
| Sitemap.DefaultRobotsShape | app/Http/Controllers/SitemapController.php:77-82 | the default starts `User-agent: *`, ends in a newline and names the sitemap URL |
| Sitemap.Robots | app/Http/Controllers/SitemapController.php:70-88 | the served text is that of the first active SEO row |
| Home.ActiveOrdered | app/Models/ProductCategory.php:24-32 | `active()->ordered()->get()`: a permutation of the active rows sorted by `order` |
| Home.FirstActiveRow | app/Models/HeroSection.php:31-34 | `getActive()`: the first active row, none exactly when no row is active |
| Home.HoursReadFromKey | routes/web.php:34-42 | each day's hours are read from `hours_<day>` with that day's default |
| Home.SettingsDefaults | routes/web.php:28-44 | with no rows and no cache, every setting is its default and the footer tagline is null |
| Home.HomeAgreesWithStoreHours | routes/web.php:28-42 | the home page reads each store-hours field with the same key and default as the admin page |
| Home.SeoPropsFallbacks | routes/web.php:48-77 | og title and description fall back by `??`; og image is a storage URL when truthy; canonical URL falls back to the app URL; social links pass through |
| Home.EmptyOgTitleProp | routes/web.php:52 | an empty og title is passed on as empty, while the meta tags drop it |
| Home.HomePage | routes/web.php:16-85 | the page props: the first active SEO row's props or null, first active hero and about, active ordered lists, the settings |
| Welcome.FirstMatch | resources/js/pages/welcome.tsx:216-218 | the first entry whose key the argument contains wins; none exactly when no key occurs |
| Welcome.IconForCategory | resources/js/pages/welcome.tsx:200-220 | the loop returns the first matching icon, Star when none matches |
| Welcome.FirstMatchAt | resources/js/pages/welcome.tsx:216-218 | the entry at the first matching position decides the icon |
| Welcome.LacesAndTrimsIcon | resources/js/pages/welcome.tsx:173-218 | a category titled "Laces & Trims" with no icon gets Sparkles |
| Welcome.NoMatchIsStar | resources/js/pages/welcome.tsx:219 | no match gives Star |
| Welcome.ImageUrl | resources/js/pages/welcome.tsx:177 | an image URL exists exactly for a truthy image and is `/storage/` + the image |
| Welcome.Products | resources/js/pages/welcome.tsx:171-179 | the categories mapped in order, or the defaults when there are none; never empty |
| Welcome.Testimonials | resources/js/pages/welcome.tsx:181-187 | the testimonials mapped in order, or the defaults; never empty |
| Welcome.GalleryItems | resources/js/pages/welcome.tsx:189-197 | the gallery mapped in order, or the defaults |
| Welcome.GalleryDefaultHue | resources/js/pages/welcome.tsx:194 | missing gradient stops default to pink-200, rose-100 and white |
| Welcome.TallTiles | resources/js/pages/welcome.tsx:730 | tiles 0 and 4 are always tall; any other is tall exactly when large or featured |
| Welcome.NextTestimonial | resources/js/pages/welcome.tsx:232 | `(prev + 1) % length`: the next index, wrapping to 0, always in range |
| Welcome.RotationCycles | resources/js/pages/welcome.tsx:230-235 | the rotation visits each testimonial in order during the first round and repeats with period equal to their number |
| Welcome.Periodic | resources/js/pages/welcome.tsx:232 | after `n` more ticks the index is the same |
| Welcome.Digits | resources/js/pages/welcome.tsx:366 | `replace(/[^0-9]/g, '')` leaves only digits and keeps an all-digit string unchanged |
| Welcome.DigitsKept | resources/js/pages/welcome.tsx:366 | every digit keeps its multiplicity; every other character is removed |
| Welcome.DigitsAppend | resources/js/pages/welcome.tsx:366 | stripping distributes over concatenation |
| Welcome.TelDigitsOnly | resources/js/pages/welcome.tsx:366 | the `tel:` link is `tel:` followed only by digits, and stripping is idempotent |
| Welcome.TodayHours | resources/js/pages/welcome.tsx:274-276 | today's hours, or `Closed` when that day's value is falsy |
| Welcome.TodayHoursFromStore | resources/js/pages/welcome.tsx:274-276 | today's hours are the setting for that weekday read with its default; with no rows, the default |
| Welcome.EmptyOgTitleFallsBack | resources/js/pages/welcome.tsx:293 | the page shows the meta title for an empty og title |
| Welcome.NoSeoFallbacks | resources/js/pages/welcome.tsx:254-297 | with no SEO row, the title and og:title are the default title and og:url is the page address |
| Contact.Apply | app/Models/ContactSubmission.php:39-52 | a transition sets the status to its target and changes nothing else |
| Contact.TransitionsIdempotent | app/Models/ContactSubmission.php:39-52 | a transition applied twice equals one; of two transitions the last wins |
| Contact.Submission.constructor | app/Models/ContactSubmission.php:12-22 | a submission holds the given record |
| Contact.Submission.Perform | app/Models/ContactSubmission.php:39-52 | `markAsRead`, `markAsReplied` and `archive` update the record in place |
| Contact.ScopesAgree | app/Models/ContactSubmission.php:29-37 | `scopeNew` and `scopeUnread` select the same rows |
| Contact.NavigationBadge | app/Filament/Resources/ContactSubmissionResource.php:27-30 | the badge is null exactly when there is no new submission, else their positive count |
| Contact.NavigationBadgeColor | app/Filament/Resources/ContactSubmissionResource.php:32-35 | `danger` exactly when some submission is new, else `gray` |
| Contact.StatusColor | app/Filament/Resources/ContactSubmissionResource.php:98-104 | new is danger, read is warning, replied is success, anything else gray |
| Contact.ActionsFollowWorkflow | app/Filament/Resources/ContactSubmissionResource.php:139-150 | after Mark Read only Mark Replied stays offered; after Mark Replied or Archive neither |
| Contact.ReplyUrl | app/Filament/Resources/ContactSubmissionResource.php:155 | the link is `mailto:<email>?subject=Re: ` followed by the subject, or nothing for a null subject |
| Contact.Bulk | app/Filament/Resources/ContactSubmissionResource.php:163-174 | a bulk action applies the same transition to every selected submission |
| Contact.ViewBeforeFill | app/Filament/Resources/ContactSubmissionResource/Pages/ViewContactSubmission.php:26-34 | viewing marks a new submission read, leaves others alone, and fills the form with the data unchanged |

## Left out

- Laravel's cache does not remember a `null` result of `rememberForever`. The model remembers whatever the first read returned, including a default. For a key with no row this is what `SettingsStore.Get` states. A remembered `null` is not distinguished from a missing entry.
- `substr` counts bytes and the model counts characters. A multi-byte agent or referrer can be cut at a different point.
- `asset()` trims slashes and resolves the application URL. The model writes it as the asset root followed by `/storage/` and the path.
- Date handling is reduced to whole day numbers. `whereDate`, `startOfWeek`, `month` and `year` on timestamps and time zones are left out. The month is a parameter function, and `getVisitorsByDay` takes whether the clock stands at midnight.
- The key order of the meta-tag array is not modelled: the tags are a map from tag to value.
- The `site_settings` migration is not part of this model. A row created by `set` gets order 0 (`NewRowOrder`), the column's usual default.
- StoreHours.StoreHoursPage.Save: the rows after saving are stated through key lookup (`Find`), not through their order in the table.
- Home.HomePage: reads every setting against the cache as it stood when the request began, since the reads do not affect each other's results.
- Home.HomePage: the cache entries that its thirteen `SiteSetting::get` calls fill are not part of its result. The page is a function of the tables and the cache, and the cache after the request is not stated.
- Sitemap.SitemapUrls: the route calls `now()` once per entry, five times in all. The model passes one `now` to all five entries, so a clock tick between two calls is not modelled.
- Visitors.ThisWeekVisitors: the first day of the week (`startOfWeek`) is a parameter, required to lie within the six days before `today`. `endOfWeek` is taken as the sixth day after it.
- StoreHours.StoreHoursPage.Save: only the `maxLength` rules of the form are modelled. Any format check that `tel()` attaches to the phone field is not, and neither are Filament's notifications after a save.
- `PHP_EOL` is written as `"\n"`.
- `htmlspecialchars`, date formatting, `now()`, `config('app.url')`, `window.location.href` and `new Date().getDay()` are parameters.
- JavaScript template interpolation of `null` prints `null`. `undefined` fields are not distinguished from `null`.
- The React rendering (JSX, `useState`, `useEffect`, the interval timer, scrolling, menus) is out of scope, as are Filament forms and notifications. Only the values the page derives are modelled, with the timer as a tick count.
- Concurrency between requests, logging, HTTP responses and headers are left out.
- SeoSettings.LocalBusinessJsonLd: its contract is stated in the lemmas `LocalBusinessFixedFields` and `LocalBusinessOptionalFields` rather than on the function.
- The public contact form controller that creates submissions is not part of this model. Only the model, its admin resource and its view page are.
- The edit page of contact submissions and the remaining Filament resources only configure forms and tables. They are not modelled.
