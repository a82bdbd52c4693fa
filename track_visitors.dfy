/** The visitor-tracking middleware (app/Http/Middleware/TrackVisitors.php):
    which requests are recorded, how a user agent is classified, and the
    row appended to the `visitors` table. */
module TrackVisitors {
  import opened Common
  import opened Visitors

  /** The parts of an HTTP request the middleware reads. `path` is the
      request path without its leading slash, as the framework reports it;
      a missing User-Agent or Referer header is `None`. */
  datatype Request = Request(
    httpMethod: string,
    path: string,
    userAgent: Option<string>,
    referer: Option<string>,
    ip: string)

  const ExcludedPaths: seq<string> :=
    ["admin", "livewire", "api", "_debugbar", "sanctum", "storage", "build", "favicon.ico", "vendor"]

  const BotTokens: seq<string> := ["bot", "crawler", "spider", "slurp", "googlebot", "bingbot"]

  /** The path starts with one of the excluded literals (a raw prefix test). */
  predicate ExcludedPath(path: string)
  {
    exists j :: 0 <= j < |ExcludedPaths| && StartsWith(path, ExcludedPaths[j])
  }

  /** `$request->userAgent() ?? ''`. */
  function AgentOf(req: Request): string
  {
    if req.userAgent.Some? then req.userAgent.value else ""
  }

  /** The lower-cased agent contains one of the bot tokens. */
  predicate IsBot(agent: string)
  {
    ContainsAny(ToLower(agent), BotTokens)
  }

  /** The policy `shouldTrack` implements. */
  predicate Trackable(req: Request)
  {
    req.httpMethod == "GET" && !ExcludedPath(req.path) && !IsBot(AgentOf(req))
  }

  /** `shouldTrack`: the method gate, then the exclusion list, then the bot
      list, each a loop that returns as soon as an entry matches. */
  method ShouldTrack(req: Request) returns (track: bool)
    ensures track == Trackable(req)
  {
    if req.httpMethod != "GET" {
      return false;
    }
    var i := 0;
    while i < |ExcludedPaths|
      invariant 0 <= i <= |ExcludedPaths|
      invariant forall k :: 0 <= k < i ==> !StartsWith(req.path, ExcludedPaths[k])
    {
      if StartsWith(req.path, ExcludedPaths[i]) {
        return false;
      }
      i := i + 1;
    }
    var agent := ToLower(AgentOf(req));
    var j := 0;
    while j < |BotTokens|
      invariant 0 <= j <= |BotTokens|
      invariant forall k :: 0 <= k < j ==> !Contains(agent, BotTokens[k])
    {
      if Contains(agent, BotTokens[j]) {
        return false;
      }
      j := j + 1;
    }
    return true;
  }

  // ---- Device, browser and operating-system classification ----

  datatype Device = Mobile | Tablet | Desktop

  datatype Browser = Edge | Chrome | Safari | Firefox | IE | Opera | OtherBrowser

  datatype OperatingSystem = Windows | MacOS | Linux | Android | IOS | OtherOS

  const MobileTokens: seq<string> := ["mobile", "android", "iphone", "ipod", "blackberry", "windows phone"]
  const TabletTokens: seq<string> := ["tablet", "ipad", "kindle", "silk"]

  /** `getDeviceType`: mobile tokens are tried before tablet tokens. */
  function DeviceType(agent: string): Device
  {
    if MatchesCI(agent, MobileTokens) then Mobile
    else if MatchesCI(agent, TabletTokens) then Tablet
    else Desktop
  }

  /** `getBrowser`: the first pattern of the cascade that matches wins. */
  function BrowserOf(agent: string): Browser
  {
    if MatchesCI(agent, ["edge", "edg"]) then Edge
    else if MatchesCI(agent, ["chrome"]) then Chrome
    else if MatchesCI(agent, ["safari"]) && !MatchesCI(agent, ["chrome"]) then Safari
    else if MatchesCI(agent, ["firefox"]) then Firefox
    else if MatchesCI(agent, ["msie", "trident"]) then IE
    else if MatchesCI(agent, ["opera", "opr"]) then Opera
    else OtherBrowser
  }

  /** `getOS`: Windows, then macOS, Linux, Android and iOS. */
  function OsOf(agent: string): OperatingSystem
  {
    if MatchesCI(agent, ["windows"]) then Windows
    else if MatchesCI(agent, ["macintosh", "mac os"]) then MacOS
    else if MatchesCI(agent, ["linux"]) then Linux
    else if MatchesCI(agent, ["android"]) then Android
    else if MatchesCI(agent, ["iphone", "ipad", "ipod"]) then IOS
    else OtherOS
  }

  function DeviceLabel(d: Device): string
  {
    match d
    case Mobile => "Mobile"
    case Tablet => "Tablet"
    case Desktop => "Desktop"
  }

  function BrowserLabel(b: Browser): (s: string)
    ensures s in {"Edge", "Chrome", "Safari", "Firefox", "IE", "Opera", "Other"}
  {
    match b
    case Edge => "Edge"
    case Chrome => "Chrome"
    case Safari => "Safari"
    case Firefox => "Firefox"
    case IE => "IE"
    case Opera => "Opera"
    case OtherBrowser => "Other"
  }

  function OsLabel(o: OperatingSystem): (s: string)
    ensures s in {"Windows", "macOS", "Linux", "Android", "iOS", "Other"}
  {
    match o
    case Windows => "Windows"
    case MacOS => "macOS"
    case Linux => "Linux"
    case Android => "Android"
    case IOS => "iOS"
    case OtherOS => "Other"
  }

  /** The `/i` classification and the bot test ignore the letter case of
      the agent: upper-, lower- or mixed-case spellings classify alike. */
  lemma ClassificationIgnoresCase(agent: string)
    ensures DeviceType(ToLower(agent)) == DeviceType(agent)
    ensures BrowserOf(ToLower(agent)) == BrowserOf(agent)
    ensures OsOf(ToLower(agent)) == OsOf(agent)
    ensures IsBot(ToLower(agent)) == IsBot(agent)
  {
    ToLowerIdempotent(agent);
  }

  /** One token of a lower-case alternation found in the lower-cased
      agent makes the alternation match. */
  lemma MatchesToken(agent: string, ts: seq<string>, j: nat)
    requires j < |ts| && Contains(ToLower(agent), ts[j])
    ensures MatchesCI(agent, ts)
  {
  }

  /** An agent with `android` or `mobile` in it is Mobile, whatever tablet
      tokens (`ipad`, `kindle`, `silk`) it also holds. */
  lemma MobileBeatsTablet(agent: string)
    requires Contains(ToLower(agent), "android") || Contains(ToLower(agent), "mobile")
    ensures DeviceType(agent) == Mobile
  {
    if Contains(ToLower(agent), "android") {
      MatchesToken(agent, MobileTokens, 1);
    } else {
      MatchesToken(agent, MobileTokens, 0);
    }
  }

  /** Desktop is the answer exactly when no mobile and no tablet token
      occurs. */
  lemma DesktopIffNoToken(agent: string)
    ensures DeviceType(agent) == Desktop <==>
      forall t :: t in MobileTokens + TabletTokens ==> !Contains(ToLower(agent), t)
  {
    if DeviceType(agent) != Desktop {
      if MatchesCI(agent, MobileTokens) {
        var j :| 0 <= j < |MobileTokens| && Contains(ToLower(agent), MobileTokens[j]);
        assert MobileTokens[j] in MobileTokens + TabletTokens;
      } else {
        var j :| 0 <= j < |TabletTokens| && Contains(ToLower(agent), TabletTokens[j]);
        assert TabletTokens[j] in MobileTokens + TabletTokens;
      }
    }
  }

  /** Any agent containing `edg` (so also `edge`) is Edge. */
  lemma EdgWins(agent: string)
    requires Contains(ToLower(agent), "edg")
    ensures BrowserOf(agent) == Edge
  {
    MatchesToken(agent, ["edge", "edg"], 1);
  }

  /** Without `edg`, any agent containing `chrome` is Chrome; in particular
      an agent with both `chrome` and `opr` is never Opera. */
  lemma ChromeBeforeOpera(agent: string)
    requires Contains(ToLower(agent), "chrome")
    ensures BrowserOf(agent) in {Edge, Chrome}
    ensures BrowserOf(agent) != Opera
  {
    MatchesToken(agent, ["chrome"], 0);
  }

  /** Safari is only ever reported for agents without `chrome`. */
  lemma SafariExcludesChrome(agent: string)
    ensures BrowserOf(agent) == Safari ==>
      !Contains(ToLower(agent), "chrome") && Contains(ToLower(agent), "safari")
  {
    if BrowserOf(agent) == Safari {
      if Contains(ToLower(agent), "chrome") {
        MatchesToken(agent, ["chrome"], 0);
      }
      var j :| 0 <= j < 1 && Contains(ToLower(agent), ["safari"][j]);
    }
  }

  /** Linux is tried before Android: an agent naming both (and neither
      Windows nor a Mac) is Linux. */
  lemma LinuxBeforeAndroid(agent: string)
    requires Contains(ToLower(agent), "linux") && Contains(ToLower(agent), "android")
    requires !MatchesCI(agent, ["windows"]) && !MatchesCI(agent, ["macintosh", "mac os"])
    ensures OsOf(agent) == Linux
  {
    MatchesToken(agent, ["linux"], 0);
  }

  /** macOS is tried before iOS: an agent with `iphone` and `mac os` (and
      no `windows`) is macOS. */
  lemma MacBeforeIos(agent: string)
    requires Contains(ToLower(agent), "iphone") && Contains(ToLower(agent), "mac os")
    requires !MatchesCI(agent, ["windows"])
    ensures OsOf(agent) == MacOS
  {
    MatchesToken(agent, ["macintosh", "mac os"], 1);
  }

  // ---- Recording a visit ----

  /** The row `trackVisit` creates for a request on day `today`. */
  function BuildRecord(req: Request, today: Date): (v: VisitRecord)
    ensures |v.userAgent| <= 255 && |v.userAgent| <= |AgentOf(req)| && v.userAgent == AgentOf(req)[..|v.userAgent|]
    ensures |AgentOf(req)| <= 255 ==> v.userAgent == AgentOf(req)
    ensures v.referrer.None? <==> !Truthy(req.referer)
    ensures v.referrer.Some? ==>
      (req.referer.Some? && |v.referrer.value| <= 255 && |v.referrer.value| <= |req.referer.value| &&
       v.referrer.value == req.referer.value[..|v.referrer.value|])
    ensures v.pageVisited == "/" + req.path
    ensures v.deviceType == Some(DeviceLabel(DeviceType(AgentOf(req))))
    ensures v.browser == Some(BrowserLabel(BrowserOf(AgentOf(req))))
    ensures v.os == Some(OsLabel(OsOf(AgentOf(req))))
    ensures v.ip == req.ip && v.visitDate == today
  {
    var agent := AgentOf(req);
    VisitRecord(
      req.ip,
      Truncate(agent, 255),
      "/" + req.path,
      if Truthy(req.referer) then Some(Truncate(req.referer.value, 255)) else None,
      Some(DeviceLabel(DeviceType(agent))),
      Some(BrowserLabel(BrowserOf(agent))),
      Some(OsLabel(OsOf(agent))),
      today)
  }

  /** The `visitors` table as the middleware sees it: it only appends. */
  class VisitorTable {
    var rows: seq<VisitRecord>

    constructor (initial: seq<VisitRecord>)
      ensures rows == initial
    {
      rows := initial;
    }

    /** `trackVisit`: append the record, unless the insert fails
        (`createFails`), in which case the failure is swallowed and the
        table is left as it was. */
    method TrackVisit(req: Request, today: Date, createFails: bool)
      modifies this
      ensures rows == if createFails then old(rows) else old(rows) + [BuildRecord(req, today)]
    {
      if !createFails {
        rows := rows + [BuildRecord(req, today)];
      }
    }

    /** `handle`: track when the policy says so, then pass the request on;
        the response is always the next handler's, whatever tracking did. */
    method Handle<R>(req: Request, today: Date, createFails: bool, next: R) returns (response: R)
      modifies this
      ensures response == next
      ensures rows == if Trackable(req) && !createFails then old(rows) + [BuildRecord(req, today)] else old(rows)
    {
      var track := ShouldTrack(req);
      if track {
        TrackVisit(req, today, createFails);
      }
      response := next;
    }
  }

  // ---- The policy on concrete requests ----

  /** A non-GET request is never tracked. */
  lemma NonGetNeverTracked(req: Request)
    requires req.httpMethod != "GET"
    ensures !Trackable(req)
  {
  }

  /** The prefix test also excludes paths that merely begin like an
      excluded one, such as `administrator` and `buildings`. */
  lemma RawPrefixExclusion(agent: Option<string>, referer: Option<string>, ip: string)
    ensures !Trackable(Request("GET", "administrator", agent, referer, ip))
    ensures !Trackable(Request("GET", "buildings", agent, referer, ip))
    ensures !Trackable(Request("GET", "admin/resources", agent, referer, ip))
  {
    assert StartsWith("administrator", ExcludedPaths[0]);
    assert StartsWith("buildings", ExcludedPaths[6]);
    assert StartsWith("admin/resources", ExcludedPaths[0]);
  }

  /** An agent naming Googlebot, in any letter case, is rejected. */
  lemma GooglebotRejected(req: Request)
    requires req.userAgent == Some("Mozilla/5.0 (compatible; Googlebot/2.1)")
    ensures !Trackable(req)
  {
    var lower := ToLower(AgentOf(req));
    assert lower[31] == 'b' && lower[32] == 'o' && lower[33] == 't';
    assert lower[31..34] == "bot";
    ContainsAt(lower, "bot", 31);
    assert Contains(lower, BotTokens[0]);
  }

  /** A request without a User-Agent header is tracked when its path
      passes: the agent becomes "" and contains no bot token. */
  lemma MissingAgentTracked(req: Request)
    requires req.httpMethod == "GET" && req.path == "products" && req.userAgent.None?
    ensures Trackable(req)
  {
    assert AgentOf(req) == "";
    forall j | 0 <= j < |BotTokens|
      ensures !Contains(ToLower(""), BotTokens[j])
    {
    }
    forall j | 0 <= j < |ExcludedPaths|
      ensures !StartsWith("products", ExcludedPaths[j])
    {
      FirstCharDiffers("products", ExcludedPaths[j]);
    }
  }

  /** A phone agent naming Android and Mobile is Mobile. */
  lemma AndroidPhoneIsMobile()
    ensures DeviceType("Mozilla/5.0 (Linux; Android 10; Mobile)") == Mobile
  {
    var lower := ToLower("Mozilla/5.0 (Linux; Android 10; Mobile)");
    assert lower[20..27] == "android";
    ContainsAt(lower, "android", 20);
    MobileBeatsTablet("Mozilla/5.0 (Linux; Android 10; Mobile)");
  }

  /** A typical iPhone agent says "like Mac OS X", so it is never
      reported as iOS: it is macOS unless it also names Windows. */
  lemma IPhoneAgentNotIOS()
    ensures OsOf("Mozilla/5.0 (iPhone; CPU iPhone OS 17_0 like Mac OS X)") != IOS
  {
    var agent := "Mozilla/5.0 (iPhone; CPU iPhone OS 17_0 like Mac OS X)";
    var lower := ToLower(agent);
    assert lower[45] == 'm' && lower[46] == 'a' && lower[47] == 'c';
    assert lower[48] == ' ' && lower[49] == 'o' && lower[50] == 's';
    assert lower[45..51] == "mac os";
    ContainsAt(lower, "mac os", 45);
    MatchesToken(agent, ["macintosh", "mac os"], 1);
  }

  /** A prefix whose first character differs is not a prefix. */
  lemma FirstCharDiffers(s: string, p: string)
    requires |s| > 0 && |p| > 0 && p[0] != s[0]
    ensures !StartsWith(s, p)
  {
  }
}
