/**
 * WebDriverFactory: the capability descriptor, the dashboard test name, and the one-slot
 * registry of the calling thread's current remote driver, with status reporting and teardown.
 */
module DriverFactory {
  import opened Wrappers
  import opened Browser
  import opened Configuration

  /** The diagnostic-capture options the vendor bag switches on. */
  const DIAGNOSTICS := ["visual", "video", "network", "console", "terminal"]
  const IDLE_TIMEOUT := 300
  const PLUGIN := "java-cucumber"
  const SELENIUM_VERSION := "4.15.0"
  /** getSessionId's answer when no remote driver is registered. */
  const NO_SESSION := "N/A"
  const STATUS_PREFIX := "lambda-status="
  const EXCEPTIONS_SCRIPT := "lambda-exceptions"

  /** The session settings createRemoteDriver applies right after the grid opens the session. */
  const SESSION_SETUP := [SetImplicitWait(IMPLICIT_WAIT), SetPageLoadTimeout(PAGE_LOAD_TIMEOUT), Maximize]

  /**
   * The vendor options bag ("LT:Options"): the run name and build label, the protocol flag,
   * every diagnostic capture switched on, the idle timeout and the resolution.
   */
  function VendorOptions(testName: string, buildName: string): (o: map<string, CapValue>)
    ensures "name" in o && o["name"] == Str(testName)
    ensures "build" in o && o["build"] == Str(buildName)
    ensures "w3c" in o && o["w3c"] == Flag(true)
    ensures forall k :: k in DIAGNOSTICS ==> k in o && o[k] == Flag(true)
    ensures "idleTimeout" in o && o["idleTimeout"] == Num(300)
    ensures "resolution" in o && o["resolution"] == Str("1920x1080")
    ensures "project" in o && o["project"] == Str("ATDD Guide Project")
    ensures "plugin" in o && o["plugin"] == Str("java-cucumber")
    ensures "selenium_version" in o && o["selenium_version"] == Str("4.15.0")
    ensures o.Keys == {"w3c", "plugin", "build", "name", "project", "selenium_version", "visual", "video",
                       "network", "console", "terminal", "idleTimeout", "resolution"}
  {
    map[
      "w3c" := Flag(true),
      "plugin" := Str(PLUGIN),
      "build" := Str(buildName),
      "name" := Str(testName),
      "project" := Str(PROJECT_NAME),
      "selenium_version" := Str(SELENIUM_VERSION),
      "visual" := Flag(true),
      "video" := Flag(true),
      "network" := Flag(true),
      "console" := Flag(true),
      "terminal" := Flag(true),
      "idleTimeout" := Num(IDLE_TIMEOUT),
      "resolution" := Str(RESOLUTION)
    ]
  }

  /**
   * The capability descriptor: the W3C browser, version and platform fields as given, and the
   * vendor options bag.
   */
  function BuildCapabilities(testName: string, browser: string, browserVersion: string, platform: string,
                             buildName: string): (caps: Capabilities)
    ensures caps.Keys == {"browserName", "browserVersion", "platformName", "LT:Options"}
    ensures caps["browserName"] == Str(browser)
    ensures caps["browserVersion"] == Str(browserVersion)
    ensures caps["platformName"] == Str(platform)
    ensures caps["LT:Options"] == Options(VendorOptions(testName, buildName))
  {
    // The four keys have four different lengths, so no later entry overwrites an earlier one.
    assert |"browserName"| == 11 && |"browserVersion"| == 14 && |"platformName"| == 12 && |"LT:Options"| == 10;
    map[
      "browserName" := Str(browser),
      "browserVersion" := Str(browserVersion),
      "platformName" := Str(platform),
      "LT:Options" := Options(VendorOptions(testName, buildName))
    ]
  }

  /**
   * The dashboard name createNamedRemoteDriver composes: Java string concatenation renders a null
   * feature or scenario as "null"; tags are appended only when non-null and non-empty.
   */
  function NamedTestName(feature: Option<string>, scenario: Option<string>, tags: Option<string>): (name: string)
    ensures tags.Some? && tags.value != "" ==> name == Show(feature) + " | " + Show(scenario) + " " + tags.value
    ensures tags == None || tags == Some("") ==> name == Show(feature) + " | " + Show(scenario)
  {
    var base := Show(feature) + " | " + Show(scenario);
    if tags.Some? && tags.value != "" then base + " " + tags.value else base
  }

  /** The named test name always begins with the feature, the separator and the scenario. */
  lemma NamedTestNameStartsWithScenario(feature: Option<string>, scenario: Option<string>,
                                                           tags: Option<string>)
    ensures var base := Show(feature) + " | " + Show(scenario);
      |NamedTestName(feature, scenario, tags)| >= |base| && NamedTestName(feature, scenario, tags)[..|base|] == base
  {
    var base := Show(feature) + " | " + Show(scenario);
    if tags.Some? && tags.value != "" {
      assert NamedTestName(feature, scenario, tags) == base + (" " + tags.value);
    }
  }

  /**
   * The status scripts updateTestStatus issues, in order: the status token always, then the
   * reason only for a failed status with a non-null reason, and only if the first call returned.
   */
  function StatusScripts(status: string, reason: Option<string>, firstReturns: bool): (cmds: seq<Command>)
    ensures 1 <= |cmds| <= 2 && cmds[0] == Script(STATUS_PREFIX + status, [])
    ensures |cmds| == 2 <==> firstReturns && reason.Some? && status == FAILED
    ensures |cmds| == 2 ==> cmds[1] == Script(EXCEPTIONS_SCRIPT, [Text(reason.value)])
  {
    [Script(STATUS_PREFIX + status, [])]
      + if firstReturns && reason.Some? && status == FAILED then [Script(EXCEPTIONS_SCRIPT, [Text(reason.value)])] else []
  }

  /** A passing outcome never reports a reason. */
  lemma PassedReportsStatusOnly(reason: Option<string>, firstReturns: bool)
    ensures StatusScripts(PASSED, reason, firstReturns) == [Script(STATUS_PREFIX + PASSED, [])]
  {
  }

  /** How the grid answers a session request: whether it opens one, and the session it opens. */
  datatype Endpoint = Endpoint(
    accepts: bool,
    sessionId: string,
    start: Page,
    react: (Page, Command) -> Page,
    quitSucceeds: bool)

  /** One `new RemoteWebDriver(url, capabilities)` call sent to the grid. */
  datatype SessionRequest = SessionRequest(gridUrl: string, capabilities: Capabilities)

  /** Why driver creation raised. */
  datatype CreateError =
    | ConfigurationError(cause: ConfigError)   // getGridUrl raised before any request
    | SessionNotCreated                        // the grid refused or could not be reached

  /** The calling thread's slot of the driver ThreadLocal, and the requests sent to the grid. */
  class Registry {
    var current: Driver?
    var requests: seq<SessionRequest>

    constructor ()
      ensures current == null && requests == []
    {
      current := null;
      requests := [];
    }

    /**
     * createRemoteDriver: with invalid credentials it raises before anything is sent and the slot
     * is untouched; otherwise it sends one request, and only an opened session is configured,
     * registered and returned.
     */
    method CreateRemoteDriver(settings: Settings, buildName: string, testName: string, browser: string,
                              browserVersion: string, platform: string, grid: Endpoint)
      returns (r: Result<Driver, CreateError>)
      modifies this
      ensures var caps := BuildCapabilities(testName, browser, browserVersion, platform, buildName);
        match GetGridUrl(settings)
        case Failure(e) =>
          r == Failure(ConfigurationError(e)) && current == old(current) && requests == old(requests)
        case Success(url) =>
          && requests == old(requests) + [SessionRequest(url, caps)]
          && (r.Success? <==> grid.accepts)
          && (r.Failure? ==> r.error == SessionNotCreated && current == old(current))
          && (r.Success? ==>
                && fresh(r.value) && current == r.value
                && r.value.sessionId == grid.sessionId && r.value.capabilities == caps
                && r.value.react == grid.react && r.value.quitSucceeds == grid.quitSucceeds
                && r.value.Advanced([], grid.start, SESSION_SETUP))
    {
      var caps := BuildCapabilities(testName, browser, browserVersion, platform, buildName);
      var url := GetGridUrl(settings);
      if url.Failure? {
        return Failure(ConfigurationError(url.error));
      }
      r := OpenSession(url.value, caps, grid);
    }

    /**
     * The session half of createRemoteDriver: one request to the grid; only an opened session gets
     * the timeouts and the maximised window and is registered in the slot.
     */
    method OpenSession(gridUrl: string, caps: Capabilities, grid: Endpoint) returns (r: Result<Driver, CreateError>)
      modifies this
      ensures requests == old(requests) + [SessionRequest(gridUrl, caps)]
      ensures r.Success? <==> grid.accepts
      ensures r.Failure? ==> r.error == SessionNotCreated && current == old(current)
      ensures r.Success? ==>
        && fresh(r.value) && current == r.value
        && r.value.sessionId == grid.sessionId && r.value.capabilities == caps
        && r.value.react == grid.react && r.value.quitSucceeds == grid.quitSucceeds
        && r.value.Advanced([], grid.start, SESSION_SETUP)
    {
      requests := requests + [SessionRequest(gridUrl, caps)];
      if !grid.accepts {
        return Failure(SessionNotCreated);
      }
      var d := new Driver(grid.sessionId, caps, grid.start, grid.react, grid.quitSucceeds);
      var _ := d.Issue(SetImplicitWait(IMPLICIT_WAIT));
      var _ := d.Issue(SetPageLoadTimeout(PAGE_LOAD_TIMEOUT));
      var _ := d.Issue(Maximize);
      ReplayAppend(grid.react, grid.start, [SetImplicitWait(IMPLICIT_WAIT)], [SetPageLoadTimeout(PAGE_LOAD_TIMEOUT)]);
      ReplayAppend(grid.react, grid.start, [SetImplicitWait(IMPLICIT_WAIT), SetPageLoadTimeout(PAGE_LOAD_TIMEOUT)], [Maximize]);
      current := d;
      r := Success(d);
    }

    /** createDefaultRemoteDriver: chrome, latest, Windows 10. */
    method CreateDefaultRemoteDriver(settings: Settings, buildName: string, testName: string, grid: Endpoint)
      returns (r: Result<Driver, CreateError>)
      modifies this
      ensures r.Success? <==> !IsConfigurationInvalid(settings) && grid.accepts
      ensures r.Success? ==>
        fresh(r.value) && current == r.value
        && r.value.capabilities == BuildCapabilities(testName, "chrome", "latest", "Windows 10", buildName)
        && r.value.sessionId == grid.sessionId && r.value.Advanced([], grid.start, SESSION_SETUP)
      ensures r.Failure? ==> current == old(current)
      ensures IsConfigurationInvalid(settings) ==> requests == old(requests)
      ensures !IsConfigurationInvalid(settings) ==>
        requests == old(requests) + [SessionRequest(GetGridUrl(settings).value,
                                                    BuildCapabilities(testName, CHROME, LATEST, WINDOWS_10, buildName))]
    {
      r := CreateRemoteDriver(settings, buildName, testName, CHROME, LATEST, WINDOWS_10, grid);
    }

    /** createNamedRemoteDriver: the default driver under the composed dashboard name. */
    method CreateNamedRemoteDriver(settings: Settings, buildName: string, feature: Option<string>, scenario: Option<string>,
                                   tags: Option<string>, grid: Endpoint)
      returns (r: Result<Driver, CreateError>)
      modifies this
      ensures r.Success? <==> !IsConfigurationInvalid(settings) && grid.accepts
      ensures r.Success? ==>
        fresh(r.value) && current == r.value
        && r.value.capabilities == BuildCapabilities(NamedTestName(feature, scenario, tags), CHROME, LATEST, WINDOWS_10, buildName)
        && r.value.capabilities["LT:Options"].opts["name"] == Str(NamedTestName(feature, scenario, tags))
        && r.value.sessionId == grid.sessionId && r.value.Advanced([], grid.start, SESSION_SETUP)
      ensures r.Failure? ==> current == old(current)
      ensures IsConfigurationInvalid(settings) ==> requests == old(requests)
      ensures !IsConfigurationInvalid(settings) ==>
        requests == old(requests) + [SessionRequest(GetGridUrl(settings).value,
          BuildCapabilities(NamedTestName(feature, scenario, tags), CHROME, LATEST, WINDOWS_10, buildName))]
    {
      r := CreateDefaultRemoteDriver(settings, buildName, NamedTestName(feature, scenario, tags), grid);
    }

    /** getCurrentDriver. */
    function GetCurrentDriver(): (d: Driver?)
      reads this
      ensures d == current
    {
      current
    }

    /** hasActiveDriver: the slot holds a driver. */
    function HasActiveDriver(): (active: bool)
      reads this
      ensures active <==> GetCurrentDriver() != null
    {
      current != null
    }

    /** getSessionId: the registered session's identifier, or "N/A" when the slot is empty. */
    function GetSessionId(): (id: string)
      reads this
      ensures !HasActiveDriver() ==> id == "N/A"
      ensures HasActiveDriver() ==> id == GetCurrentDriver().sessionId
    {
      if current == null then NO_SESSION else current.sessionId
    }

    /**
     * updateTestStatus: with a registered driver it issues the status scripts and swallows any
     * failure; with an empty slot it does nothing.
     */
    method UpdateTestStatus(status: string, reason: Option<string>)
      modifies current
      ensures current != null ==>
        current.Advanced(old(current.log), old(current.page), StatusScripts(status, reason, old(current.page).scriptsRun))
    {
      var d := current;
      if d != null {
        var first := d.Issue(Script(STATUS_PREFIX + status, []));
        if first && reason.Some? && status == FAILED {
          var _ := d.Issue(Script(EXCEPTIONS_SCRIPT, [Text(reason.value)]));
          ReplayAppend(d.react, old(d.page), [Script(STATUS_PREFIX + status, [])], [Script(EXCEPTIONS_SCRIPT, [Text(reason.value)])]);
        } else {
          assert StatusScripts(status, reason, old(d.page).scriptsRun) == [Script(STATUS_PREFIX + status, [])];
        }
      }
    }

    /** markTestPassed: one status script and no reason. */
    method MarkTestPassed()
      modifies current
      ensures current != null ==>
        current.Advanced(old(current.log), old(current.page), [Script(STATUS_PREFIX + PASSED, [])])
    {
      UpdateTestStatus(PASSED, None);
      if current != null {
        PassedReportsStatusOnly(None, old(current.page).scriptsRun);
      }
    }

    /** markTestFailed: the failed status, then the reason if the first call returned and the reason is non-null. */
    method MarkTestFailed(reason: Option<string>)
      modifies current
      ensures current != null ==>
        current.Advanced(old(current.log), old(current.page), StatusScripts(FAILED, reason, old(current.page).scriptsRun))
    {
      UpdateTestStatus(FAILED, reason);
    }

    /**
     * quitDriver: a no-op on an empty slot; otherwise the driver is sent quit and the slot is
     * empty afterwards whether or not quit raised.
     */
    method QuitDriver()
      modifies this, current
      ensures current == null && requests == old(requests)
      ensures old(current) != null ==> old(current).Advanced(old(current.log), old(current.page), [Quit])
    {
      var d := current;
      if d != null {
        var _ := d.Issue(Quit);   // a failure of quit is logged and swallowed
        current := null;          // the finally block
      }
    }
  }
}
