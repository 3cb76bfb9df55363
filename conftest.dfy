/**
 * Driver provisioning of tests/conftest.py: which browser to launch, the
 * launch options, and the fallback from the automatic driver manager to a
 * driver binary placed by hand in the drivers directory. Every call into
 * Selenium (the browser constructors, `maximize_window`) and the file-system
 * test are parameters: `Environment` says how each of them turns out.
 */
module Provisioning {
  import opened Wrappers
  import opened Text
  import opened Locators

  /** The browsers the constructors know. */
  datatype BrowserKind = Chrome | Firefox | Edge

  /** `_MANUAL_DRIVER_NAMES`: the driver binary expected for each browser. */
  const ManualDriverNames: map<string, string> :=
    map["chrome" := "chromedriver", "firefox" := "geckodriver", "edge" := "msedgedriver"]

  /** The `if browser_name == ...` chain shared by both constructors. */
  function ParseBrowser(name: string): (r: Option<BrowserKind>)
    ensures r.Some? <==> name in ManualDriverNames
    ensures r == Some(Chrome) <==> name == "chrome"
    ensures r == Some(Firefox) <==> name == "firefox"
    ensures r == Some(Edge) <==> name == "edge"
  {
    if name == "chrome" then Some(Chrome)
    else if name == "firefox" then Some(Firefox)
    else if name == "edge" then Some(Edge)
    else None
  }

  /**
   * `_get_browser_name`: a non-empty `--browser-name` wins; otherwise the
   * registry's `[browser] default_browser`; when reading it raises, "chrome".
   * Whatever is chosen is lower-cased.
   */
  function GetBrowserName(cliBrowser: Option<string>, config: Store): (name: string)
    ensures cliBrowser.Some? && cliBrowser.value != "" ==> name == Lower(cliBrowser.value)
    ensures (cliBrowser.None? || cliBrowser.value == "") && ReadConfig(config, "browser", "default_browser").Success? ==>
              name == Lower(ReadConfig(config, "browser", "default_browser").value)
    ensures (cliBrowser.None? || cliBrowser.value == "") && ReadConfig(config, "browser", "default_browser").Failure? ==>
              name == "chrome"
    ensures IsLowerCase(name)
  {
    if cliBrowser.Some? && cliBrowser.value != "" then
      LowerIsLowerCase(cliBrowser.value);
      Lower(cliBrowser.value)
    else
      match ReadConfig(config, "browser", "default_browser")
      case Success(value) =>
        LowerIsLowerCase(value);
        Lower(value)
      case Failure(_) => "chrome"
  }

  /** `os.path.join(DRIVERS_DIR, binary)`. */
  function DriverPath(driversDir: string, binary: string): string {
    driversDir + "/" + binary
  }

  /** The binary name shown in the final error: the table's entry, or "?" for an unknown browser. */
  function ExpectedBinary(name: string): string {
    if name in ManualDriverNames then ManualDriverNames[name] else "?"
  }

  /**
   * `_find_manual_driver`: the path of the browser's binary in the drivers
   * directory, when the browser is in the table and that file exists.
   */
  function FindManualDriver(name: string, driversDir: string, files: set<string>): (r: Option<string>)
    ensures name !in ManualDriverNames ==> r.None?
    ensures r.Some? <==> name in ManualDriverNames && DriverPath(driversDir, ManualDriverNames[name]) in files
    ensures r.Some? ==> r.value == DriverPath(driversDir, ManualDriverNames[name]) && r.value in files
  {
    if name !in ManualDriverNames then None
    else
      var path := DriverPath(driversDir, ManualDriverNames[name]);
      if path in files then Some(path) else None
  }

  /**
   * The arguments `_create_driver_auto` adds to the browser's options: none
   * with a window; headless mode and a 1920 by 1080 window otherwise.
   */
  function HeadlessArguments(kind: BrowserKind, headless: bool): (r: seq<string>)
    ensures r == [] <==> !headless
    ensures headless ==> r[0] in {"--headless", "--headless=new"}
    ensures headless && kind == Firefox ==> "--width=1920" in r && "--height=1080" in r
    ensures headless && kind != Firefox ==> "--window-size=1920,1080" in r && "--no-sandbox" in r && "--disable-gpu" in r
  {
    if !headless then []
    else match kind
      case Chrome | Edge =>
        ["--headless=new", "--no-sandbox", "--disable-dev-shm-usage", "--disable-gpu", "--window-size=1920,1080"]
      case Firefox => ["--headless", "--width=1920", "--height=1080"]
  }

  /** The arguments `_create_driver_with_manual_path` adds: its own copy of the same blocks, per browser. */
  function ManualArguments(kind: BrowserKind, headless: bool): seq<string> {
    match kind
    case Chrome =>
      if headless then ["--headless=new", "--no-sandbox", "--disable-dev-shm-usage", "--disable-gpu", "--window-size=1920,1080"]
      else []
    case Firefox =>
      if headless then ["--headless", "--width=1920", "--height=1080"] else []
    case Edge =>
      if headless then ["--headless=new", "--no-sandbox", "--disable-dev-shm-usage", "--disable-gpu", "--window-size=1920,1080"]
      else []
  }

  /** The two copied option blocks agree for every browser and headless flag. */
  lemma {:induction false} ManualArgumentsMatchAuto(kind: BrowserKind, headless: bool)
    ensures ManualArguments(kind, headless) == HeadlessArguments(kind, headless)
  {
    match kind
    case Chrome =>
    case Firefox =>
    case Edge =>
  }

  /**
   * Headless Chrome and Edge get the same five arguments, headless Firefox
   * three, and a browser with a window none; every headless list asks for a
   * 1920 by 1080 window.
   */
  lemma HeadlessArgumentsShape(kind: BrowserKind, headless: bool)
    ensures HeadlessArguments(Chrome, headless) == HeadlessArguments(Edge, headless)
    ensures |HeadlessArguments(kind, headless)| == (if !headless then 0 else if kind == Firefox then 3 else 5)
  {
  }

  /** What the provisioning reports: the exception it lets escape, as a value. */
  datatype ProvisionError =
    | UnsupportedBrowser(name: string)
    | Raised(message: string)
    | DriverUnavailable(browser: string, expectedPath: string)
  {
    /** The message of the exception. */
    function Message(): string {
      match this
      case UnsupportedBrowser(name) => "Unsupported browser: '" + name + "'. Use chrome, firefox, or edge."
      case Raised(message) => message
      case DriverUnavailable(browser, path) => UnavailableHead + browser + UnavailableMiddle + path + UnavailableTail
    }
  }

  /** The fixed parts of the `RuntimeError` message. */
  const UnavailableHead := "Could not create a '"
  const UnavailableMiddle := "' driver.\n  - Auto driver setup failed (see above).\n  - No manual driver found at: "
  const UnavailableTail := "\nPlace the driver binary in the drivers/ directory and retry."

  /** The `RuntimeError` raised when both tiers fail names the browser and the expected binary path. */
  lemma {:induction false} DriverUnavailableMessageNames(browser: string, path: string)
    ensures Contains(DriverUnavailable(browser, path).Message(), browser)
    ensures Contains(DriverUnavailable(browser, path).Message(), path)
  {
    var m := DriverUnavailable(browser, path).Message();
    var afterBrowser := UnavailableMiddle + path + UnavailableTail;
    assert m == UnavailableHead + browser + afterBrowser;
    OccursBetween(UnavailableHead, browser, afterBrowser);
    var beforePath := UnavailableHead + browser + UnavailableMiddle;
    assert m == beforePath + path + UnavailableTail;
    OccursBetween(beforePath, path, UnavailableTail);
  }

  /** How each call into Selenium and the file system turns out. */
  datatype Environment = Environment(
    driversDir: string,            // DRIVERS_DIR
    files: set<string>,            // the paths `os.path.isfile` accepts
    autoLaunch: Outcome<string>,   // the constructor that lets Selenium find the driver
    autoMaximize: Outcome<string>, // `maximize_window` on that session
    manualLaunch: Outcome<string>, // the constructor bound to the manual binary
    manualMaximize: Outcome<string>)

  /** A launched session as the fixture receives it. */
  datatype SessionInfo = SessionInfo(browser: BrowserKind, arguments: seq<string>, driverPath: Option<string>, maximized: bool)

  /**
   * One constructor call, `_create_driver_auto` (no path) or
   * `_create_driver_with_manual_path`: options for the browser, then the
   * launch, which may raise.
   */
  function Launch(name: string, driverPath: Option<string>, headless: bool, launch: Outcome<string>): (r: Result<SessionInfo, ProvisionError>)
    ensures ParseBrowser(name).None? ==> r == Failure(UnsupportedBrowser(name))
    ensures ParseBrowser(name).Some? ==> (r.Success? <==> launch.Pass?)
    ensures ParseBrowser(name).Some? && launch.Fail? ==> r == Failure(Raised(launch.error))
    ensures r.Success? ==> r.value == SessionInfo(ParseBrowser(name).value, HeadlessArguments(ParseBrowser(name).value, headless),
                                                  driverPath, false)
  {
    match ParseBrowser(name)
    case None => Failure(UnsupportedBrowser(name))
    case Some(kind) =>
      var arguments := if driverPath.None? then HeadlessArguments(kind, headless) else ManualArguments(kind, headless);
      ManualArgumentsMatchAuto(kind, headless);
      match launch
      case Fail(message) => Failure(Raised(message))
      case Pass => Success(SessionInfo(kind, arguments, driverPath, false))
  }

  /** A tier: launch, then maximise the window unless headless. */
  function Tier(attempt: Result<SessionInfo, ProvisionError>, headless: bool, maximize: Outcome<string>): (r: Result<SessionInfo, ProvisionError>)
    ensures attempt.Failure? ==> r == attempt
    ensures attempt.Success? ==> (r.Success? <==> headless || maximize.Pass?)
    ensures r.Success? ==> r.value == attempt.value.(maximized := attempt.value.maximized || !headless)
    ensures attempt.Success? && !headless && maximize.Fail? ==> r == Failure(Raised(maximize.error))
  {
    match attempt
    case Failure(e) => Failure(e)
    case Success(info) =>
      if headless then Success(info)
      else match maximize
        case Fail(message) => Failure(Raised(message))
        case Pass => Success(info.(maximized := true))
  }

  /** The automatic tier: everything inside the `try` of `_create_driver`. */
  function AutoTier(name: string, headless: bool, env: Environment): (r: Result<SessionInfo, ProvisionError>)
    ensures r.Success? ==> r.value.driverPath.None? && r.value.maximized == !headless
  {
    Tier(Launch(name, None, headless, env.autoLaunch), headless, env.autoMaximize)
  }

  /** The manual tier, bound to the binary at `path`. */
  function ManualTier(name: string, path: string, headless: bool, env: Environment): (r: Result<SessionInfo, ProvisionError>)
    ensures r.Success? ==> r.value.driverPath == Some(path) && r.value.maximized == !headless
  {
    Tier(Launch(name, Some(path), headless, env.manualLaunch), headless, env.manualMaximize)
  }

  /**
   * `_create_driver`: the automatic tier; if it raised, the manual tier when a
   * binary is found; otherwise the `RuntimeError` naming the expected path.
   */
  function Provision(name: string, headless: bool, env: Environment): (r: Result<SessionInfo, ProvisionError>)
    ensures r.Success? ==> ParseBrowser(name) == Some(r.value.browser)
    ensures r.Failure? ==> AutoTier(name, headless, env).Failure?
  {
    var auto := AutoTier(name, headless, env);
    if auto.Success? then auto
    else match FindManualDriver(name, env.driversDir, env.files)
      case Some(path) => ManualTier(name, path, headless, env)
      case None => Failure(DriverUnavailable(name, DriverPath(env.driversDir, ExpectedBinary(name))))
  }

  /** The window is maximised exactly when the browser is not headless, whichever tier succeeded. */
  lemma {:induction false} MaximizedUnlessHeadless(name: string, headless: bool, env: Environment)
    requires Provision(name, headless, env).Success?
    ensures Provision(name, headless, env).value.maximized == !headless
  {
  }

  /**
   * Both tiers launch with the same options for the same browser and headless
   * flag, and a session only comes from a browser the constructors know.
   */
  lemma {:induction false} SameOptionsOnBothTiers(name: string, headless: bool, env: Environment)
    requires Provision(name, headless, env).Success?
    ensures ParseBrowser(name).Some?
    ensures var info := Provision(name, headless, env).value;
            info.browser == ParseBrowser(name).value && info.arguments == HeadlessArguments(info.browser, headless)
  {
  }

  /**
   * The manual tier runs only after the automatic one raised and only with the
   * path `_find_manual_driver` returned; a session from the automatic tier is
   * bound to no path.
   */
  lemma {:induction false} ManualTierOnlyAsFallback(name: string, headless: bool, env: Environment)
    requires Provision(name, headless, env).Success?
    ensures AutoTier(name, headless, env).Success? ==>
              Provision(name, headless, env) == AutoTier(name, headless, env) &&
              Provision(name, headless, env).value.driverPath.None?
    ensures Provision(name, headless, env).value.driverPath.Some? ==>
              AutoTier(name, headless, env).Failure? &&
              FindManualDriver(name, env.driversDir, env.files) == Provision(name, headless, env).value.driverPath
  {
  }

  /** A known browser whose constructor and `maximize_window` pass gets the automatic tier's session. */
  lemma {:induction false} AutoTierSucceeds(name: string, headless: bool, env: Environment)
    requires ParseBrowser(name).Some? && env.autoLaunch == Pass && (headless || env.autoMaximize == Pass)
    ensures var kind := ParseBrowser(name).value;
            Provision(name, headless, env) == Success(SessionInfo(kind, HeadlessArguments(kind, headless), None, !headless))
  {
  }

  /**
   * When the automatic tier raised, a binary found in the drivers directory
   * whose constructor and `maximize_window` pass gives a session bound to it.
   */
  lemma {:induction false} FallbackSucceeds(name: string, headless: bool, env: Environment, path: string)
    requires AutoTier(name, headless, env).Failure?
    requires FindManualDriver(name, env.driversDir, env.files) == Some(path)
    requires env.manualLaunch == Pass && (headless || env.manualMaximize == Pass)
    ensures ParseBrowser(name).Some?
    ensures var kind := ParseBrowser(name).value;
            Provision(name, headless, env) == Success(SessionInfo(kind, HeadlessArguments(kind, headless), Some(path), !headless))
  {
  }

  /** After the manual constructor passed, an exception of its `maximize_window` escapes unchanged. */
  lemma {:induction false} ManualMaximizeErrorPropagates(name: string, headless: bool, env: Environment, message: string)
    requires AutoTier(name, headless, env).Failure?
    requires FindManualDriver(name, env.driversDir, env.files).Some?
    requires env.manualLaunch == Pass && !headless && env.manualMaximize == Fail(message)
    ensures Provision(name, headless, env) == Failure(Raised(message))
  {
  }

  /** An exception of the manual constructor escapes unchanged. */
  lemma {:induction false} ManualLaunchErrorPropagates(name: string, headless: bool, env: Environment, message: string)
    requires AutoTier(name, headless, env).Failure?
    requires FindManualDriver(name, env.driversDir, env.files).Some?
    requires env.manualLaunch == Fail(message)
    ensures Provision(name, headless, env) == Failure(Raised(message))
  {
  }

  /** When neither tier is possible the error names the browser and the expected binary, "?" for an unknown browser. */
  lemma {:induction false} NoTierLeft(name: string, headless: bool, env: Environment)
    requires AutoTier(name, headless, env).Failure?
    requires FindManualDriver(name, env.driversDir, env.files).None?
    ensures Provision(name, headless, env) ==
              Failure(DriverUnavailable(name, DriverPath(env.driversDir, ExpectedBinary(name))))
    ensures name !in ManualDriverNames ==>
              Provision(name, headless, env) == Failure(DriverUnavailable(name, DriverPath(env.driversDir, "?")))
  {
  }

  /**
   * "Unsupported browser" never escapes: the automatic tier's error is caught,
   * and the manual tier only runs for a browser in the table, which the
   * constructors know.
   */
  lemma {:induction false} UnsupportedNeverEscapes(name: string, headless: bool, env: Environment)
    ensures !Provision(name, headless, env).Failure? || !Provision(name, headless, env).error.UnsupportedBrowser?
    ensures name !in ManualDriverNames ==>
              Provision(name, headless, env) == Failure(DriverUnavailable(name, DriverPath(env.driversDir, "?")))
  {
    if AutoTier(name, headless, env).Failure? {
      match FindManualDriver(name, env.driversDir, env.files)
      case Some(path) =>
        assert ParseBrowser(name).Some?;
      case None =>
    }
  }

  /** An options object that collects arguments one at a time. */
  class Options {
    var arguments: seq<string>

    constructor ()
      ensures arguments == []
    {
      arguments := [];
    }

    /** `options.add_argument(arg)`. */
    method AddArgument(arg: string)
      modifies this
      ensures arguments == old(arguments) + [arg]
    {
      arguments := arguments + [arg];
    }
  }

  /** A browser session launched by Selenium. */
  class Session {
    const browser: BrowserKind
    const arguments: seq<string>
    const driverPath: Option<string>
    var maximized: bool

    constructor (browser: BrowserKind, options: Options, driverPath: Option<string>)
      ensures this.browser == browser && arguments == options.arguments && this.driverPath == driverPath
      ensures !maximized
    {
      this.browser := browser;
      this.arguments := options.arguments;
      this.driverPath := driverPath;
      maximized := false;
    }

    /** `maximize_window()`, which may raise. */
    method MaximizeWindow(outcome: Outcome<string>) returns (r: Outcome<string>)
      modifies this
      ensures r == outcome
      ensures maximized == (old(maximized) || outcome.Pass?)
    {
      r := outcome;
      if outcome.Pass? {
        maximized := true;
      }
    }

    function Info(): SessionInfo
      reads this
    {
      SessionInfo(browser, arguments, driverPath, maximized)
    }
  }

  /** The options block of `_create_driver_auto`: a fresh options object and its headless arguments. */
  method NewOptions(kind: BrowserKind, headless: bool) returns (options: Options)
    ensures fresh(options)
    ensures options.arguments == HeadlessArguments(kind, headless)
  {
    options := new Options();
    if headless {
      match kind
      case Chrome | Edge =>
        options.AddArgument("--headless=new");
        options.AddArgument("--no-sandbox");
        options.AddArgument("--disable-dev-shm-usage");
        options.AddArgument("--disable-gpu");
        options.AddArgument("--window-size=1920,1080");
      case Firefox =>
        options.AddArgument("--headless");
        options.AddArgument("--width=1920");
        options.AddArgument("--height=1080");
    }
  }

  /** The options block of `_create_driver_with_manual_path`, its own copy of the per-browser arguments. */
  method NewManualOptions(kind: BrowserKind, headless: bool) returns (options: Options)
    ensures fresh(options)
    ensures options.arguments == ManualArguments(kind, headless)
  {
    options := new Options();
    match kind
    case Chrome =>
      if headless {
        options.AddArgument("--headless=new");
        options.AddArgument("--no-sandbox");
        options.AddArgument("--disable-dev-shm-usage");
        options.AddArgument("--disable-gpu");
        options.AddArgument("--window-size=1920,1080");
      }
    case Firefox =>
      if headless {
        options.AddArgument("--headless");
        options.AddArgument("--width=1920");
        options.AddArgument("--height=1080");
      }
    case Edge =>
      if headless {
        options.AddArgument("--headless=new");
        options.AddArgument("--no-sandbox");
        options.AddArgument("--disable-dev-shm-usage");
        options.AddArgument("--disable-gpu");
        options.AddArgument("--window-size=1920,1080");
      }
  }

  /** `_create_driver_auto(browser_name, headless)`. */
  method CreateDriverAuto(name: string, headless: bool, launch: Outcome<string>) returns (r: Result<Session, ProvisionError>)
    ensures r.Success? <==> Launch(name, None, headless, launch).Success?
    ensures r.Success? ==> fresh(r.value) && r.value.Info() == Launch(name, None, headless, launch).value
    ensures r.Failure? ==> r.error == Launch(name, None, headless, launch).error
  {
    var kind := ParseBrowser(name);
    if kind.None? {
      return Failure(UnsupportedBrowser(name));
    }
    var options := NewOptions(kind.value, headless);
    if launch.Fail? {
      return Failure(Raised(launch.error));
    }
    var session := new Session(kind.value, options, None);
    r := Success(session);
  }

  /** `_create_driver_with_manual_path(browser_name, driver_path, headless)`. */
  method CreateDriverWithManualPath(name: string, path: string, headless: bool, launch: Outcome<string>)
    returns (r: Result<Session, ProvisionError>)
    ensures r.Success? <==> Launch(name, Some(path), headless, launch).Success?
    ensures r.Success? ==> fresh(r.value) && r.value.Info() == Launch(name, Some(path), headless, launch).value
    ensures r.Failure? ==> r.error == Launch(name, Some(path), headless, launch).error
  {
    var kind := ParseBrowser(name);
    if kind.None? {
      return Failure(UnsupportedBrowser(name));
    }
    var options := NewManualOptions(kind.value, headless);
    ManualArgumentsMatchAuto(kind.value, headless);
    if launch.Fail? {
      return Failure(Raised(launch.error));
    }
    var session := new Session(kind.value, options, Some(path));
    r := Success(session);
  }

  /** `_create_driver(browser_name, headless)`: the automatic tier, then the manual one. */
  method CreateDriver(name: string, headless: bool, env: Environment) returns (r: Result<Session, ProvisionError>)
    ensures r.Success? <==> Provision(name, headless, env).Success?
    ensures r.Success? ==> fresh(r.value) && r.value.Info() == Provision(name, headless, env).value
    ensures r.Failure? ==> r.error == Provision(name, headless, env).error
  {
    var auto := CreateDriverAuto(name, headless, env.autoLaunch);
    if auto.Success? {
      var session := auto.value;
      var maximized: Outcome<string> := Pass;
      if !headless {
        maximized := session.MaximizeWindow(env.autoMaximize);
      }
      if maximized.Pass? {
        return Success(session);
      }
    }
    var manualPath := FindManualDriver(name, env.driversDir, env.files);
    if manualPath.Some? {
      var manual := CreateDriverWithManualPath(name, manualPath.value, headless, env.manualLaunch);
      if manual.Failure? {
        return Failure(manual.error);
      }
      var session := manual.value;
      if !headless {
        var maximized := session.MaximizeWindow(env.manualMaximize);
        if maximized.Fail? {
          return Failure(Raised(maximized.error));
        }
      }
      return Success(session);
    }
    r := Failure(DriverUnavailable(name, DriverPath(env.driversDir, ExpectedBinary(name))));
  }
}
