# Page-object layer and driver provisioning of a Selenium test framework, in Dafny

This project models the parts of a small Selenium UI-test framework that decide something:

- **Locator resolution** (`Pages/Basepage.py`). A locator name is resolved to one of Selenium's seven `By` strategies from its suffix (`_XPATH`, `_ID`, `_NAME`, `_CSS`, `_CLASS`, `_LINKTEXT`, `_PARTIALLINKTEXT`). Its selector is then read from the `locators` section of the registry.
- **The element action layer** (`WebActions` in `Pages/Basepage.py`). This covers element lookup with a wait, `click`, `type`, `press_key`, `is_displayed`, `get_element_count` and the window operations. It is modelled over an abstract browser:
  - a snapshot of the page (which elements each selector matches, which are displayed or enabled, and their text); every wait is decided by this snapshot;
  - the ordered window handles and the current handle;
  - the trace of driver actions (clear, send keys, click, switch window, close window).
- **The login page object** (`Pages/LoginPage.py`). Its methods are fixed `type`/`type`/`click` sequences on hard-coded locator names. In the model the page object holds the action layer rather than inheriting from it.
- **Driver provisioning** (`tests/conftest.py`):
  - the browser-name precedence;
  - the table of manual driver binaries;
  - the per-browser headless arguments, which both constructors add one at a time to an options object;
  - the fallback from the automatic driver manager to a binary placed by hand in `drivers/`, ending in a `RuntimeError`.

  The outcome of every Selenium call (the two constructors and `maximize_window`) is a parameter, and so is the set of files that exist.

The exceptions the model covers are values: `Result`/`Outcome` in module `Wrappers`, with the error kinds in `Locators.Error` and `Provisioning.ProvisionError`. These are:
- unsupported locator types, registry misses and wait timeouts;
- unknown key names, Python `IndexError` on a window index, and closing a window that is gone;
- unsupported browsers, and the exceptions of the two constructors and of `maximize_window`;
- the final `RuntimeError`.

Other driver calls are assumed to succeed (see "## Left out").

Files:
- `wrappers.dfy`: `Option`, `Result`, `Outcome`.
- `text.dfy`: `endswith`, ASCII `upper`/`lower`, substring occurrence.
- `locators.dfy`: strategies, `_get_by_type`, the registry lookup.
- `basepage.dfy`: the page snapshot, the action trace and class `WebActions`.
- `loginpage.dfy`: class `LoginPage`.
- `conftest.dfy`: module `Provisioning`.

Details of the code that the model follows:
- **Suffix order.** `_LINKTEXT` is tested before `_PARTIALLINKTEXT`. This is harmless: no suffix ends with another one (`AtMostOneSuffix`).
- **Two copies of the option blocks.** `_create_driver_auto` and `_create_driver_with_manual_path` each carry their own copy of the per-browser options. They are modelled separately (`HeadlessArguments`, `ManualArguments`) and proved equal.
- **Firefox headless arguments.** Headless Firefox gets `--headless`, `--width=1920` and `--height=1080`. It does not get the sandbox or GPU switches.
- **Final error message.** It names the browser and the manual path only. It does not name an automatic-tier path.
- **Registry errors.** A missing section and a missing option raise two different errors (`NoSection`, `NoOption`). ConfigParser lower-cases option names before looking them up, and the missing-option error carries the lower-cased name.
- **Empty configured browser.** An empty `default_browser` gives the browser name `""`, not `"chrome"`.
- **`maximize_window` on the automatic tier.** The call is inside the `try`, so if it raises, the manual tier is tried.

## Model

| member | source | states |
|---|---|---|
| `Locators.ByType` | Pages/Basepage.py:24-43 | a resolved strategy's suffix ends the name; resolution fails exactly when the name ends in none of the seven suffixes, and the error carries the name |
| `Locators.UnsupportedMessage` | Pages/Basepage.py:42-43 | the "Unsupported locator type" message ends with the offending name |
| `Locators.SuffixesUnrelated` | Pages/Basepage.py:28-41 | no suffix ends with a different one; in particular `_PARTIALLINKTEXT` does not end with `_LINKTEXT` |
| `Locators.AtMostOneSuffix` | Pages/Basepage.py:38-41 | a name ends with at most one of the seven suffixes, so the first-match order never changes the result |
| `Locators.ByTypeIff` | Pages/Basepage.py:28-41 | a name resolves to strategy s if and only if it ends with s's suffix |
| `Locators.ByTypeOfSuffix` | Pages/Basepage.py:24-41 | resolution depends only on the suffix: any prefix followed by s's suffix resolves to s |
| `Locators.ReadConfig` | Utilities/ConfigReader.py:16-19 | the lookup succeeds exactly when the section exists and holds the lower-cased option, and returns the stored value; otherwise it raises the missing-section error, or the missing-option error carrying the lower-cased option name |
| `Locators.ReadConfigIgnoresKeyCase` | Utilities/ConfigReader.py:16-19 | option names that differ only in case read the same entry |
| `Basepage.Resolve` | Pages/Basepage.py:45-48 | the suffix is checked before the registry is read: an unsupported name raises that error whatever the registry holds; otherwise a missing entry raises the registry's error; success pairs the strategy with the stored selector |
| `Basepage.Locate` | Pages/Basepage.py:45-52 | once the selector resolves, the lookup succeeds exactly when the first match is displayed and enabled, and then returns that match; otherwise it times out; a resolution error passes through unchanged |
| `Basepage.LocateAll` | Pages/Basepage.py:54-62 | once the selector resolves, the multi-lookup succeeds exactly when at least one element matches, and returns every match; otherwise it times out; a resolution error passes through unchanged |
| `Basepage.Visible` | Pages/Basepage.py:128-130 | the visibility wait passes exactly when the presence wait would pass and the first match is displayed, enabled or not; a selector that does not resolve is never visible |
| `Basepage.LocatableIsVisible` | Pages/Basepage.py:123-135 | an element that can be clicked also passes the visibility wait of `is_displayed` and the presence wait of `_get_elements` |
| `Basepage.KeyFor` | Pages/Basepage.py:95-97 | a key name is found exactly when its upper-cased form is in the `Keys` table; otherwise "Unknown key" carrying the name as given |
| `Basepage.KeyForIgnoresCase` | Pages/Basepage.py:95 | names equal up to case ("enter", "Enter", "ENTER") find the same key or all fail |
| `Text.UpperForgetsCase` | Pages/Basepage.py:95 | upper-casing forgets case: `x.lower().upper() == x.upper()` and upper-casing is idempotent |
| `Basepage.FieldText` | Pages/Basepage.py:75-77 | a field's content is known from the trace exactly when the field was cleared at some point |
| `Basepage.FieldTextAfterType` | Pages/Basepage.py:75-77 | clearing a field and then sending text leaves exactly that text in it, whatever the trace held before |
| `Basepage.FieldTextOtherActions` | Pages/Basepage.py:75-77 | actions on other elements or on windows do not change a field's content |
| `Basepage.PyIndex` | Pages/Basepage.py:357-358 | Python indexing: defined exactly for -len <= i < len, counting from the end for negative i |
| `Basepage.Remove` | Pages/Basepage.py:369-370 | closing a window removes exactly its handle, keeps the others and their distinctness, and shortens the list by one |
| `Basepage.RemoveKeepsOrder` | Pages/Basepage.py:369-370 | the handles left are the old list with the closed handle cut out where it stood, so the other windows keep their order |
| `Basepage.FirstRemainingHandle` | Pages/Basepage.py:370-372 | the window switched to after a close is the first window, or the second one when the first was the one closed |
| `Basepage.WebActions.constructor` | Pages/Basepage.py:17-18 | the layer starts on the given browser state with an empty action trace |
| `Basepage.WebActions.GetElement` | Pages/Basepage.py:45-52 | returns `Locate` on the current registry and page, a displayed and enabled element |
| `Basepage.WebActions.GetElements` | Pages/Basepage.py:54-62 | returns `LocateAll` on the current registry and page |
| `Basepage.WebActions.Click` | Pages/Basepage.py:68-71 | one click on the located element is appended to the trace; on a failed lookup the error escapes and nothing happens |
| `Basepage.WebActions.Type` | Pages/Basepage.py:73-78 | appends clear and then send-keys of the text to the located element, in that order (with `FieldTextAfterType`: the field then holds exactly the text); nothing on a failed lookup |
| `Basepage.WebActions.PressKey` | Pages/Basepage.py:90-99 | an unknown key raises "Unknown key" before any lookup and with no action; otherwise the key's code is sent to the located element |
| `Basepage.WebActions.IsDisplayed` | Pages/Basepage.py:123-135 | never raises: true exactly when at least one element matches and the first match is displayed, whether or not it is enabled; an unsupported name, a missing registry entry and a timeout all give false; a clickable element gives true |
| `Basepage.WebActions.GetElementCount` | Pages/Basepage.py:149-154 | the number of matches, at least one, or the lookup's error |
| `Basepage.WebActions.SwitchToWindow` | Pages/Basepage.py:355-359 | makes `handles[index]` current (negative indices from the end) and records the switch; an index out of range raises and changes nothing |
| `Basepage.WebActions.SwitchToNewWindow` | Pages/Basepage.py:361-365 | makes the last handle current; with no handles, `handles[-1]` raises and nothing changes |
| `Basepage.WebActions.CloseCurrentWindow` | Pages/Basepage.py:367-373 | removes the current handle (one window fewer, handles stay distinct); switches to the first remaining handle only if one remains, else performs no switch |
| `Basepage.WebActions.GetWindowCount` | Pages/Basepage.py:375-379 | the length of the handle sequence |
| `LoginPage.PageLocatorsAreXPath` | Pages/LoginPage.py:10-26 | every locator name the page object uses resolves to XPath |
| `LoginPage.PageLookupErrors` | Pages/LoginPage.py:10-26 | a lookup of one of the page's names can fail only on the registry or by a timeout, never as an unsupported locator |
| `LoginPage.TypeTypeClick` | Pages/LoginPage.py:10-13 | the sequence succeeds exactly when all three lookups do, and is then clear/type user, clear/type password, click; a failure carries the first failed lookup's error, keeps exactly the steps before that lookup and never clicks |
| `LoginPage.LoginNeverUnsupported` | Pages/LoginPage.py:10-13 | a login never raises "Unsupported locator type" |
| `LoginPage.TypeTypeClickLeavesCredentials` | Pages/LoginPage.py:10-13 | after a successful login on two distinct fields, they hold exactly the user name and the password |
| `LoginPage.SubmitCredentials` | Pages/LoginPage.py:10-13 | the type, type and click calls append exactly the steps `TypeTypeClick` gives for the three lookups and end as it says |
| `LoginPage.LoginPage.constructor` | Pages/LoginPage.py:6-7 | the page object works on the given action layer |
| `LoginPage.LoginPage.LoginAsStandardUser` | Pages/LoginPage.py:10-13 | appends the username-field, password-field, login-button steps of `LoginSteps`, in that order, and ends as they do |
| `LoginPage.LoginPage.LoginAsLockedOutUser` | Pages/LoginPage.py:19-22 | exactly the same result and action sequence as `LoginAsStandardUser` for the same arguments |
| `LoginPage.LoginPage.GetInventoryPageTitle` | Pages/LoginPage.py:15-16 | the text of the element located by `InventoryPageTitle_XPATH`, or that lookup's error |
| `LoginPage.LoginPage.GetLockedOutUserValidation` | Pages/LoginPage.py:25-26 | the text of the element located by `lockedoutuservalidation_XPATH`, or that lookup's error |
| `Provisioning.ParseBrowser` | tests/conftest.py:79-109 | the constructors know exactly the three names of the driver table: "chrome", "firefox" and "edge", matched exactly |
| `Provisioning.GetBrowserName` | tests/conftest.py:38-52 | a non-empty command-line name wins, lower-cased; otherwise the configured `default_browser`, lower-cased; if reading it raises, "chrome"; the result has no capital letters |
| `Provisioning.FindManualDriver` | tests/conftest.py:55-67 | nothing for a browser outside the table; otherwise `drivers/<binary>` from the table, and only when that file exists |
| `Provisioning.HeadlessArguments` | tests/conftest.py:79-105 | no arguments with a window; headless lists start with a headless switch and ask for a 1920 by 1080 window, and Chrome and Edge also disable the sandbox and the GPU |
| `Provisioning.HeadlessArgumentsShape` | tests/conftest.py:79-105 | headless Chrome and Edge get the same five arguments, headless Firefox three, a windowed browser none |
| `Provisioning.ManualArgumentsMatchAuto` | tests/conftest.py:121-148 | the manual constructor's copied option blocks give exactly the automatic constructor's arguments for every browser and headless flag |
| `Provisioning.DriverUnavailableMessageNames` | tests/conftest.py:191-197 | the final `RuntimeError` message contains the browser name and the expected binary path |
| `Provisioning.Launch` | tests/conftest.py:79-154 | a constructor raises "Unsupported browser" for an unknown name; for a known one it launches exactly when the Selenium constructor passes, and that constructor's exception comes back unchanged otherwise; a launched session carries the browser's headless arguments and the given driver path, not yet maximised |
| `Provisioning.Tier` | tests/conftest.py:172-189 | a failed launch is the tier's failure; a launched session is returned when headless or when `maximize_window` passes, and is then maximised exactly when not headless; otherwise the maximize exception escapes |
| `Provisioning.AutoTier` | tests/conftest.py:172-175 | a session from the automatic tier is bound to no driver path and is maximised exactly when not headless |
| `Provisioning.ManualTier` | tests/conftest.py:183-189 | a session from the manual tier is bound to the found path and is maximised exactly when not headless |
| `Provisioning.Provision` | tests/conftest.py:157-197 | a session is always of the browser asked for, and provisioning fails only after the automatic tier failed |
| `Provisioning.AutoTierSucceeds` | tests/conftest.py:172-175 | a known browser whose constructor and `maximize_window` pass gets the automatic tier's session, with no path, maximised exactly when not headless |
| `Provisioning.FallbackSucceeds` | tests/conftest.py:183-189 | after the automatic tier raised, a found binary whose constructor and `maximize_window` pass gives a session bound to that binary |
| `Provisioning.MaximizedUnlessHeadless` | tests/conftest.py:172-189 | a provisioned window is maximised exactly when not headless, whichever tier succeeded |
| `Provisioning.SameOptionsOnBothTiers` | tests/conftest.py:121-150 | a session from either tier is of the browser asked for and carries the same arguments, although each constructor builds them from its own copy of the option blocks |
| `Provisioning.ManualTierOnlyAsFallback` | tests/conftest.py:172-189 | a successful automatic tier is the result, with no driver path; a session bound to a path comes only after the automatic tier raised, with the path `_find_manual_driver` returned |
| `Provisioning.ManualLaunchErrorPropagates` | tests/conftest.py:183-189 | an exception of the manual constructor escapes unchanged |
| `Provisioning.ManualMaximizeErrorPropagates` | tests/conftest.py:183-189 | after the automatic tier failed and the manual constructor passed, an exception of `maximize_window` escapes unchanged; it is outside any `try` |
| `Provisioning.NoTierLeft` | tests/conftest.py:191-197 | when the automatic tier raised and no manual binary exists, the error names the browser and `drivers/<binary>`, with "?" for an unknown browser |
| `Provisioning.UnsupportedNeverEscapes` | tests/conftest.py:157-197 | "Unsupported browser" never escapes provisioning; an unknown browser always ends in the error naming `drivers/?` |
| `Provisioning.Options.constructor` | tests/conftest.py:80 | a new options object has no arguments |
| `Provisioning.Options.AddArgument` | tests/conftest.py:82 | appends one argument at the end |
| `Provisioning.NewOptions` | tests/conftest.py:79-105 | a fresh options object holding exactly `HeadlessArguments` for the browser, added one at a time |
| `Provisioning.Session.constructor` | tests/conftest.py:87 | a launched session carries the browser, the options' arguments and the driver path, not maximised |
| `Provisioning.Session.MaximizeWindow` | tests/conftest.py:174-175 | the window is maximised when the call succeeds; its exception is returned unchanged |
| `Provisioning.CreateDriverAuto` | tests/conftest.py:70-109 | returns a fresh session exactly as `Launch` describes with no driver path, or `Launch`'s error |
| `Provisioning.NewManualOptions` | tests/conftest.py:121-148 | a fresh options object holding exactly the manual constructor's own copy of the arguments (`ManualArguments`), added one at a time |
| `Provisioning.CreateDriverWithManualPath` | tests/conftest.py:112-154 | returns a fresh session exactly as `Launch` describes, bound to the given path, or `Launch`'s error |
| `Provisioning.CreateDriver` | tests/conftest.py:157-197 | the imperative try/except chain gives exactly the session or error of `Provision`, about which the lemmas above are proved |

## Left out

- Logging: every `Log.logger.info` call in `Pages/Basepage.py` is a side effect on a process-wide log file and is not modelled. `Utilities/Log.py` is not part of this model.
- Real-time waiting. A wait's timeout value and its polling are not modelled: the page is a snapshot for the duration of a call. Page changes caused by the site, such as a click that navigates, happen between calls by assigning `page`.
- `Basepage.WebActions.IsDisplayed`: stated against the snapshot. "True as soon as visibility is reached" is real-time behaviour and is not captured.
- Operations of `WebActions` that only forward to the driver are not modelled beyond the shared lookup (`Locate`): `clear`, `submit`, `upload_file`, `get_text`, `get_attribute`, `is_enabled`, `is_selected`, the `wait_for_*` family, the dropdown (`Select`) operations, the ActionChains mouse operations, `execute_script`-based scrolling and clicking, navigation, screenshots, frames and alerts.
- The `Keys` table of Selenium is not part of this model. It is the parameter `keys` (attribute name to key code).
- Case mapping is ASCII-only. Python's `str.upper`/`str.lower` also map non-ASCII letters (and `upper` can lengthen a string, as in "ß" to "SS").
- Parsing of the INI file (`ConfigParser.read`, the `DEFAULT` section, interpolation) is not modelled. The registry is the map it produces, read afresh at each call through the `config` field.
- Driver behaviour that the window operations rely on is assumed, not derived:
  - `window_handles` lists distinct handles;
  - after a close it lists the remaining ones in their previous order (`RemoveKeepsOrder` proves the model keeps that order);
  - `close()` of a window that is already gone raises `NoSuchWindowException`.
- In `tests/conftest.py`, the following are not modelled: `os.makedirs` of the drivers directory, the `print` diagnostics, `pytest_addoption`, and the fixtures' yield/quit lifecycle (including `navigate_to_saucedemo`). The absolute `DRIVERS_DIR` is the parameter `driversDir`, and `os.path.isfile` is the set `files`.
- A session whose `maximize_window` raised on the automatic tier is abandoned without `quit()`. Browser processes are not modelled, so this leak is not visible in the model.
- Element actions and window switches are assumed to succeed once the lookup has succeeded. These are `click()`, `clear()`, `send_keys()`, `switch_to.window` and reading `.text`. In Selenium they can raise, for example `ElementClickInterceptedException`, `InvalidElementStateException` or `StaleElementReferenceException`; the model does not cover that. So `LoginPage.TypeTypeClick`'s "succeeds exactly when all three lookups succeed" holds only for a driver whose element calls do not fail.
- `Basepage.FieldText` treats every `send_keys` argument as text appended to the field, including a key code sent by `press_key`. A browser interprets such codes instead: `BACK_SPACE`, for example, deletes a character.
- `tests/test_loginAsStandardUser.py` checks the live site's title ("Products"). This cannot be stated without the site.
