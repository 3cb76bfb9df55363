/**
 * The element action layer of Pages/Basepage.py (class `WebActions`) over an
 * abstract browser: a snapshot of the page that decides every wait, the
 * ordered window handles, the current handle and the trace of driver actions.
 */
module Basepage {
  import opened Wrappers
  import opened Text
  import opened Locators

  type ElementId = nat
  type Handle = string

  /** What the driver is asked to find: a strategy and the selector from the registry. */
  type Selector = (Strategy, string)

  /** The registry section every locator is read from. */
  const LocatorSection := "locators"

  /**
   * The page as the driver sees it while a wait polls: the elements each
   * selector matches (in document order), which are displayed, which are
   * enabled, and the visible text of each.
   */
  datatype Page = Page(
    matches: map<Selector, seq<ElementId>>,
    displayed: set<ElementId>,
    enabled: set<ElementId>,
    text: map<ElementId, string>)

  /** `driver.find_elements(by, value)`. */
  function FindAll(page: Page, sel: Selector): seq<ElementId> {
    if sel in page.matches then page.matches[sel] else []
  }

  /** The `.text` of an element; an element without text reads as "". */
  function TextOf(page: Page, e: ElementId): string {
    if e in page.text then page.text[e] else ""
  }

  /** The driver calls the layer makes that change the browser. */
  datatype Action =
    | Clear(element: ElementId)
    | SendKeys(element: ElementId, keys: string)
    | Click(element: ElementId)
    | SwitchToWindow(handle: Handle)
    | CloseWindow(handle: Handle)

  /**
   * The content of an input field implied by a trace: "" after its last
   * `Clear`, extended by every later `SendKeys` to it; `None` when the field
   * was never cleared, since its earlier content belongs to the page.
   */
  function FieldText(trace: seq<Action>, e: ElementId): (r: Option<string>)
    ensures r.Some? <==> exists i :: 0 <= i < |trace| && trace[i] == Clear(e)
    decreases |trace|
  {
    if trace == [] then None
    else
      var before := trace[..|trace| - 1];
      match trace[|trace| - 1]
      case Clear(x) => if x == e then Some("") else FieldText(before, e)
      case SendKeys(x, k) =>
        if x != e then FieldText(before, e)
        else (match FieldText(before, e)
              case Some(v) => Some(v + k)
              case None => None)
      case _ => FieldText(before, e)
  }

  /** Clearing a field and then sending text leaves exactly that text in it, whatever came before. */
  lemma FieldTextAfterType(trace: seq<Action>, e: ElementId, text: string)
    ensures FieldText(trace + [Clear(e), SendKeys(e, text)], e) == Some(text)
  {
    var cleared := trace + [Clear(e)];
    assert FieldText(cleared, e) == Some("") by {
      assert cleared[|cleared| - 1] == Clear(e);
    }
    var t := cleared + [SendKeys(e, text)];
    assert t == trace + [Clear(e), SendKeys(e, text)];
    assert t[..|t| - 1] == cleared && t[|t| - 1] == SendKeys(e, text);
    assert "" + text == text;
  }

  /** Actions on other elements and on windows leave a field's content as it was. */
  lemma {:induction false} FieldTextOtherActions(trace: seq<Action>, more: seq<Action>, e: ElementId)
    requires forall i :: 0 <= i < |more| ==> !(more[i].Clear? || more[i].SendKeys?) || more[i].element != e
    ensures FieldText(trace + more, e) == FieldText(trace, e)
    decreases |more|
  {
    if more != [] {
      var t := trace + more;
      assert t[..|t| - 1] == trace + more[..|more| - 1];
      assert t[|t| - 1] == more[|more| - 1];
      FieldTextOtherActions(trace, more[..|more| - 1], e);
    } else {
      assert trace + more == trace;
    }
  }

  /**
   * The first half of `_get_element`, `_get_elements` and `is_displayed`: the
   * strategy from the suffix, then the selector from the registry's
   * "locators" section. The suffix is checked before the registry is read.
   */
  function Resolve(config: Store, locator: string): (r: Result<Selector, Error>)
    ensures r.Success? <==> ByType(locator).Success? && ReadConfig(config, LocatorSection, locator).Success?
    ensures r.Success? ==> r.value == (ByType(locator).value, ReadConfig(config, LocatorSection, locator).value)
    ensures ByType(locator).Failure? ==> r == Failure(UnsupportedLocatorType(locator))
    ensures ByType(locator).Success? && ReadConfig(config, LocatorSection, locator).Failure? ==>
              r == Failure(ReadConfig(config, LocatorSection, locator).error)
  {
    match ByType(locator)
    case Failure(e) => Failure(e)
    case Success(strategy) =>
      match ReadConfig(config, LocatorSection, locator)
      case Failure(e) => Failure(e)
      case Success(value) => Success((strategy, value))
  }

  /**
   * `_get_element`: wait until the element is clickable, that is until the
   * first match is displayed and enabled, and return it; raise a timeout otherwise.
   */
  function Locate(config: Store, page: Page, locator: string): (r: Result<ElementId, Error>)
    ensures r.Success? ==>
              Resolve(config, locator).Success? &&
              var found := FindAll(page, Resolve(config, locator).value);
              |found| > 0 && r.value == found[0] && r.value in page.displayed && r.value in page.enabled
    ensures Resolve(config, locator).Success? ==>
              (r.Success? <==> var found := FindAll(page, Resolve(config, locator).value);
                               |found| > 0 && found[0] in page.displayed && found[0] in page.enabled)
    ensures r.Failure? ==>
              (Resolve(config, locator).Failure? && r.error == Resolve(config, locator).error) ||
              (Resolve(config, locator).Success? && r.error == Timeout(locator))
  {
    match Resolve(config, locator)
    case Failure(e) => Failure(e)
    case Success(sel) =>
      var found := FindAll(page, sel);
      if |found| > 0 && found[0] in page.displayed && found[0] in page.enabled then Success(found[0])
      else Failure(Timeout(locator))
  }

  /**
   * `_get_elements`: wait until at least one element is present, then return
   * every match.
   */
  function LocateAll(config: Store, page: Page, locator: string): (r: Result<seq<ElementId>, Error>)
    ensures r.Success? ==> Resolve(config, locator).Success? && r.value == FindAll(page, Resolve(config, locator).value)
    ensures r.Success? ==> |r.value| >= 1
    ensures Resolve(config, locator).Success? ==> (r.Success? <==> |FindAll(page, Resolve(config, locator).value)| > 0)
    ensures r.Failure? ==>
              (Resolve(config, locator).Failure? && r.error == Resolve(config, locator).error) ||
              (Resolve(config, locator).Success? && r.error == Timeout(locator))
  {
    match Resolve(config, locator)
    case Failure(e) => Failure(e)
    case Success(sel) =>
      var found := FindAll(page, sel);
      if |found| > 0 then Success(found) else Failure(Timeout(locator))
  }

  /** The visibility wait of `is_displayed`: the first match exists and is displayed. */
  predicate Visible(config: Store, page: Page, locator: string)
    ensures Visible(config, page, locator) <==>
              LocateAll(config, page, locator).Success? && LocateAll(config, page, locator).value[0] in page.displayed
    ensures Resolve(config, locator).Failure? ==> !Visible(config, page, locator)
  {
    match Resolve(config, locator)
    case Failure(_) => false
    case Success(sel) => |FindAll(page, sel)| > 0 && FindAll(page, sel)[0] in page.displayed
  }

  /** An element that can be clicked is visible: a `True` from `is_displayed` never contradicts a successful lookup. */
  lemma LocatableIsVisible(config: Store, page: Page, locator: string)
    requires Locate(config, page, locator).Success?
    ensures Visible(config, page, locator)
    ensures LocateAll(config, page, locator).Success?
  {
  }

  /**
   * `press_key`'s lookup `getattr(Keys, key_name.upper(), None)` in a table
   * from `Keys` attribute names to key codes.
   */
  function KeyFor(keys: map<string, string>, keyName: string): (r: Result<string, Error>)
    ensures r.Success? <==> Upper(keyName) in keys
    ensures r.Success? ==> r.value == keys[Upper(keyName)]
    ensures r.Failure? ==> r.error == UnknownKey(keyName)
  {
    if Upper(keyName) in keys then Success(keys[Upper(keyName)]) else Failure(UnknownKey(keyName))
  }

  /** Key names are case-insensitive: "enter", "Enter" and "ENTER" find the same code. */
  lemma {:induction false} KeyForIgnoresCase(keys: map<string, string>, a: string, b: string)
    requires Lower(a) == Lower(b)
    ensures KeyFor(keys, a).Success? == KeyFor(keys, b).Success?
    ensures KeyFor(keys, a).Success? ==> KeyFor(keys, a).value == KeyFor(keys, b).value
  {
    UpperForgetsCase(a);
    UpperForgetsCase(b);
  }

  /** Python's `s[i]`: a negative index counts from the end; anything else out of range raises. */
  function PyIndex<T>(s: seq<T>, i: int): (r: Option<T>)
    ensures r.Some? <==> -|s| <= i < |s|
    ensures 0 <= i < |s| ==> r == Some(s[i])
    ensures -|s| <= i < 0 ==> r == Some(s[|s| + i])
  {
    if 0 <= i < |s| then Some(s[i])
    else if -|s| <= i < 0 then Some(s[|s| + i])
    else None
  }

  /** No handle is listed twice. */
  predicate Distinct(hs: seq<Handle>) {
    forall i, j :: 0 <= i < j < |hs| ==> hs[i] != hs[j]
  }

  /** The tail of a list without repeats has no repeats and does not hold its head. */
  lemma DistinctTail(hs: seq<Handle>)
    requires hs != [] && Distinct(hs)
    ensures Distinct(hs[1..]) && hs[0] !in hs[1..]
  {
    assert forall k :: 0 <= k < |hs| - 1 ==> hs[1..][k] == hs[k + 1];
  }

  /** Dropping position `j` of the tail and putting the head back drops position `j + 1`. */
  lemma DropInTail(hs: seq<Handle>, j: nat)
    requires j < |hs| - 1
    ensures [hs[0]] + (hs[1..][..j] + hs[1..][j + 1..]) == hs[..j + 1] + hs[j + 2..]
  {
  }

  /** The handles left after the window `h` is closed, in their previous order. */
  function Remove(hs: seq<Handle>, h: Handle): (r: seq<Handle>)
    ensures forall x :: x in r <==> x in hs && x != h
    ensures Distinct(hs) ==> Distinct(r)
    ensures Distinct(hs) && h in hs ==> |r| == |hs| - 1
    ensures h !in hs ==> r == hs
  {
    if hs == [] then []
    else if hs[0] == h then Remove(hs[1..], h)
    else
      var rest := Remove(hs[1..], h);
      assert Distinct(hs) ==> hs[0] !in rest by {
        if Distinct(hs) {
          DistinctTail(hs);
        }
      }
      [hs[0]] + rest
  }

  /**
   * Closing keeps the order of the other windows: the handles left are the
   * old ones with the closed handle cut out where it stood.
   */
  lemma {:induction false} RemoveKeepsOrder(hs: seq<Handle>, h: Handle)
    requires Distinct(hs) && h in hs
    ensures exists k :: 0 <= k < |hs| && hs[k] == h && Remove(hs, h) == hs[..k] + hs[k + 1..]
  {
    DistinctTail(hs);
    if hs[0] == h {
      assert Remove(hs, h) == hs[..0] + hs[1..];
    } else {
      RemoveKeepsOrder(hs[1..], h);
      var j :| 0 <= j < |hs| - 1 && hs[1..][j] == h && Remove(hs[1..], h) == hs[1..][..j] + hs[1..][j + 1..];
      DropInTail(hs, j);
      assert Remove(hs, h) == hs[..j + 1] + hs[j + 2..];
    }
  }

  /**
   * The window `close_current_window` switches to: the first window, or the
   * second one when the first was the one closed.
   */
  lemma {:induction false} FirstRemainingHandle(hs: seq<Handle>, h: Handle)
    requires Distinct(hs) && h in hs && Remove(hs, h) != []
    ensures |hs| >= 2
    ensures Remove(hs, h)[0] == (if hs[0] == h then hs[1] else hs[0])
  {
    RemoveKeepsOrder(hs, h);
    var k :| 0 <= k < |hs| && hs[k] == h && Remove(hs, h) == hs[..k] + hs[k + 1..];
    if k == 0 {
      assert Remove(hs, h)[0] == hs[1];
    } else {
      assert Remove(hs, h)[0] == hs[0];
    }
  }

  /**
   * The layer over one browser. The driver's window handles, current handle
   * and page belong to the browser; `config` is the registry as it reads at
   * the time of a call, and `keys` is Selenium's `Keys` table.
   */
  class WebActions {
    var config: Store
    const keys: map<string, string>
    var page: Page
    var handles: seq<Handle>
    var current: Handle
    var trace: seq<Action>

    ghost predicate Valid()
      reads this
    {
      Distinct(handles)
    }

    constructor (config: Store, keys: map<string, string>, page: Page, handles: seq<Handle>, current: Handle)
      requires Distinct(handles)
      ensures Valid()
      ensures this.config == config && this.keys == keys && this.page == page
      ensures this.handles == handles && this.current == current && trace == []
    {
      this.config := config;
      this.keys := keys;
      this.page := page;
      this.handles := handles;
      this.current := current;
      trace := [];
    }

    /** `_get_element(locator)`. */
    method GetElement(locator: string) returns (r: Result<ElementId, Error>)
      ensures r == Locate(config, page, locator)
      ensures r.Success? ==> r.value in page.displayed && r.value in page.enabled
    {
      var strategy := ByType(locator);
      if strategy.Failure? {
        return Failure(strategy.error);
      }
      var value := ReadConfig(config, LocatorSection, locator);
      if value.Failure? {
        return Failure(value.error);
      }
      var found := FindAll(page, (strategy.value, value.value));
      if |found| > 0 && found[0] in page.displayed && found[0] in page.enabled {
        r := Success(found[0]);
      } else {
        r := Failure(Timeout(locator));
      }
    }

    /** `_get_elements(locator)`. */
    method GetElements(locator: string) returns (r: Result<seq<ElementId>, Error>)
      ensures r == LocateAll(config, page, locator)
    {
      var strategy := ByType(locator);
      if strategy.Failure? {
        return Failure(strategy.error);
      }
      var value := ReadConfig(config, LocatorSection, locator);
      if value.Failure? {
        return Failure(value.error);
      }
      var found := FindAll(page, (strategy.value, value.value));
      if |found| == 0 {
        return Failure(Timeout(locator));
      }
      r := Success(found);
    }

    /** `click(locator)`: one click on the located element, nothing on failure. */
    method Click(locator: string) returns (r: Outcome<Error>)
      modifies this`trace
      ensures var l := Locate(config, page, locator);
              (l.Success? ==> r == Pass && trace == old(trace) + [Action.Click(l.value)]) &&
              (l.Failure? ==> r == Fail(l.error) && trace == old(trace))
    {
      var e := GetElement(locator);
      if e.Failure? {
        return Fail(e.error);
      }
      trace := trace + [Action.Click(e.value)];
      r := Pass;
    }

    /** `type(locator, text)`: clear the located field, then send the text. */
    method Type(locator: string, text: string) returns (r: Outcome<Error>)
      modifies this`trace
      ensures var l := Locate(config, page, locator);
              (l.Success? ==> r == Pass && trace == old(trace) + [Clear(l.value), SendKeys(l.value, text)]) &&
              (l.Failure? ==> r == Fail(l.error) && trace == old(trace))
    {
      var e := GetElement(locator);
      if e.Failure? {
        return Fail(e.error);
      }
      trace := trace + [Clear(e.value)];
      trace := trace + [SendKeys(e.value, text)];
      r := Pass;
    }

    /**
     * `press_key(locator, key_name)`: an unknown key name raises before any
     * element is looked up; otherwise the key's code is sent to the element.
     */
    method PressKey(locator: string, keyName: string) returns (r: Outcome<Error>)
      modifies this`trace
      ensures KeyFor(keys, keyName).Failure? ==> r == Fail(UnknownKey(keyName)) && trace == old(trace)
      ensures KeyFor(keys, keyName).Success? ==>
                var l := Locate(config, page, locator);
                (l.Success? ==> r == Pass && trace == old(trace) + [SendKeys(l.value, KeyFor(keys, keyName).value)]) &&
                (l.Failure? ==> r == Fail(l.error) && trace == old(trace))
    {
      var key := KeyFor(keys, keyName);
      if key.Failure? {
        return Fail(key.error);
      }
      var e := GetElement(locator);
      if e.Failure? {
        return Fail(e.error);
      }
      trace := trace + [SendKeys(e.value, key.value)];
      r := Pass;
    }

    /**
     * `is_displayed(locator)`: never raises. An unsupported name, a missing
     * registry entry and a timeout all give `false`.
     */
    method IsDisplayed(locator: string) returns (shown: bool)
      ensures shown == Visible(config, page, locator)
      ensures ByType(locator).Failure? ==> !shown
      ensures ReadConfig(config, LocatorSection, locator).Failure? ==> !shown
      ensures Locate(config, page, locator).Success? ==> shown
      ensures shown <==> LocateAll(config, page, locator).Success? && LocateAll(config, page, locator).value[0] in page.displayed
    {
      var sel := Resolve(config, locator);
      if sel.Failure? {
        return false;
      }
      var found := FindAll(page, sel.value);
      shown := |found| > 0 && found[0] in page.displayed;
    }

    /** `get_element_count(locator)`: the number of matches once one is present. */
    method GetElementCount(locator: string) returns (r: Result<nat, Error>)
      ensures r.Success? <==> LocateAll(config, page, locator).Success?
      ensures r.Success? ==> r.value == |LocateAll(config, page, locator).value| && r.value >= 1
      ensures r.Failure? ==> r.error == LocateAll(config, page, locator).error
    {
      var elements := GetElements(locator);
      if elements.Failure? {
        return Failure(elements.error);
      }
      r := Success(|elements.value|);
    }

    /** `switch_to_window(index)`: make `handles[index]` current, Python indexing. */
    method SwitchToWindow(index: int) returns (r: Outcome<Error>)
      modifies this`current, this`trace
      ensures -|handles| <= index < |handles| ==>
                r == Pass && current == PyIndex(handles, index).value &&
                trace == old(trace) + [Action.SwitchToWindow(current)]
      ensures 0 <= index < |handles| ==> current == handles[index]
      ensures !(-|handles| <= index < |handles|) ==>
                r == Fail(IndexError(index)) && current == old(current) && trace == old(trace)
    {
      var h := PyIndex(handles, index);
      if h.None? {
        return Fail(IndexError(index));
      }
      current := h.value;
      trace := trace + [Action.SwitchToWindow(current)];
      r := Pass;
    }

    /** `switch_to_new_window()`: make the last handle current; `handles[-1]` raises when there is none. */
    method SwitchToNewWindow() returns (r: Outcome<Error>)
      modifies this`current, this`trace
      ensures handles != [] ==>
                r == Pass && current == handles[|handles| - 1] &&
                trace == old(trace) + [Action.SwitchToWindow(current)]
      ensures handles == [] ==> r == Fail(IndexError(-1)) && current == old(current) && trace == old(trace)
    {
      r := SwitchToWindow(-1);
    }

    /**
     * `close_current_window()`: close the current window, then switch to the
     * first remaining one if any remain. Closing a window that is already
     * gone raises the driver's `NoSuchWindowException`.
     */
    method CloseCurrentWindow() returns (r: Outcome<Error>)
      requires Valid()
      modifies this`handles, this`current, this`trace
      ensures Valid()
      ensures old(current) !in old(handles) ==>
                r == Fail(NoSuchWindow(old(current))) &&
                handles == old(handles) && current == old(current) && trace == old(trace)
      ensures old(current) in old(handles) ==>
                r == Pass && handles == Remove(old(handles), old(current)) &&
                |handles| == |old(handles)| - 1 && old(current) !in handles
      ensures old(current) in old(handles) && handles != [] ==>
                current == handles[0] &&
                trace == old(trace) + [CloseWindow(old(current)), Action.SwitchToWindow(handles[0])]
      ensures old(current) in old(handles) && handles == [] ==>
                current == old(current) && trace == old(trace) + [CloseWindow(old(current))]
    {
      if current !in handles {
        return Fail(NoSuchWindow(current));
      }
      var closing := current;
      handles := Remove(handles, closing);
      trace := trace + [CloseWindow(closing)];
      if handles != [] {
        current := handles[0];
        trace := trace + [Action.SwitchToWindow(current)];
      }
      r := Pass;
    }

    /** `get_window_count()`: the number of open windows. */
    method GetWindowCount() returns (count: nat)
      ensures count == |handles|
    {
      count := |handles|;
    }
  }
}
