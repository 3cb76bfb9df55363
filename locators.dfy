/**
 * Locator names and their resolution (Pages/Basepage.py `_get_by_type`), the
 * errors the element action layer raises, and the locator registry that
 * `ConfigReader.readconfig` reads.
 */
module Locators {
  import opened Wrappers
  import opened Text

  /** The seven selection strategies of Selenium's `By`. */
  datatype Strategy = XPath | Id | Name | CssSelector | ClassName | LinkText | PartialLinkText

  /** The name suffix that selects each strategy. */
  function Suffix(s: Strategy): string {
    match s
    case XPath => "_XPATH"
    case Id => "_ID"
    case Name => "_NAME"
    case CssSelector => "_CSS"
    case ClassName => "_CLASS"
    case LinkText => "_LINKTEXT"
    case PartialLinkText => "_PARTIALLINKTEXT"
  }

  /** Every exception the action layer lets escape, as a value. */
  datatype Error =
    | UnsupportedLocatorType(locator: string)
    | NoSection(section: string)
    | NoOption(section: string, option: string)
    | Timeout(locator: string)
    | UnknownKey(keyName: string)
    | IndexError(index: int)
    | NoSuchWindow(handle: string)

  /** The message of the `ValueError` raised for a name with no known suffix. */
  function UnsupportedMessage(locator: string): (m: string)
    ensures EndsWith(m, locator)
  {
    var m := "Unsupported locator type: " + locator;
    EndsWithAppended("Unsupported locator type: ", locator);
    m
  }

  /**
   * `_get_by_type`: the suffixes are tried in the order XPATH, ID, NAME, CSS,
   * CLASS, LINKTEXT, PARTIALLINKTEXT and the first that matches decides.
   */
  function ByType(locator: string): (r: Result<Strategy, Error>)
    ensures r.Success? ==> EndsWith(locator, Suffix(r.value))
    ensures r.Failure? ==> r.error == UnsupportedLocatorType(locator)
    ensures r.Failure? <==> forall s: Strategy :: !EndsWith(locator, Suffix(s))
  {
    if EndsWith(locator, Suffix(XPath)) then Success(XPath)
    else if EndsWith(locator, Suffix(Id)) then Success(Id)
    else if EndsWith(locator, Suffix(Name)) then Success(Name)
    else if EndsWith(locator, Suffix(CssSelector)) then Success(CssSelector)
    else if EndsWith(locator, Suffix(ClassName)) then Success(ClassName)
    else if EndsWith(locator, Suffix(LinkText)) then Success(LinkText)
    else if EndsWith(locator, Suffix(PartialLinkText)) then Success(PartialLinkText)
    else Failure(UnsupportedLocatorType(locator))
  }

  /**
   * No suffix ends another one. In particular `_PARTIALLINKTEXT` does not end
   * with `_LINKTEXT` (the character before `LINKTEXT` is `L`, not `_`).
   */
  lemma SuffixesUnrelated(s: Strategy, t: Strategy)
    requires s != t
    ensures !EndsWith(Suffix(s), Suffix(t))
  {
  }

  /** A name ends with at most one of the seven suffixes, so the order of the tests never matters. */
  lemma {:induction false} AtMostOneSuffix(locator: string, s: Strategy, t: Strategy)
    requires EndsWith(locator, Suffix(s)) && EndsWith(locator, Suffix(t))
    ensures s == t
  {
    if s != t {
      if |Suffix(s)| <= |Suffix(t)| {
        EndsWithBoth(locator, Suffix(s), Suffix(t));
        SuffixesUnrelated(t, s);
      } else {
        EndsWithBoth(locator, Suffix(t), Suffix(s));
        SuffixesUnrelated(s, t);
      }
      assert false;
    }
  }

  /** A name resolves to a strategy exactly when it ends with that strategy's suffix. */
  lemma {:induction false} ByTypeIff(locator: string, s: Strategy)
    ensures ByType(locator) == Success(s) <==> EndsWith(locator, Suffix(s))
  {
    if EndsWith(locator, Suffix(s)) {
      var r := ByType(locator);
      assert r.Success?;
      AtMostOneSuffix(locator, r.value, s);
    }
  }

  /** Resolution depends only on the suffix: whatever comes before it is irrelevant. */
  lemma {:induction false} ByTypeOfSuffix(prefix: string, s: Strategy)
    ensures ByType(prefix + Suffix(s)) == Success(s)
  {
    EndsWithAppended(prefix, Suffix(s));
    ByTypeIff(prefix + Suffix(s), s);
  }

  /**
   * The locator registry as ConfigParser holds it after reading the file:
   * section name to option name to value. ConfigParser stores option names
   * lower-cased.
   */
  type Store = map<string, map<string, string>>

  /**
   * `ConfigReader.readconfig(section, key)`: `ConfigParser.get`, which lower-cases
   * the option name before looking it up and raises for a missing section or
   * option; the missing-option error carries the lower-cased name.
   */
  function ReadConfig(store: Store, section: string, key: string): (r: Result<string, Error>)
    ensures r.Success? <==> section in store && Lower(key) in store[section]
    ensures r.Success? ==> r.value == store[section][Lower(key)]
    ensures section !in store ==> r == Failure(NoSection(section))
    ensures section in store && Lower(key) !in store[section] ==> r == Failure(NoOption(section, Lower(key)))
  {
    if section !in store then Failure(NoSection(section))
    else if Lower(key) !in store[section] then Failure(NoOption(section, Lower(key)))
    else Success(store[section][Lower(key)])
  }

  /** Option names differing only in case read the same registry entry. */
  lemma ReadConfigIgnoresKeyCase(store: Store, section: string, key: string)
    ensures ReadConfig(store, section, Lower(key)).Success? == ReadConfig(store, section, key).Success?
    ensures ReadConfig(store, section, key).Success? ==>
              ReadConfig(store, section, Lower(key)).value == ReadConfig(store, section, key).value
  {
    LowerIsLowerCase(key);
  }
}
