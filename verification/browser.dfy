/**
 * The remote browser session as the harness sees it. Everything Selenium does is an oracle:
 * the page the session currently shows is a snapshot (`Page`), every call that acts on the
 * browser is a `Command` appended to the session's log, and how the site answers a command is
 * the session's `react` function.
 */
module Browser {

  /** A `By` locator, kept as an opaque token: the strategy and its selector text. */
  datatype Locator =
    | ByName(name: string)
    | ByXPath(xpath: string)
    | ByCss(css: string)
    | ByClassName(className: string)

  /** One element the browser matched: its identity, visibility, enabled state and visible text. */
  datatype Element = Element(id: nat, displayed: bool, enabled: bool, text: string)

  /** An argument passed to JavascriptExecutor.executeScript. */
  datatype ScriptArg = Text(s: string) | Elem(e: Element)

  /** A call that acts on the browser. */
  datatype Command =
    | Navigate(url: string)
    | Click(target: Element)
    | Clear(target: Element)
    | SendKeys(target: Element, keys: string)
    | Script(code: string, args: seq<ScriptArg>)
    | SetImplicitWait(seconds: int)
    | SetPageLoadTimeout(seconds: int)
    | Maximize
    | Quit

  /** A capability value: a string, a boolean, an integer or a nested options map. */
  datatype CapValue =
    | Str(s: string)
    | Flag(b: bool)
    | Num(n: int)
    | Options(opts: map<string, CapValue>)

  type Capabilities = map<string, CapValue>

  /**
   * What the browser currently shows: URL, title, document.readyState, the elements each
   * locator matches (in document order; a locator that is not a key matches nothing), and
   * whether executeScript currently returns normally.
   */
  datatype Page = Page(
    url: string,
    title: string,
    readyState: string,
    matches: map<Locator, seq<Element>>,
    scriptsRun: bool)

  /** Why a WebDriver call raised. */
  datatype Failure =
    | Timeout(locator: Locator)   // a WebDriverWait on this locator gave up
    | NoSuchElement(locator: Locator)
    | ScriptFailed                // executeScript raised
    | NotReady                    // the document never reached readyState "complete"
    | NullDriver                  // a page object was built over a null driver

  /** The page after the site has answered `cmds` in order. */
  function Replay(react: (Page, Command) -> Page, p: Page, cmds: seq<Command>): Page
    decreases |cmds|
  {
    if cmds == [] then p else Replay(react, react(p, cmds[0]), cmds[1..])
  }

  /** Answering `a` and then `b` is answering `a + b`. */
  lemma {:induction false} ReplayAppend(react: (Page, Command) -> Page, p: Page, a: seq<Command>, b: seq<Command>)
    ensures Replay(react, Replay(react, p, a), b) == Replay(react, p, a + b)
    decreases |a|
  {
    if a != [] {
      assert (a + b)[0] == a[0] && (a + b)[1..] == a[1..] + b;
      ReplayAppend(react, react(p, a[0]), a[1..], b);
    } else {
      assert a + b == b;
    }
  }

  /** One remote WebDriver session. */
  class Driver {
    /** The identifier the grid gave the session. */
    const sessionId: string
    /** The capabilities the session was requested with. */
    const capabilities: Capabilities
    /** How the site answers each command. */
    const react: (Page, Command) -> Page
    /** Whether driver.quit() returns normally. */
    const quitSucceeds: bool

    var page: Page
    var log: seq<Command>

    constructor (sessionId: string, capabilities: Capabilities, start: Page,
                 react: (Page, Command) -> Page, quitSucceeds: bool)
      ensures this.sessionId == sessionId && this.capabilities == capabilities
      ensures this.react == react && this.quitSucceeds == quitSucceeds
      ensures page == start && log == []
    {
      this.sessionId := sessionId;
      this.capabilities := capabilities;
      this.react := react;
      this.quitSucceeds := quitSucceeds;
      page := start;
      log := [];
    }

    /** Whether issuing `cmd` on page `p` returns normally: only scripts and quit can raise. */
    predicate Succeeds(p: Page, cmd: Command)
    {
      match cmd
      case Script(_, _) => p.scriptsRun
      case Quit => quitSucceeds
      case _ => true
    }

    /** The session has issued exactly `cmds` since it showed `page0` with log `log0`. */
    ghost predicate Advanced(log0: seq<Command>, page0: Page, cmds: seq<Command>)
      reads this
    {
      log == log0 + cmds && page == Replay(react, page0, cmds)
    }

    /** Sends one command to the browser; `ok` is false when the call raised. */
    method Issue(cmd: Command) returns (ok: bool)
      modifies this
      ensures Advanced(old(log), old(page), [cmd])
      ensures ok == Succeeds(old(page), cmd)
    {
      ok := Succeeds(page, cmd);
      log := log + [cmd];
      page := react(page, cmd);
    }
  }
}
