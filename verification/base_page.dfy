/**
 * The wait-based element primitives every page object shares (BasePage). Queries are functions
 * of the page the session currently shows; a WebDriverWait is evaluated on that snapshot, so it
 * succeeds exactly when its condition holds there.
 */
module BasePage {
  import opened Wrappers
  import opened Browser

  /** The ready state waitForPageLoad waits for. */
  const READY := "complete"

  /** The ExpectedConditions the page objects wait on. */
  datatype Condition =
    | Visible     // visibilityOfElementLocated
    | Clickable   // elementToBeClickable: visible and enabled

  predicate Meets(e: Element, c: Condition)
  {
    match c
    case Visible => e.displayed
    case Clickable => e.displayed && e.enabled
  }

  /** driver.findElements: every match in document order, possibly none; it never raises. */
  function FindElements(p: Page, loc: Locator): (es: seq<Element>)
    ensures loc !in p.matches ==> es == []
    ensures loc in p.matches ==> es == p.matches[loc]
  {
    if loc in p.matches then p.matches[loc] else []
  }

  /** driver.findElement: the first match, or NoSuchElementException when nothing matches. */
  function FindElement(p: Page, loc: Locator): (r: Result<Element, Failure>)
    ensures r.Success? <==> FindElements(p, loc) != []
    ensures r.Success? ==> r.value == FindElements(p, loc)[0]
    ensures r.Failure? ==> r.error == NoSuchElement(loc)
  {
    var es := FindElements(p, loc);
    if es == [] then Failure(NoSuchElement(loc)) else Success(es[0])
  }

  /** wait.until(condition on locator): the located element once it meets the condition, else a timeout. */
  function WaitFor(p: Page, loc: Locator, c: Condition): (r: Result<Element, Failure>)
    ensures r.Success? <==> FindElements(p, loc) != [] && Meets(FindElements(p, loc)[0], c)
    ensures r.Success? ==> r.value == FindElements(p, loc)[0]
    ensures r.Failure? ==> r.error == Timeout(loc)
  {
    match FindElement(p, loc)
    case Success(e) => if Meets(e, c) then Success(e) else Failure(Timeout(loc))
    case Failure(_) => Failure(Timeout(loc))
  }

  /** A clickable element is a visible one: the two waits then return the same element. */
  lemma ClickableIsVisible(p: Page, loc: Locator)
    requires WaitFor(p, loc, Clickable).Success?
    ensures WaitFor(p, loc, Visible) == WaitFor(p, loc, Clickable)
  {
  }

  /** isElementDisplayed: never raises; true exactly when the visibility wait would succeed. */
  function IsElementDisplayed(p: Page, loc: Locator): (shown: bool)
    ensures shown <==> WaitFor(p, loc, Visible).Success?
  {
    match FindElement(p, loc)
    case Success(e) => e.displayed
    case Failure(_) => false
  }

  /** getText: the text of the element the visibility wait returns; raises when that wait fails. */
  function GetText(p: Page, loc: Locator): (r: Result<string, Failure>)
    ensures r.Success? <==> IsElementDisplayed(p, loc)
    ensures r.Success? ==> r.value == FindElements(p, loc)[0].text
    ensures r.Failure? ==> r.error == Timeout(loc)
  {
    match WaitFor(p, loc, Visible)
    case Success(e) => Success(e.text)
    case Failure(f) => Failure(f)
  }

  /** waitForPageLoad: returns once document.readyState is "complete"; the script call itself may raise. */
  function WaitForPageLoad(p: Page): (r: Outcome<Failure>)
    ensures r.Pass? <==> p.scriptsRun && p.readyState == READY
    ensures r.Fail? ==> r.error == ScriptFailed || r.error == NotReady
  {
    if !p.scriptsRun then Fail(ScriptFailed)
    else if p.readyState == READY then Pass
    else Fail(NotReady)
  }

  /**
   * A locator fallback chain: the first member whose wait succeeds, with its index; members after
   * it play no part in the answer.
   */
  function FirstMatch(p: Page, chain: seq<Locator>, c: Condition): (r: Option<(nat, Element)>)
    ensures r.Some? ==> r.value.0 < |chain| && WaitFor(p, chain[r.value.0], c) == Success(r.value.1)
    ensures r.Some? ==> forall j :: 0 <= j < r.value.0 ==> WaitFor(p, chain[j], c).Failure?
    ensures r.None? <==> forall j :: 0 <= j < |chain| ==> WaitFor(p, chain[j], c).Failure?
    decreases |chain|
  {
    if chain == [] then None
    else match WaitFor(p, chain[0], c)
      case Success(e) => Some((0, e))
      case Failure(_) =>
        match FirstMatch(p, chain[1..], c)
        case None => None
        case Some((k, e)) => Some((k + 1, e))
  }

  /** click: clicks the element the clickable wait returns; when that wait fails nothing is clicked. */
  method Click(d: Driver, loc: Locator) returns (r: Outcome<Failure>)
    modifies d
    ensures WaitFor(old(d.page), loc, Clickable).Success? ==>
      r.Pass? && d.Advanced(old(d.log), old(d.page), [Command.Click(WaitFor(old(d.page), loc, Clickable).value)])
    ensures WaitFor(old(d.page), loc, Clickable).Failure? ==>
      r == Fail(Timeout(loc)) && d.log == old(d.log) && d.page == old(d.page)
  {
    match WaitFor(d.page, loc, Clickable)
    case Success(e) =>
      var _ := d.Issue(Command.Click(e));
      r := Pass;
    case Failure(f) =>
      r := Fail(f);
  }

  /** navigateTo: a single navigation command, nothing else. */
  method NavigateTo(d: Driver, url: string)
    modifies d
    ensures d.Advanced(old(d.log), old(d.page), [Navigate(url)])
  {
    var _ := d.Issue(Navigate(url));
  }
}
