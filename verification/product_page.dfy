/** ECommerceProductPage: the best-effort add-to-cart sequence and the page's predicates. */
module Product {
  import opened Wrappers
  import opened Browser
  import opened BasePage

  const ADD_TO_CART_BUTTON := ByCss("button.btn-cart")
  const ADD_TO_CART_BUTTON_ALT := ByCss("button.button-cart")
  const ADD_TO_CART_BUTTON_BROAD := ByCss("button.btn-secondary.btn-block")
  const PRODUCT_TITLE := ByXPath(
    "//h1[contains(@class, 'page-title')] | //h1 | //div[contains(@class, 'product-title')] | "
    + "//*[@class='page-title-wrapper product']//h1")
  const SUCCESS_MESSAGE := ByXPath(
    "//div[contains(@class, 'alert-success')] | //*[contains(text(), 'Success')] | "
    + "//div[contains(@class, 'message-success')] | //div[contains(text(), 'added to') and contains(text(), 'cart')]")

  /** The standard selectors, in the order addToCart tries them. */
  const ADD_TO_CART_CHAIN := [ADD_TO_CART_BUTTON, ADD_TO_CART_BUTTON_ALT, ADD_TO_CART_BUTTON_BROAD]

  const SCROLL_INTO_VIEW := "arguments[0].scrollIntoView(true);"
  const SCRIPT_CLICK := "arguments[0].click();"

  /**
   * The commands addToCart sends from page `p`: a click on the first standard selector that is
   * displayed and clickable; failing all three, the script fallback on the primary button (scroll
   * into view, then, if that returned, a script click); nothing when the primary button is absent.
   */
  function AddToCartCommands(p: Page): (cmds: seq<Command>)
    ensures |cmds| <= 2
    ensures cmds == [] <==>
      (forall j :: 0 <= j < |ADD_TO_CART_CHAIN| ==> WaitFor(p, ADD_TO_CART_CHAIN[j], Clickable).Failure?)
      && FindElements(p, ADD_TO_CART_BUTTON) == []
  {
    match FirstMatch(p, ADD_TO_CART_CHAIN, Clickable)
    case Some((_, e)) => [Command.Click(e)]
    case None =>
      match FindElement(p, ADD_TO_CART_BUTTON)
      case Failure(_) => []
      case Success(button) =>
        [Script(SCROLL_INTO_VIEW, [Elem(button)])]
          + if p.scriptsRun then [Script(SCRIPT_CLICK, [Elem(button)])] else []
  }

  /**
   * Selectors are tried in strict order: when selector k is the first that is clickable, addToCart
   * clicks its element and nothing else, whatever the later selectors show.
   */
  lemma ClicksFirstClickableSelector(p: Page, k: nat)
    requires k < |ADD_TO_CART_CHAIN|
    requires WaitFor(p, ADD_TO_CART_CHAIN[k], Clickable).Success?
    requires forall j :: 0 <= j < k ==> WaitFor(p, ADD_TO_CART_CHAIN[j], Clickable).Failure?
    ensures AddToCartCommands(p) == [Command.Click(FindElements(p, ADD_TO_CART_CHAIN[k])[0])]
  {
    var m := FirstMatch(p, ADD_TO_CART_CHAIN, Clickable);
    assert m.Some? && m.value.0 == k;
  }

  /**
   * The shape of every addToCart: at most one standard click, and the script fallback only when no
   * standard selector was clickable, always on the primary button, scroll first.
   */
  lemma AddToCartShape(p: Page)
    ensures var cmds := AddToCartCommands(p);
      && |cmds| <= 2
      && (forall i :: 0 <= i < |cmds| && cmds[i].Click? ==> cmds == [cmds[i]])
      && (cmds != [] && cmds[0].Script? ==>
            && (forall j :: 0 <= j < |ADD_TO_CART_CHAIN| ==> WaitFor(p, ADD_TO_CART_CHAIN[j], Clickable).Failure?)
            && cmds[0] == Script(SCROLL_INTO_VIEW, [Elem(FindElements(p, ADD_TO_CART_BUTTON)[0])])
            && (|cmds| == 2 ==> p.scriptsRun && cmds[1] == Script(SCRIPT_CLICK, [Elem(FindElements(p, ADD_TO_CART_BUTTON)[0])])))
  {
  }

  /**
   * When every standard selector fails and the primary button is present, addToCart falls through
   * to the script path: scroll the primary into view, then click it by script if scripts run.
   */
  lemma FallsThroughToScript(p: Page)
    requires forall j :: 0 <= j < |ADD_TO_CART_CHAIN| ==> WaitFor(p, ADD_TO_CART_CHAIN[j], Clickable).Failure?
    requires FindElements(p, ADD_TO_CART_BUTTON) != []
    ensures var b := FindElements(p, ADD_TO_CART_BUTTON)[0];
      AddToCartCommands(p) ==
        [Script(SCROLL_INTO_VIEW, [Elem(b)])] + if p.scriptsRun then [Script(SCRIPT_CLICK, [Elem(b)])] else []
  {
    assert FirstMatch(p, ADD_TO_CART_CHAIN, Clickable).None?;
  }

  /**
   * A displayed primary button whose click wait fails (it is disabled) does not stop the sequence:
   * a clickable alternative selector is clicked instead.
   */
  lemma DisabledPrimaryFallsToAlternative(p: Page)
    requires IsElementDisplayed(p, ADD_TO_CART_BUTTON) && !FindElements(p, ADD_TO_CART_BUTTON)[0].enabled
    requires WaitFor(p, ADD_TO_CART_BUTTON_ALT, Clickable).Success?
    ensures AddToCartCommands(p) == [Command.Click(FindElements(p, ADD_TO_CART_BUTTON_ALT)[0])]
  {
    ClicksFirstClickableSelector(p, 1);
  }

  /** isSuccessMessageDisplayed: never raises; whether the first success-message match is displayed. */
  function IsSuccessMessageDisplayed(p: Page): (shown: bool)
    ensures shown <==> FindElements(p, SUCCESS_MESSAGE) != [] && FindElements(p, SUCCESS_MESSAGE)[0].displayed
  {
    IsElementDisplayed(p, SUCCESS_MESSAGE)
  }

  /** isPageLoaded: the primary add-to-cart button and the product title are both displayed. */
  function IsPageLoaded(p: Page): (loaded: bool)
    ensures loaded <==> WaitFor(p, ADD_TO_CART_BUTTON, Visible).Success? && WaitFor(p, PRODUCT_TITLE, Visible).Success?
  {
    IsElementDisplayed(p, ADD_TO_CART_BUTTON) && IsElementDisplayed(p, PRODUCT_TITLE)
  }

  /** On a loaded product page whose primary button is enabled, addToCart clicks that button directly. */
  lemma LoadedPageClicksPrimary(p: Page)
    requires IsPageLoaded(p) && FindElements(p, ADD_TO_CART_BUTTON)[0].enabled
    ensures AddToCartCommands(p) == [Command.Click(FindElements(p, ADD_TO_CART_BUTTON)[0])]
  {
    ClicksFirstClickableSelector(p, 0);
  }

  /** The product page object; it holds only the driver. */
  class ProductPage {
    const driver: Driver

    constructor (driver: Driver)
      ensures this.driver == driver
    {
      this.driver := driver;
    }

    /** waitForPageToLoad: waits for the product title; the outcome is only logged, never raised. */
    method WaitForPageToLoad() returns (seen: bool)
      ensures seen <==> IsElementDisplayed(driver.page, PRODUCT_TITLE)
    {
      seen := WaitFor(driver.page, PRODUCT_TITLE, Visible).Success?;
    }

    /**
     * One standard-selector attempt: click only when displayed; a failing click is swallowed and
     * leaves `clicked` false.
     */
    method TryStandard(loc: Locator) returns (clicked: bool)
      modifies driver
      ensures clicked <==> WaitFor(old(driver.page), loc, Clickable).Success?
      ensures clicked ==>
        driver.Advanced(old(driver.log), old(driver.page), [Command.Click(FindElements(old(driver.page), loc)[0])])
      ensures !clicked ==> driver.log == old(driver.log) && driver.page == old(driver.page)
    {
      clicked := false;
      if IsElementDisplayed(driver.page, loc) {
        var r := BasePage.Click(driver, loc);
        clicked := r.Pass?;
      }
    }

    /**
     * addToCart: never raises; it sends exactly the commands AddToCartCommands prescribes for the
     * page shown when it was called.
     */
    method AddToCart()
      modifies driver
      ensures driver.Advanced(old(driver.log), old(driver.page), AddToCartCommands(old(driver.page)))
    {
      var _ := WaitForPageToLoad();   // a failure only produces a warning
      ghost var p := driver.page;
      var clicked := TryStandard(ADD_TO_CART_BUTTON);
      if clicked {
        ClicksFirstClickableSelector(p, 0);
      }
      if !clicked {
        clicked := TryStandard(ADD_TO_CART_BUTTON_ALT);
        if clicked {
          ClicksFirstClickableSelector(p, 1);
        }
      }
      if !clicked {
        clicked := TryStandard(ADD_TO_CART_BUTTON_BROAD);
        if clicked {
          ClicksFirstClickableSelector(p, 2);
        }
      }
      if !clicked {
        ScriptClickFallback();
      }
    }

    /**
     * The last resort of addToCart once no selector is clickable: scroll the primary button into
     * view and click it by script; a missing button or a failing script ends it quietly.
     */
    method ScriptClickFallback()
      requires FirstMatch(driver.page, ADD_TO_CART_CHAIN, Clickable).None?
      modifies driver
      ensures driver.Advanced(old(driver.log), old(driver.page), AddToCartCommands(old(driver.page)))
    {
      ghost var p := driver.page;
      match FindElement(driver.page, ADD_TO_CART_BUTTON)
      case Failure(_) =>
        // findElement raised: the failure and the page title and URL are logged
      case Success(button) =>
        var scrolled := driver.Issue(Script(SCROLL_INTO_VIEW, [Elem(button)]));
        if scrolled {
          // Thread.sleep(500) lets the scroll finish
          var _ := driver.Issue(Script(SCRIPT_CLICK, [Elem(button)]));
          ReplayAppend(driver.react, p, [Script(SCROLL_INTO_VIEW, [Elem(button)])], [Script(SCRIPT_CLICK, [Elem(button)])]);
        } else {
          assert AddToCartCommands(p) == [Script(SCROLL_INTO_VIEW, [Elem(button)])];
        }
    }
  }
}
