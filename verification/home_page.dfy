/** ECommerceHomePage: the landing page's fallback chains, queries and actions. */
module Home {
  import opened Wrappers
  import opened Strings
  import opened Browser
  import opened BasePage
  import Configuration
  import SearchResults
  import Product

  const SEARCH_INPUT := ByName("search")
  const SEARCH_INPUT_ALT := ByXPath("//input[@placeholder='Search']")
  const SEARCH_INPUT_BROAD := ByXPath("//input[contains(@class, 'search')] | //input[contains(@placeholder, 'search')]")
  /** The search-input tiers, in the order getSearchInput tries them. */
  const SEARCH_CHAIN := [SEARCH_INPUT, SEARCH_INPUT_ALT, SEARCH_INPUT_BROAD]

  const LOGO := ByXPath("//img[contains(@title, 'Your Store')] | //a[contains(@class, 'navbar-brand')]")
  const MAIN_MENU := ByXPath("//ul[contains(@class, 'nav')]")
  const FEATURED_PRODUCTS := ByXPath("//div[contains(@class, 'product-thumb')] | //div[contains(@class, 'product-layout')]")
  const PRODUCT_TITLES := ByXPath(
    "//h4[contains(@class, 'title')] | //div[contains(@class, 'name')] | //a[contains(@class, 'product-title')]")
  const CART_COUNT := ByXPath("//span[contains(@class, 'cart-count')] | //span[contains(@class, 'badge')]")
  /** The site marker isPageLoaded looks for in the current URL. */
  const EXPECTED_URL_PART := "ecommerce-playground"
  /** Keys.ENTER as sendKeys transmits it. */
  const ENTER := "\U{E007}"

  /** The locator clickProduct builds for a product name. */
  function ProductLink(productName: string): Locator
  {
    ByXPath("//h4[contains(text(), '" + productName + "')] | //a[contains(text(), '" + productName + "')]")
  }

  /**
   * getSearchInput: the element of the first tier whose visibility wait succeeds; it raises, with the
   * last tier's timeout, only when no tier is displayed.
   */
  function GetSearchInput(p: Page): (r: Result<Element, Failure>)
    ensures r.Success? <==> exists k :: 0 <= k < |SEARCH_CHAIN| && IsElementDisplayed(p, SEARCH_CHAIN[k])
    ensures r.Failure? ==> r.error == Timeout(SEARCH_INPUT_BROAD)
  {
    match FirstMatch(p, SEARCH_CHAIN, Visible)
    case Some((_, e)) => Success(e)
    case None => Failure(Timeout(SEARCH_INPUT_BROAD))
  }

  /** The first displayed tier wins: later tiers play no part, earlier ones were not displayed. */
  lemma SearchInputIsFirstDisplayedTier(p: Page, k: nat)
    requires k < |SEARCH_CHAIN| && IsElementDisplayed(p, SEARCH_CHAIN[k])
    requires forall j :: 0 <= j < k ==> !IsElementDisplayed(p, SEARCH_CHAIN[j])
    ensures GetSearchInput(p) == Success(FindElements(p, SEARCH_CHAIN[k])[0])
  {
    var m := FirstMatch(p, SEARCH_CHAIN, Visible);
    assert m.Some? && m.value.0 == k;
  }

  /** isSearchAvailable: never raises; true exactly when some tier of the chain is displayed. */
  function IsSearchAvailable(p: Page): (available: bool)
    ensures available <==> exists k :: 0 <= k < |SEARCH_CHAIN| && IsElementDisplayed(p, SEARCH_CHAIN[k])
  {
    GetSearchInput(p).Success?
  }

  /** isLogoDisplayed. */
  function IsLogoDisplayed(p: Page): (shown: bool)
    ensures shown <==> FindElements(p, LOGO) != [] && FindElements(p, LOGO)[0].displayed
  {
    IsElementDisplayed(p, LOGO)
  }

  /** isMainMenuDisplayed. */
  function IsMainMenuDisplayed(p: Page): (shown: bool)
    ensures shown <==> FindElements(p, MAIN_MENU) != [] && FindElements(p, MAIN_MENU)[0].displayed
  {
    IsElementDisplayed(p, MAIN_MENU)
  }

  /**
   * isPageLoaded: never raises; the URL carries the site marker, some search tier is displayed, and
   * the logo or the main menu is displayed.
   */
  function IsPageLoaded(p: Page): (loaded: bool)
    ensures loaded <==>
      && Contains(p.url, "ecommerce-playground")
      && (exists k :: 0 <= k < |SEARCH_CHAIN| && IsElementDisplayed(p, SEARCH_CHAIN[k]))
      && (WaitFor(p, LOGO, Visible).Success? || WaitFor(p, MAIN_MENU, Visible).Success?)
  {
    Contains(p.url, EXPECTED_URL_PART) && IsSearchAvailable(p) && (IsLogoDisplayed(p) || IsMainMenuDisplayed(p))
  }

  /** getCartCount: the cart badge's text when it is displayed, "0" otherwise; it never raises. */
  function GetCartCount(p: Page): (count: string)
    ensures IsElementDisplayed(p, CART_COUNT) ==> count == FindElements(p, CART_COUNT)[0].text
    ensures !IsElementDisplayed(p, CART_COUNT) ==> count == "0"
  {
    match GetText(p, CART_COUNT)
    case Success(text) => text
    case Failure(_) => "0"
  }

  /** The visible texts of a list of elements, in page order. */
  function TextsOf(es: seq<Element>): seq<string>
  {
    seq(|es|, i requires 0 <= i < |es| => es[i].text)
  }

  /**
   * The stream filter of getFeaturedProductNames: the element texts that are non-blank after
   * trimming, in page order; never more of them than there are elements.
   */
  function NonBlankTexts(es: seq<Element>): (texts: seq<string>)
    ensures |texts| <= |es|
  {
    if es == [] then [] else Kept(es[0]) + NonBlankTexts(es[1..])
  }

  /** One element's contribution to the filter. */
  function Kept(e: Element): seq<string>
  {
    if IsBlank(e.text) then [] else [e.text]
  }

  /** The filter keeps exactly the non-blank texts: nothing blank survives and nothing non-blank is lost. */
  lemma {:induction false} NonBlankTextsMembers(es: seq<Element>)
    ensures forall t :: t in NonBlankTexts(es) <==> t in TextsOf(es) && !IsBlank(t)
  {
    if es != [] {
      NonBlankTextsMembers(es[1..]);
      assert TextsOf(es) == [es[0].text] + TextsOf(es[1..]);
    }
  }

  /** The filter keeps the order: filtering a concatenation concatenates the filtered parts. */
  lemma {:induction false} NonBlankTextsAppend(a: seq<Element>, b: seq<Element>)
    ensures NonBlankTexts(a + b) == NonBlankTexts(a) + NonBlankTexts(b)
  {
    if a == [] {
      assert a + b == b;
    } else {
      HeadTailOfAppend(a, b);
      NonBlankTextsAppend(a[1..], b);
      var h, x, y := Kept(a[0]), NonBlankTexts(a[1..]), NonBlankTexts(b);
      assert NonBlankTexts(a + b) == h + (x + y);
      AppendAssoc(h, x, y);
    }
  }

  /** Concatenation of text lists is associative. */
  lemma AppendAssoc(h: seq<string>, x: seq<string>, y: seq<string>)
    ensures h + (x + y) == (h + x) + y
  {
  }

  /** The head and tail of a + b, for a non-empty a. */
  lemma HeadTailOfAppend(a: seq<Element>, b: seq<Element>)
    requires a != []
    ensures (a + b)[0] == a[0] && (a + b)[1..] == a[1..] + b
  {
  }

  /** The positions from `n` on whose text the filter keeps, in ascending order. */
  function KeptIndices(es: seq<Element>, n: nat): seq<nat>
    requires n <= |es|
    decreases |es| - n
  {
    if n == |es| then [] else (if IsBlank(es[n].text) then [] else [n]) + KeptIndices(es, n + 1)
  }

  /**
   * `texts` is the order-preserving selection of the non-blank texts of es[n..]: its j-th entry is the
   * text at position idx[j], the positions rise strictly, and they are exactly the non-blank ones.
   */
  predicate SelectsNonBlank(es: seq<Element>, n: nat, idx: seq<nat>, texts: seq<string>)
  {
    && |idx| == |texts|
    && (forall j :: 0 <= j < |idx| ==> n <= idx[j] < |es| && texts[j] == es[idx[j]].text)
    && (forall j, k :: 0 <= j < k < |idx| ==> idx[j] < idx[k])
    && (forall i :: n <= i < |es| ==> (i in idx <==> !IsBlank(es[i].text)))
  }

  /** Putting a smaller position in front keeps a list of positions strictly rising. */
  lemma RisingCons(n: nat, idx: seq<nat>)
    requires forall j :: 0 <= j < |idx| ==> n < idx[j]
    requires forall j, k :: 0 <= j < k < |idx| ==> idx[j] < idx[k]
    ensures forall j, k :: 0 <= j < k < |[n] + idx| ==> ([n] + idx)[j] < ([n] + idx)[k]
  {
    var idx2 := [n] + idx;
    forall j, k | 0 <= j < k < |idx2|
      ensures idx2[j] < idx2[k]
    {
      assert idx2[k] == idx[k - 1];
      if j > 0 {
        assert idx2[j] == idx[j - 1];
      }
    }
  }

  /** A blank text at position n adds nothing to a selection of es[n + 1..]. */
  lemma SkipBlankSelects(es: seq<Element>, n: nat, idx: seq<nat>, texts: seq<string>)
    requires n < |es| && IsBlank(es[n].text)
    requires SelectsNonBlank(es, n + 1, idx, texts)
    ensures SelectsNonBlank(es, n, idx, texts)
  {
  }

  /** Putting position n and its text in front keeps every position paired with its own text. */
  lemma ConsPairs(es: seq<Element>, n: nat, idx: seq<nat>, texts: seq<string>)
    requires n < |es| && |idx| == |texts|
    requires forall j :: 0 <= j < |idx| ==> n + 1 <= idx[j] < |es| && texts[j] == es[idx[j]].text
    ensures forall j :: 0 <= j < |[n] + idx| ==>
      n <= ([n] + idx)[j] < |es| && ([es[n].text] + texts)[j] == es[([n] + idx)[j]].text
  {
    var idx2, texts2 := [n] + idx, [es[n].text] + texts;
    forall j | 0 <= j < |idx2|
      ensures n <= idx2[j] < |es| && texts2[j] == es[idx2[j]].text
    {
      if j > 0 {
        assert idx2[j] == idx[j - 1] && texts2[j] == texts[j - 1];
      }
    }
  }

  /** Putting a non-blank position n in front of the non-blank positions after it gives those from n on. */
  lemma ConsMembers(es: seq<Element>, n: nat, idx: seq<nat>)
    requires n < |es| && !IsBlank(es[n].text)
    requires forall i :: n + 1 <= i < |es| ==> (i in idx <==> !IsBlank(es[i].text))
    ensures forall i :: n <= i < |es| ==> (i in [n] + idx <==> !IsBlank(es[i].text))
  {
    forall i | n <= i < |es|
      ensures i in [n] + idx <==> !IsBlank(es[i].text)
    {
      InConsOf(n, idx, i);
    }
  }

  /** `i` is in [n] + idx exactly when it is n or in idx. */
  lemma InConsOf(n: nat, idx: seq<nat>, i: nat)
    ensures i in [n] + idx <==> i == n || i in idx
  {
  }

  /** A non-blank text at position n goes in front of a selection of es[n + 1..]. */
  lemma KeepNonBlankSelects(es: seq<Element>, n: nat, idx: seq<nat>, texts: seq<string>)
    requires n < |es| && !IsBlank(es[n].text)
    requires SelectsNonBlank(es, n + 1, idx, texts)
    ensures SelectsNonBlank(es, n, [n] + idx, [es[n].text] + texts)
  {
    ConsPairs(es, n, idx, texts);
    RisingCons(n, idx);
    ConsMembers(es, n, idx);
  }

  /** Position n, blank or not, extends a selection of es[n + 1..] to one of es[n..]. */
  lemma ConsSelects(es: seq<Element>, n: nat, idx: seq<nat>, texts: seq<string>)
    requires n < |es|
    requires SelectsNonBlank(es, n + 1, idx, texts)
    ensures SelectsNonBlank(es, n, (if IsBlank(es[n].text) then [] else [n]) + idx, Kept(es[n]) + texts)
  {
    if IsBlank(es[n].text) {
      assert [] + idx == idx && [] + texts == texts;
      SkipBlankSelects(es, n, idx, texts);
    } else {
      KeepNonBlankSelects(es, n, idx, texts);
    }
  }

  /** The filter is that selection: it keeps the non-blank texts in page order, duplicates included. */
  lemma {:induction false} NonBlankTextsSelects(es: seq<Element>, n: nat)
    requires n <= |es|
    ensures SelectsNonBlank(es, n, KeptIndices(es, n), NonBlankTexts(es[n..]))
    decreases |es| - n
  {
    if n == |es| {
      assert es[n..] == [];
    } else {
      NonBlankTextsSelects(es, n + 1);
      assert es[n..][0] == es[n] && es[n..][1..] == es[n + 1..];
      ConsSelects(es, n, KeptIndices(es, n + 1), NonBlankTexts(es[n + 1..]));
    }
  }

  /** getFeaturedProductNames: the non-blank product-title texts, in page order. */
  function GetFeaturedProductNames(p: Page): (names: seq<string>)
    ensures |names| <= |FindElements(p, PRODUCT_TITLES)|
    ensures SelectsNonBlank(FindElements(p, PRODUCT_TITLES), 0, KeptIndices(FindElements(p, PRODUCT_TITLES), 0), names)
  {
    var titles := FindElements(p, PRODUCT_TITLES);
    NonBlankTextsSelects(titles, 0);
    assert titles[0..] == titles;
    NonBlankTexts(titles)
  }

  /** areProductsDisplayed: some featured-product element is present. */
  function AreProductsDisplayed(p: Page): (shown: bool)
    ensures shown <==> FindElement(p, FEATURED_PRODUCTS).Success?
  {
    FindElements(p, FEATURED_PRODUCTS) != []
  }

  /** The landing page object; it holds only the driver. */
  class HomePage {
    const driver: Driver

    constructor (driver: Driver)
      ensures this.driver == driver
    {
      this.driver := driver;
    }

    /** navigateToHomepage: navigates to the storefront, then waits for the document to be ready. */
    method NavigateToHomepage() returns (r: Outcome<Failure>)
      modifies driver
      ensures driver.Advanced(old(driver.log), old(driver.page), [Navigate(Configuration.ECOMMERCE_BASE_URL)])
      ensures r == WaitForPageLoad(driver.page)
    {
      NavigateTo(driver, Configuration.ECOMMERCE_BASE_URL);
      r := WaitForPageLoad(driver.page);
    }

    /**
     * searchForProduct: on the element the search-input chain picks, clear, type the term, press
     * ENTER, in that order; then wait for the page. When no tier is displayed nothing is sent.
     */
    method SearchForProduct(term: string) returns (r: Result<SearchResults.SearchResultsPage, Failure>)
      modifies driver
      ensures GetSearchInput(old(driver.page)).Failure? ==>
        r == Failure(Timeout(SEARCH_INPUT_BROAD)) && driver.log == old(driver.log) && driver.page == old(driver.page)
      ensures GetSearchInput(old(driver.page)).Success? ==>
        var box := GetSearchInput(old(driver.page)).value;
        && driver.Advanced(old(driver.log), old(driver.page), [Clear(box), SendKeys(box, term), SendKeys(box, ENTER)])
        && (r.Success? <==> WaitForPageLoad(driver.page).Pass?)
        && (r.Success? ==> fresh(r.value) && r.value.driver == driver)
    {
      var input := GetSearchInput(driver.page);
      if input.Failure? {
        return Failure(input.error);
      }
      var box := input.value;
      ghost var p := driver.page;
      var _ := driver.Issue(Clear(box));
      var _ := driver.Issue(SendKeys(box, term));
      var _ := driver.Issue(SendKeys(box, ENTER));
      ReplayAppend(driver.react, p, [Clear(box)], [SendKeys(box, term)]);
      ReplayAppend(driver.react, p, [Clear(box), SendKeys(box, term)], [SendKeys(box, ENTER)]);
      var loaded := WaitForPageLoad(driver.page);
      if loaded.Fail? {
        return Failure(loaded.error);
      }
      var results := new SearchResults.SearchResultsPage(driver);
      r := Success(results);
    }

    /** clickProduct: clicks the product link named `productName` once clickable, then waits for the page. */
    method ClickProduct(productName: string) returns (r: Result<Product.ProductPage, Failure>)
      modifies driver
      ensures WaitFor(old(driver.page), ProductLink(productName), Clickable).Failure? ==>
        r == Failure(Timeout(ProductLink(productName))) && driver.log == old(driver.log)
        && driver.page == old(driver.page)
      ensures WaitFor(old(driver.page), ProductLink(productName), Clickable).Success? ==>
        && driver.Advanced(old(driver.log), old(driver.page),
                           [Command.Click(FindElements(old(driver.page), ProductLink(productName))[0])])
        && (r.Success? <==> WaitForPageLoad(driver.page).Pass?)
        && (r.Success? ==> fresh(r.value) && r.value.driver == driver)
    {
      var clicked := BasePage.Click(driver, ProductLink(productName));
      if clicked.Fail? {
        return Failure(clicked.error);
      }
      var loaded := WaitForPageLoad(driver.page);
      if loaded.Fail? {
        return Failure(loaded.error);
      }
      var product := new Product.ProductPage(driver);
      r := Success(product);
    }

    /**
     * clickFirstProduct: clicks the first product title only when there is one; with none it sends
     * nothing and still returns a product page.
     */
    method ClickFirstProduct() returns (r: Result<Product.ProductPage, Failure>)
      modifies driver
      ensures var titles := FindElements(old(driver.page), PRODUCT_TITLES);
        && driver.Advanced(old(driver.log), old(driver.page), if titles == [] then [] else [Command.Click(titles[0])])
        && (titles == [] ==> r.Success?)
        && (r.Success? ==> fresh(r.value) && r.value.driver == driver)
        && (r.Failure? ==> titles != [] && WaitForPageLoad(driver.page).Fail?)
    {
      var products := FindElements(driver.page, PRODUCT_TITLES);
      if products != [] {
        var _ := driver.Issue(Command.Click(products[0]));
        var loaded := WaitForPageLoad(driver.page);
        if loaded.Fail? {
          return Failure(loaded.error);
        }
      }
      var product := new Product.ProductPage(driver);
      r := Success(product);
    }
  }
}
