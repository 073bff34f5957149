/** ECommerceSearchResultsPage: queries over the page a search led to. */
module SearchResults {
  import opened Strings
  import opened Browser
  import opened BasePage

  const SEARCH_RESULTS := ByClassName("product-thumb")
  const PRODUCT_NAMES := ByXPath("//h4[contains(@class, 'title')] | //div[contains(@class, 'name')]")
  const NO_RESULTS_MESSAGE := ByXPath("//*[contains(text(), 'no results') or contains(text(), 'No results')]")
  /** The marker isPageLoaded looks for in the current URL. */
  const SEARCH_URL_PART := "search"

  /** The page object returned by a search; it holds only the driver. */
  class SearchResultsPage {
    const driver: Driver

    constructor (driver: Driver)
      ensures this.driver == driver
    {
      this.driver := driver;
    }
  }

  /** getSearchResults: every product-thumb element. */
  function GetSearchResults(p: Page): (results: seq<Element>)
    ensures SEARCH_RESULTS in p.matches ==> results == p.matches[SEARCH_RESULTS]
    ensures SEARCH_RESULTS !in p.matches ==> results == []
  {
    FindElements(p, SEARCH_RESULTS)
  }

  /** hasResults: some product-thumb element is present, whatever its visibility. */
  function HasResults(p: Page): (found: bool)
    ensures found <==> FindElement(p, SEARCH_RESULTS).Success?
  {
    GetSearchResults(p) != []
  }

  /** The stream anyMatch of containsProduct: some element's lower-cased text contains the lower-cased name. */
  function AnyTextContains(es: seq<Element>, name: string): (found: bool)
    ensures found <==> exists i :: 0 <= i < |es| && Contains(ToLower(es[i].text), ToLower(name))
  {
    if es == [] then false
    else if Contains(ToLower(es[0].text), ToLower(name)) then true
    else
      var rest := AnyTextContains(es[1..], name);
      assert forall i :: 1 <= i < |es| ==> es[i] == es[1..][i - 1];
      rest
  }

  /** containsProduct: a case-insensitive substring match against every product-name element. */
  function ContainsProduct(p: Page, name: string): (found: bool)
    ensures found ==> FindElements(p, PRODUCT_NAMES) != []
    ensures found <==> exists i :: 0 <= i < |FindElements(p, PRODUCT_NAMES)|
                                  && Contains(ToLower(FindElements(p, PRODUCT_NAMES)[i].text), ToLower(name))
  {
    AnyTextContains(FindElements(p, PRODUCT_NAMES), name)
  }

  /** The match does not depend on the case of the name searched for. */
  lemma ContainsProductIgnoresCase(p: Page, name: string)
    ensures ContainsProduct(p, name) == ContainsProduct(p, ToLower(name))
  {
    ToLowerIdempotent(name);
  }

  /** The empty name is contained in every title, so it matches exactly when a product name is present. */
  lemma EmptyNameMatchesAnyProduct(p: Page)
    ensures ContainsProduct(p, "") <==> FindElements(p, PRODUCT_NAMES) != []
  {
    var es := FindElements(p, PRODUCT_NAMES);
    if es != [] {
      assert ToLower("") == "";
      assert OccursAt(ToLower(es[0].text), ToLower(""), 0);
    }
  }

  /**
   * isPageLoaded: deliberately permissive, it holds on a populated page, on an empty page whose URL
   * mentions "search", and on a page showing the no-results message.
   */
  function IsPageLoaded(p: Page): (loaded: bool)
    ensures HasResults(p) ==> loaded
    ensures Contains(p.url, SEARCH_URL_PART) ==> loaded
    ensures IsElementDisplayed(p, NO_RESULTS_MESSAGE) ==> loaded
    ensures loaded ==> Contains(p.url, "search") || FindElements(p, SEARCH_RESULTS) != []
                       || IsElementDisplayed(p, NO_RESULTS_MESSAGE)
  {
    Contains(p.url, SEARCH_URL_PART) || HasResults(p) || IsElementDisplayed(p, NO_RESULTS_MESSAGE)
  }

  /** A search that found nothing still counts as a loaded results page when the URL says "search". */
  lemma EmptySearchStillLoaded(p: Page, i: nat)
    requires FindElements(p, SEARCH_RESULTS) == []
    requires OccursAt(p.url, "search", i)
    ensures !HasResults(p) && IsPageLoaded(p)
  {
  }
}
