/**
 * The sale-detection heuristic every store scraper shares: keyword
 * detection over the lower-cased page text, the "Up to N% off" or
 * "Sale active (...)" description, the generic product counter, the
 * per-store verdict rule and the exception wrapper around it.
 *
 * A page is abstracted to the text BeautifulSoup extracts from it and the
 * number of elements each CSS selector matches; a fetch is the HTML it
 * returned, if any.
 */
module Detection {
  import opened Util
  import opened Discount

  /** `re.search(pattern, text, re.IGNORECASE)`, which the model does not interpret. */
  type RegexSearch = (string, string) -> bool

  /** A parsed page: its text content and the element count of each CSS selector. */
  datatype Page = Page(text: string, selected: string -> nat)

  /** The result dictionary of a check; absent keys are `None`. */
  datatype Verdict = Verdict(
    active: bool,
    storeName: string,
    url: string,
    description: Option<string>,
    itemCount: Option<nat>,
    error: Option<string>)

  /** The keyword list a scraper uses when none is given. */
  const SaleKeywords: seq<string> := [
    "rea", "rabatt", "erbjudande", "kampanj", "prisneds\U{00E4}ttning", "slutrea", "mellanrea",
    "sale", "discount", "off", "clearance", "outlet", "reduced", "markdown", "promo", "deal",
    "\\d+\\s*%"
  ]

  /** The scraper constructor's `keywords or SALE_KEYWORDS`. */
  function EffectiveKeywords(given: Option<seq<string>>): (ks: seq<string>)
    ensures ks != []
    ensures given.Some? && given.value != [] ==> ks == given.value
    ensures (given.None? || given.value == []) ==> ks == SaleKeywords
  {
    if given.Some? && given.value != [] then given.value else SaleKeywords
  }

  /** A keyword is treated as a regular expression only if it starts with two backslashes. */
  predicate IsRegexKeyword(k: string)
  {
    |k| >= 2 && k[0] == '\\' && k[1] == '\\'
  }

  /** What one keyword contributes to the list of found keywords. */
  function KeywordFinding(k: string, lowered: string, search: RegexSearch): seq<string>
  {
    if IsRegexKeyword(k) then (if search(k, lowered) then ["discount percentage"] else [])
    else if Contains(lowered, Lower(k)) then [k]
    else []
  }

  /** `k` is detected in the lower-cased text. */
  predicate Hits(k: string, lowered: string, search: RegexSearch)
  {
    KeywordFinding(k, lowered, search) != []
  }

  /** The `found_keywords` list, in keyword-list order. */
  function FoundKeywords(keywords: seq<string>, lowered: string, search: RegexSearch): (found: seq<string>)
    ensures |found| <= |keywords|
    ensures found == [] <==> forall i | 0 <= i < |keywords| :: !Hits(keywords[i], lowered, search)
    ensures forall k | k in found :: k in keywords || k == "discount percentage"
  {
    if keywords == [] then []
    else
      var init := keywords[..|keywords| - 1];
      var k := keywords[|keywords| - 1];
      assert keywords == init + [k];
      FoundKeywords(init, lowered, search) + KeywordFinding(k, lowered, search)
  }

  /** For a list without regex entries, a keyword is found iff it occurs as a substring. */
  lemma {:induction false} FoundPlainKeywords(keywords: seq<string>, lowered: string, search: RegexSearch)
    requires forall i | 0 <= i < |keywords| :: !IsRegexKeyword(keywords[i])
    ensures forall k :: k in FoundKeywords(keywords, lowered, search) <==>
      k in keywords && Contains(lowered, Lower(k))
  {
    if keywords != [] {
      var init := keywords[..|keywords| - 1];
      var k := keywords[|keywords| - 1];
      assert keywords == init + [k];
      FoundPlainKeywords(init, lowered, search);
    }
  }

  /** Without regex entries the regex search is never consulted. */
  lemma {:induction false} PlainKeywordsIgnoreSearch(keywords: seq<string>, lowered: string,
                                                     s1: RegexSearch, s2: RegexSearch)
    requires forall i | 0 <= i < |keywords| :: !IsRegexKeyword(keywords[i])
    ensures FoundKeywords(keywords, lowered, s1) == FoundKeywords(keywords, lowered, s2)
  {
    if keywords != [] {
      PlainKeywordsIgnoreSearch(keywords[..|keywords| - 1], lowered, s1, s2);
    }
  }

  /** The default list has no regex entry: its `\d+\s*%` is searched for as literal text. */
  lemma DefaultKeywordsArePlain(lowered: string, search: RegexSearch)
    ensures forall i | 0 <= i < |SaleKeywords| :: !IsRegexKeyword(SaleKeywords[i])
    ensures Hits("\\d+\\s*%", lowered, search) <==> Contains(lowered, "\\d+\\s*%")
  {
    assert Lower("\\d+\\s*%") == "\\d+\\s*%";
  }

  /** "Up to N% off" for an extracted discount. */
  function UpToText(percentage: nat): string
  {
    "Up to " + DecimalString(percentage) + "% off"
  }

  /** "Sale active (k1, k2, k3)" listing at most the first three found keywords. */
  function SaleActiveText(found: seq<string>): string
  {
    "Sale active (" + Join(found[..Min(3, |found|)], ", ") + ")"
  }

  /** `has_sale_indicators`: whether a keyword was found, and the description. */
  function Indicators(keywords: seq<string>, text: string, search: RegexSearch): (r: (bool, string))
    ensures r.0 <==> exists i | 0 <= i < |keywords| :: Hits(keywords[i], Lower(text), search)
    ensures r.1 == "" <==> !r.0
  {
    var lowered := Lower(text);
    var found := FoundKeywords(keywords, lowered, search);
    if found == [] then (false, "")
    else
      match MaxDiscount(lowered)
      case Some(p) => (true, UpToText(p))
      case None => (true, SaleActiveText(found))
  }

  /**
   * The description names the largest in-window percentage, which reads
   * back from the text, or else lists the first found keywords.
   */
  lemma DescriptionSpec(keywords: seq<string>, text: string, search: RegexSearch)
    requires Indicators(keywords, text, search).0
    ensures var d := Indicators(keywords, text, search).1;
      match MaxDiscount(Lower(text))
      case Some(p) =>
        && |d| > 11 && d[..6] == "Up to " && d[|d| - 5..] == "% off"
        && AllDigits(d[6..|d| - 5]) && DigitsValue(d[6..|d| - 5]) == p
        && InWindow(p)
      case None =>
        d == SaleActiveText(FoundKeywords(keywords, Lower(text), search))
  {
    var d := Indicators(keywords, text, search).1;
    MaxDiscountSpec(Lower(text));
    if MaxDiscount(Lower(text)).Some? {
      var p := MaxDiscount(Lower(text)).value;
      DecimalStringRoundTrip(p);
      assert d[6..|d| - 5] == DecimalString(p);
    }
  }

  /** A description starts with "Up to " or with "Sale active (". */
  lemma DescriptionPrefix(keywords: seq<string>, text: string, search: RegexSearch)
    requires Indicators(keywords, text, search).0
    ensures var d := Indicators(keywords, text, search).1;
      (|d| > 6 && d[..6] == "Up to ") || (|d| > 13 && d[..13] == "Sale active (")
  {
  }

  /** Keywords match as substrings, not words: "Wholesale" counts as a sale. */
  lemma WholesaleIsASale(search: RegexSearch)
    ensures Indicators(["sale"], "Wholesale", search).0
  {
    var t := "Wholesale";
    var l := Lower(t);
    assert t[5] == 's' && t[6] == 'a' && t[7] == 'l' && t[8] == 'e';
    assert l[5] == 's' && l[6] == 'a' && l[7] == 'l' && l[8] == 'e';
    var k := "sale";
    var lk := Lower(k);
    assert lk[0] == 's' && lk[1] == 'a' && lk[2] == 'l' && lk[3] == 'e';
    assert l[5..9] == lk;
    assert OccursAt(l, lk, 5);
    assert !IsRegexKeyword(k);
    assert Hits(["sale"][0], l, search);
  }

  /** One more keyword adds what that keyword contributes at the end. */
  lemma FoundKeywordsSnoc(keywords: seq<string>, i: nat, lowered: string, search: RegexSearch)
    requires i < |keywords|
    ensures FoundKeywords(keywords[..i + 1], lowered, search)
      == FoundKeywords(keywords[..i], lowered, search) + KeywordFinding(keywords[i], lowered, search)
  {
    assert keywords[..i + 1][..i] == keywords[..i];
  }

  /** The keyword loop of `has_sale_indicators`: collects what each keyword contributes, in order. */
  method CollectFoundKeywords(keywords: seq<string>, lowered: string, search: RegexSearch)
    returns (found: seq<string>)
    ensures found == FoundKeywords(keywords, lowered, search)
  {
    found := [];
    for i := 0 to |keywords|
      invariant found == FoundKeywords(keywords[..i], lowered, search)
    {
      var k := keywords[i];
      FoundKeywordsSnoc(keywords, i, lowered, search);
      if IsRegexKeyword(k) {
        if search(k, lowered) {
          found := found + ["discount percentage"];
        }
      } else if Contains(lowered, Lower(k)) {
        found := found + [k];
      }
    }
    assert keywords[..|keywords|] == keywords;
  }

  /** `has_sale_indicators` as the scraper runs it. */
  method HasSaleIndicators(keywords: seq<string>, text: string, search: RegexSearch)
    returns (hasSale: bool, description: string)
    ensures (hasSale, description) == Indicators(keywords, text, search)
  {
    var lowered := Lower(text);
    var found := CollectFoundKeywords(keywords, lowered, search);
    if found != [] {
      var percentage := ExtractMaxDiscount(lowered);
      if percentage.Some? {
        description := UpToText(percentage.value);
      } else {
        description := SaleActiveText(found);
      }
      return true, description;
    }
    return false, "";
  }

  /** The selectors the generic item counter tries, in order. */
  const DefaultSelectors: seq<string> := [
    ".product-card", ".product-item", ".product", "[data-testid=\"product\"]", ".item"
  ]

  /** `count_sale_items`: the count of the first selector that matches anything, else 0. */
  method CountSaleItems(page: Page) returns (n: nat)
    ensures n == 0 <==> forall i | 0 <= i < |DefaultSelectors| :: page.selected(DefaultSelectors[i]) == 0
    ensures n != 0 ==> exists i | 0 <= i < |DefaultSelectors| ::
      && page.selected(DefaultSelectors[i]) == n
      && forall j | 0 <= j < i :: page.selected(DefaultSelectors[j]) == 0
  {
    var selectors := DefaultSelectors;
    for i := 0 to |selectors|
      invariant forall j | 0 <= j < i :: page.selected(selectors[j]) == 0
    {
      var items := page.selected(selectors[i]);
      if items != 0 {
        return items;
      }
    }
    return 0;
  }

  /**
   * What a store's `check_sale` is configured with: its name and sale URL,
   * its keywords, the CSS selector for product cards (none for a store
   * whose verdict ignores products), and the fallback description.
   */
  datatype StoreConfig = StoreConfig(
    name: string,
    saleUrl: string,
    keywords: seq<string>,
    productSelector: Option<string>,
    fallback: string)

  const FetchFailed: string := "Failed to fetch page"

  /** The inactive verdict, which carries only the activity flag, name and url. */
  function Inactive(cfg: StoreConfig): Verdict
  {
    Verdict(false, cfg.name, cfg.saleUrl, None, None, None)
  }

  /**
   * A store's `check_sale`: a missing or empty page is an inactive verdict
   * with an error; otherwise the store is active iff a product card was
   * found (for stores that count products) or a keyword was detected.
   */
  function CheckSale(cfg: StoreConfig, html: Option<string>, parse: string -> Page,
                     search: RegexSearch): (v: Verdict)
    ensures v.storeName == cfg.name && v.url == cfg.saleUrl
    ensures html.None? || html.value == "" ==>
      !v.active && v.error == Some(FetchFailed) && v.description.None? && v.itemCount.None?
    ensures html.Some? && html.value != "" ==>
      var page := parse(html.value);
      var keywordHit := exists i | 0 <= i < |EffectiveKeywords(Some(cfg.keywords))| ::
        Hits(EffectiveKeywords(Some(cfg.keywords))[i], Lower(page.text), search);
      var products := if cfg.productSelector.Some? then page.selected(cfg.productSelector.value) else 0;
      && v.error.None?
      && (v.active <==> products > 0 || keywordHit)
      && (v.active ==> v.description.Some?)
      && (v.active && keywordHit ==>
            v.description == Some(Indicators(EffectiveKeywords(Some(cfg.keywords)), page.text, search).1))
      && (v.active && !keywordHit ==> v.description == Some(cfg.fallback))
      && (v.active && cfg.productSelector.Some? ==> v.itemCount == Some(products))
      && (cfg.productSelector.None? ==> v.itemCount.None?)
      && (!v.active ==> v == Inactive(cfg))
  {
    if html.None? || html.value == "" then
      Verdict(false, cfg.name, cfg.saleUrl, None, None, Some(FetchFailed))
    else
      var page := parse(html.value);
      var (hasSale, description) := Indicators(EffectiveKeywords(Some(cfg.keywords)), page.text, search);
      var described := if description != "" then description else cfg.fallback;
      match cfg.productSelector
      case None =>
        if hasSale then Verdict(true, cfg.name, cfg.saleUrl, Some(described), None, None)
        else Inactive(cfg)
      case Some(selector) =>
        var products := page.selected(selector);
        if products > 0 || hasSale then
          Verdict(true, cfg.name, cfg.saleUrl, Some(described), Some(products), None)
        else Inactive(cfg)
  }

  /** A store that ignores products is active only through a keyword, so its description is the detector's. */
  lemma KeywordOnlyDescribed(cfg: StoreConfig, html: Option<string>, parse: string -> Page, search: RegexSearch)
    requires cfg.productSelector.None?
    ensures var v := CheckSale(cfg, html, parse, search);
      v.active ==>
        && v.description.Some?
        && var d := v.description.value;
           (|d| > 6 && d[..6] == "Up to ") || (|d| > 13 && d[..13] == "Sale active (")
  {
    var v := CheckSale(cfg, html, parse, search);
    if v.active {
      var page := parse(html.value);
      DescriptionPrefix(EffectiveKeywords(Some(cfg.keywords)), page.text, search);
    }
  }

  /** `check`: an exception raised by `check_sale` becomes an inactive verdict with its message. */
  function Check(cfg: StoreConfig, html: Option<string>, parse: string -> Page,
                 search: RegexSearch, raised: Option<string>): (v: Verdict)
    ensures raised.Some? ==>
      v == Verdict(false, cfg.name, cfg.saleUrl, None, None, raised)
    ensures raised.None? ==> v == CheckSale(cfg, html, parse, search)
    ensures v.storeName == cfg.name && v.url == cfg.saleUrl
    ensures v.active ==> v.error.None?
  {
    match raised
    case Some(e) => Verdict(false, cfg.name, cfg.saleUrl, None, None, Some(e))
    case None => CheckSale(cfg, html, parse, search)
  }
}
