/**
 * The configured stores.  Every store's `check_sale` is one instance of the
 * generic verdict rule `Detection.CheckSale`; what differs is the name, the
 * sale URL, the keyword list, the product-card selector and the fallback
 * description, collected here per source file.
 */
module Stores {
  import opened Util
  import opened Detection
  import opened Discount

  // Swedish menswear brands.
  const Grandpa := StoreConfig("Grandpa", "https://www.grandpa.se/sale",
    ["sale", "rea", "% off"], Some(".product-card, .product-item, [data-product]"), "Sale active")
  const Eton := StoreConfig("ETON", "https://www.etonshirts.com/se/sale",
    ["sale", "rea", "% off"], Some(".product-card, .product-tile, [data-product]"), "Sale active")
  const OscarJacobson := StoreConfig("Oscar Jacobson", "https://www.oscarjacobson.com/se/sale",
    ["sale", "rea", "% off"], Some(".product-card, .product-item, [data-product]"), "Sale active")
  const TigerOfSweden := StoreConfig("Tiger of Sweden", "https://www.tigerofsweden.com/se/sale/men/",
    ["sale", "rea", "% off"], Some(".product-card, .product-tile, [data-product]"), "Sale active")
  const RalphLauren := StoreConfig("Ralph Lauren", "https://www.ralphlauren.se/en/sale/men",
    ["sale", "rea", "% off"], Some(".product-card, .product-tile, [data-product-tile]"), "Sale active")
  const BrixtolTextiles := StoreConfig("Brixtol Textiles", "https://www.brixtoltextiles.com/sale",
    ["sale", "rea", "% off"], Some(".product-card, .product-item, [data-product]"), "Sale active")

  const SwedishMenswear := [Grandpa, Eton, OscarJacobson, TigerOfSweden, RalphLauren, BrixtolTextiles]

  // Scandinavian brands.
  const OurLegacy := StoreConfig("Our Legacy", "https://www.ourlegacy.com/sale",
    ["sale", "archive", "% off"], Some(".product, .product-card, .product-item"), "Archive sale active")
  const Samsoe := StoreConfig("Samsoe Samsoe", "https://www.samsoe.com/sv/man/sale/",
    ["sale", "rea", "% off"], Some(".product-card, .product-tile, [data-product]"), "Sale active")
  const AcneStudios := StoreConfig("Acne Studios", "https://www.acnestudios.com/se/en/man/sale/",
    ["sale", "archive", "% off"], Some(".product-card, .product-tile, [data-product]"), "Sale active")
  const NorseProjects := StoreConfig("Norse Projects", "https://www.norseprojects.com/collection/men-sale",
    ["sale", "% off"], Some(".product-card, .product-grid-item, [data-product-id]"), "Sale active")
  const NN07 := StoreConfig("NN07", "https://www.nn07.com/en/men/sale",
    ["sale", "% off"], Some(".product-card, .product-item, [data-product]"), "Sale active")

  const ScandiBrands := [OurLegacy, Samsoe, AcneStudios, NorseProjects, NN07]

  // Premium retailers; Louis Vuitton does not look for product cards at all.
  const EndClothing := StoreConfig("END Clothing", "https://www.endclothing.com/se/sale",
    ["sale", "% off"], Some(".ProductCard, .product-card, [data-testid='product']"), "Sale active")
  const LouisVuitton := StoreConfig("Louis Vuitton", "https://eu.louisvuitton.com/swe-se/men/_/N-t15mfk3d",
    ["sale", "special"], None, "Special offer available")
  const MrPorter := StoreConfig("Mr Porter", "https://www.mrporter.com/en-se/mens/sale",
    ["sale", "% off", "reduced"], Some(".ProductItem, .product-card, [data-product]"), "Sale active")
  const Ssense := StoreConfig("SSENSE", "https://www.ssense.com/en-se/men/sale",
    ["sale", "% off"], Some(".product-tile, .plp-product, [data-product-id]"), "Sale active")
  const Matches := StoreConfig("Matches", "https://www.matchesfashion.com/mens/sale",
    ["sale", "% off"], Some(".ProductCard, .product-card, [data-product]"), "Sale active")

  const Premium := [EndClothing, LouisVuitton, MrPorter, Ssense, Matches]

  // Inditex and other high-street chains.
  const Zara := StoreConfig("Zara Man", "https://www.zara.com/se/sv/man-sale-l806.html",
    ["sale", "rea", "% off"], Some(".product-grid__product, .product-grid-item, [data-productid]"), "Sale active")
  const Mango := StoreConfig("Mango Man", "https://shop.mango.com/se/man/sale",
    ["sale", "rea", "% off"], Some(".ProductCard, .product-card, [data-product]"), "Sale active")
  const Uniqlo := StoreConfig("Uniqlo Men", "https://www.uniqlo.com/se/en/men/sale",
    ["sale", "limited offer", "special price"], Some(".fr-ec-product-tile, .product-tile, [data-product-id]"),
    "Limited offers available")
  const MassimoDutti := StoreConfig("Massimo Dutti Men", "https://www.massimodutti.com/se/men/sale-n1805",
    ["sale", "rea"], Some(".product-grid-item, .product-card, [data-productid]"), "Sale active")

  const Inditex := [Zara, Mango, Uniqlo, MassimoDutti]

  // Swedish online shops.
  const Boozt := StoreConfig("Boozt Men", "https://www.boozt.com/se/sv/herr/rea",
    ["rea", "rabatt", "% rabatt"], Some(".product-card, .product-tile, [data-product-id]"), "REA active")
  const Zalando := StoreConfig("Zalando Men", "https://www.zalando.se/herr-rea/",
    ["rea", "rabatt", "% rabatt"], Some("[data-testid='product-card'], .z-nvg-cognac-grid-item, .cat_card"),
    "REA active")
  const Caliroots := StoreConfig("Caliroots", "https://caliroots.com/sale",
    ["sale", "% off"], Some(".product-card, .product-item, [data-product]"), "Sale active")
  const TresBien := StoreConfig("Tres Bien", "https://tres-bien.com/sale",
    ["sale", "% off"], Some(".product-card, .product-item, [data-product]"), "Sale active")

  const SwedishOnline := [Boozt, Zalando, Caliroots, TresBien]

  // Sportswear.
  const Nike := StoreConfig("Nike", "https://www.nike.com/se/w/mens-sale-3yaepznik1",
    ["sale", "rea", "% off"], Some(".product-card, .product-grid__item, [data-testid='product-card']"),
    "Sale active")
  const Adidas := StoreConfig("Adidas", "https://www.adidas.se/man-outlet",
    ["sale", "rea", "outlet", "% off"], Some(".product-card, .plp-grid__item, [data-testid='product-card']"),
    "Outlet active")
  const NewBalance := StoreConfig("New Balance", "https://www.newbalance.se/en/men/sale/",
    ["sale", "rea", "% off"], Some(".product-card, .product-tile, [data-product]"), "Sale active")

  const Sportswear := [Nike, Adidas, NewBalance]

  // Department stores.
  const NK := StoreConfig("NK Herr", "https://www.nk.se/herr/rea",
    ["rea", "rabatt", "% rabatt"], Some(".product-card, .product-item, [data-product]"), "REA active")
  const Ahlens := StoreConfig("Ahlens Herr", "https://www.ahlens.se/mode/herr/rea/",
    ["rea", "rabatt", "% rabatt"], Some(".product-card, .product-item, [data-product-id]"), "REA active")

  const Department := [NK, Ahlens]

  // Multi-brand shops.
  const CareOfCarl := StoreConfig("Care of Carl", "https://www.careofcarl.se/sv/sale/",
    ["sale", "rea", "% rabatt", "rabatt"], Some(".product-card, .product-item, [data-product]"),
    "REA active (Oscar Jacobson, ETON, Tiger, etc.)")

  const Multibrand := [CareOfCarl]

  /** A page was fetched: `not html` is false. */
  predicate Fetched(html: Option<string>)
  {
    html.Some? && html.value != ""
  }

  /** The product count a store's verdict looks at (0 for a store that does not count products). */
  function Products(c: StoreConfig, page: Page): nat
  {
    if c.productSelector.Some? then page.selected(c.productSelector.value) else 0
  }

  /**
   * The verdict rule of a `check_sale` with the given keyword list and
   * fallback description, stated with keyword detection spelled out as a
   * case-insensitive substring test.
   */
  predicate FollowsRule(c: StoreConfig, html: Option<string>, parse: string -> Page, search: RegexSearch,
                        countsProducts: bool, keywords: seq<string>, fallback: string)
  {
    var v := CheckSale(c, html, parse, search);
    && v.storeName == c.name && v.url == c.saleUrl
    && (!Fetched(html) ==> v == Verdict(false, c.name, c.saleUrl, None, None, Some(FetchFailed)))
    && (Fetched(html) ==>
          var page := parse(html.value);
          var lowered := Lower(page.text);
          var hit := exists i | 0 <= i < |keywords| :: Contains(lowered, Lower(keywords[i]));
          && (v.active <==> (countsProducts && Products(c, page) > 0) || hit)
          && (v.active ==> v.itemCount == (if countsProducts then Some(Products(c, page)) else None))
          && (v.active && hit ==>
                v.description == Some(Indicators(keywords, page.text, search).1) && v.description.value != "")
          && (v.active && !hit ==> v.description == Some(fallback))
          && (!v.active ==> v == Inactive(c)))
  }

  /** Every configured store: plain keywords, a non-empty fallback. */
  predicate Configured(c: StoreConfig)
  {
    && c.keywords != []
    && (forall i | 0 <= i < |c.keywords| :: !IsRegexKeyword(c.keywords[i]))
    && c.fallback != ""
  }

  /** A configured store follows the verdict rule with its own keywords and fallback. */
  lemma RuleHolds(c: StoreConfig, html: Option<string>, parse: string -> Page, search: RegexSearch)
    requires Configured(c)
    ensures FollowsRule(c, html, parse, search, c.productSelector.Some?, c.keywords, c.fallback)
  {
    if Fetched(html) {
      var page := parse(html.value);
      var lowered := Lower(page.text);
      assert EffectiveKeywords(Some(c.keywords)) == c.keywords;
      var hit := exists i | 0 <= i < |c.keywords| :: Contains(lowered, Lower(c.keywords[i]));
      assert Indicators(c.keywords, page.text, search).0 <==> hit by {
        if hit {
          var i :| 0 <= i < |c.keywords| && Contains(lowered, Lower(c.keywords[i]));
          assert Hits(c.keywords[i], lowered, search);
        }
        if Indicators(c.keywords, page.text, search).0 {
          var i :| 0 <= i < |c.keywords| && Hits(c.keywords[i], lowered, search);
          assert Contains(lowered, Lower(c.keywords[i]));
        }
      }
    }
  }

  /** Every store of a group is configured. */
  predicate AllConfigured(group: seq<StoreConfig>)
  {
    forall i | 0 <= i < |group| :: Configured(group[i])
  }

  lemma GroupsConfigured()
    ensures AllConfigured(SwedishMenswear) && AllConfigured(ScandiBrands) && AllConfigured(Premium)
    ensures AllConfigured(Inditex) && AllConfigured(SwedishOnline) && AllConfigured(Sportswear)
    ensures AllConfigured(Department) && AllConfigured(Multibrand)
  {
    MenswearConfigured();
    ScandiConfigured();
    PremiumConfigured();
    InditexConfigured();
    OnlineConfigured();
  }

  lemma MenswearConfigured() ensures AllConfigured(SwedishMenswear) { }
  lemma ScandiConfigured() ensures AllConfigured(ScandiBrands) { }
  lemma PremiumConfigured() ensures AllConfigured(Premium) { }
  lemma InditexConfigured() ensures AllConfigured(Inditex) { }
  lemma OnlineConfigured() ensures AllConfigured(SwedishOnline) && AllConfigured(Sportswear) { }

  /** A store of a configured group follows its own verdict rule. */
  lemma MemberRuleHolds(c: StoreConfig, group: seq<StoreConfig>, html: Option<string>, parse: string -> Page,
                        search: RegexSearch)
    requires c in group && AllConfigured(group)
    ensures FollowsRule(c, html, parse, search, c.productSelector.Some?, c.keywords, c.fallback)
  {
    var i :| 0 <= i < |group| && group[i] == c;
    RuleHolds(c, html, parse, search);
  }

  /** The six menswear stores: products or "sale"/"rea"/"% off", falling back to "Sale active". */
  lemma SwedishMenswearRule(c: StoreConfig, html: Option<string>, parse: string -> Page, search: RegexSearch)
    requires c in SwedishMenswear
    ensures FollowsRule(c, html, parse, search, true, ["sale", "rea", "% off"], "Sale active")
  {
    GroupsConfigured();
    MemberRuleHolds(c, SwedishMenswear, html, parse, search);
  }

  /** Our Legacy falls back to "Archive sale active"; it and Acne Studios treat "archive" as a keyword. */
  lemma ScandiBrandsRule(c: StoreConfig, html: Option<string>, parse: string -> Page, search: RegexSearch)
    requires c in ScandiBrands
    ensures FollowsRule(c, html, parse, search, true, c.keywords, c.fallback)
    ensures c == OurLegacy ==> c.fallback == "Archive sale active" && "archive" in c.keywords
    ensures c == AcneStudios ==> "archive" in c.keywords
    ensures c != OurLegacy ==> c.fallback == "Sale active"
  {
    GroupsConfigured();
    MemberRuleHolds(c, ScandiBrands, html, parse, search);
  }

  /** Louis Vuitton is active iff a keyword is found; products are ignored and no count is reported. */
  lemma LouisVuittonRule(html: Option<string>, parse: string -> Page, search: RegexSearch)
    ensures FollowsRule(LouisVuitton, html, parse, search, false, ["sale", "special"], "Special offer available")
  {
    RuleHolds(LouisVuitton, html, parse, search);
  }

  /**
   * Louis Vuitton's fallback is never shown: it is active only through a
   * keyword, and then the detector's own description is used.
   */
  lemma LouisVuittonFallbackUnused(html: Option<string>, parse: string -> Page, search: RegexSearch)
    ensures var v := CheckSale(LouisVuitton, html, parse, search);
      v.active ==> v.description.Some? && v.description != Some(LouisVuitton.fallback)
  {
    var f := LouisVuitton.fallback;
    assert f[0] == 'S' && f[1] == 'p';
    assert !(|f| > 6 && f[..6] == "Up to ") && !(|f| > 13 && f[..13] == "Sale active (") by {
      assert "Sale active ("[1] == 'a';
    }
    KeywordOnlyDescribed(LouisVuitton, html, parse, search);
  }

  /** The other premium stores count products; Mr Porter also looks for "reduced". */
  lemma PremiumRule(c: StoreConfig, html: Option<string>, parse: string -> Page, search: RegexSearch)
    requires c in Premium && c != LouisVuitton
    ensures FollowsRule(c, html, parse, search, true, c.keywords, "Sale active")
    ensures c == MrPorter ==> c.keywords == ["sale", "% off", "reduced"]
    ensures c != MrPorter ==> c.keywords == ["sale", "% off"]
  {
    GroupsConfigured();
    MemberRuleHolds(c, Premium, html, parse, search);
  }

  /** Uniqlo has its own keywords and fallback; Massimo Dutti looks only for "sale" and "rea". */
  lemma InditexRule(c: StoreConfig, html: Option<string>, parse: string -> Page, search: RegexSearch)
    requires c in Inditex
    ensures FollowsRule(c, html, parse, search, true, c.keywords, c.fallback)
    ensures c == Uniqlo ==>
      c.keywords == ["sale", "limited offer", "special price"] && c.fallback == "Limited offers available"
    ensures c == MassimoDutti ==> c.keywords == ["sale", "rea"]
    ensures c != Uniqlo ==> c.fallback == "Sale active"
  {
    GroupsConfigured();
    MemberRuleHolds(c, Inditex, html, parse, search);
  }

  /** Boozt and Zalando use Swedish keywords and "REA active"; the others "Sale active". */
  lemma SwedishOnlineRule(c: StoreConfig, html: Option<string>, parse: string -> Page, search: RegexSearch)
    requires c in SwedishOnline
    ensures FollowsRule(c, html, parse, search, true, c.keywords, c.fallback)
    ensures c == Boozt || c == Zalando ==>
      c.keywords == ["rea", "rabatt", "% rabatt"] && c.fallback == "REA active"
    ensures c == Caliroots || c == TresBien ==> c.fallback == "Sale active"
  {
    GroupsConfigured();
    MemberRuleHolds(c, SwedishOnline, html, parse, search);
  }

  /** Adidas also looks for "outlet" and falls back to "Outlet active". */
  lemma SportswearRule(c: StoreConfig, html: Option<string>, parse: string -> Page, search: RegexSearch)
    requires c in Sportswear
    ensures FollowsRule(c, html, parse, search, true, c.keywords, c.fallback)
    ensures c == Adidas ==> "outlet" in c.keywords && c.fallback == "Outlet active"
    ensures c != Adidas ==> c.keywords == ["sale", "rea", "% off"] && c.fallback == "Sale active"
  {
    GroupsConfigured();
    MemberRuleHolds(c, Sportswear, html, parse, search);
  }

  /** Both department stores: Swedish keywords, falling back to "REA active". */
  lemma DepartmentRule(c: StoreConfig, html: Option<string>, parse: string -> Page, search: RegexSearch)
    requires c in Department
    ensures FollowsRule(c, html, parse, search, true, ["rea", "rabatt", "% rabatt"], "REA active")
  {
    GroupsConfigured();
    MemberRuleHolds(c, Department, html, parse, search);
  }

  /** Care of Carl: products or "sale"/"rea"/"% rabatt"/"rabatt", with its own fallback. */
  lemma MultibrandRule(html: Option<string>, parse: string -> Page, search: RegexSearch)
    ensures FollowsRule(CareOfCarl, html, parse, search, true, ["sale", "rea", "% rabatt", "rabatt"],
                        "REA active (Oscar Jacobson, ETON, Tiger, etc.)")
  {
    RuleHolds(CareOfCarl, html, parse, search);
  }
}
