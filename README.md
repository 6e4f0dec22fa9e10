# Stockholm Fashion Sale Alert — a verified model of its core

The sale alert watches the sale pages of about thirty fashion stores.
It decides per store whether a sale is on, remembers which sales it has
already reported, and announces new ones by e-mail and by ntfy push
notification. This project models that logic in Dafny and proves what it
promises:

- `util.dfy` (module `Util`): ASCII lower-casing, substring search,
  `str.join`, concatenation, and decimal formatting with its round trip.
- `discount.dfy` (module `Discount`): the maximum-discount extractor. It
  models the four percentage patterns as a deterministic left-to-right
  `findall` scan, filters the numbers to the window 5..90 and takes their
  maximum. It proves that the three context patterns capture nothing the
  bare `(\d+)\s*%` pattern misses.
- `detection.dfy` (module `Detection`): the base scraper's keyword
  detection, the "Up to N% off" / "Sale active (...)" description, the
  generic product counter, the verdict rule every store's `check_sale`
  follows, and the `check` exception wrapper.
- `stores.dfy` (module `Stores`): the thirty store configurations (name,
  sale URL, keywords, product selector, fallback text). It proves each
  file's verdict rule from the generic one.
- `roster.dfy` (module `Roster`): `ALL_SCRAPERS`, `get_all_scrapers` and
  `get_scraper_by_name`, both as written and corrected (see Findings).
- `json.dfy` (module `Json`): JSON values with Python truthiness.
- `salestate.dfy` (module `SaleStateModel`): the seen/unseen sale state.
  It has the pure operations on the sales map and the `SaleState` class
  whose methods update that map in place.
- `driver.dfy` (module `Driver`): `check_all_stores`. A pure fold `Run`
  specifies it, and the imperative loop `CheckAllStores` is proved
  against that fold.
- `email.dfy` (module `EmailNotify`) and `ntfy.dfy` (module `NtfyNotify`):
  the configuration guards, the subject, plain and HTML bodies of the
  e-mail, and the ntfy title, message, link and JSON payload.

Some behaviours of the code are worth noting, because a reader might
expect otherwise:

- Keywords match as case-insensitive substrings, so "wholesale" contains
  "sale".
- Any product element counts as evidence of a sale; there is no
  threshold above zero.
- A failed fetch is an inactive verdict, so it ends a stored sale rather
  than leaving it unknown.
- Any number followed by `%` counts toward the discount.
- `is_new_sale` is true for a store without a record, whatever the
  verdict says.

## Model

| member | source | states |
|---|---|---|
| Util.Lower | src/scrapers/base.py:120 | lower-casing keeps the length and maps every character through the ASCII case map |
| Util.Contains | src/scrapers/base.py:129 | `pat in text` holds iff `pat` occurs at some position of `text` |
| Util.DecimalStringRoundTrip | src/scrapers/base.py:136 | the decimal digits written for `n` read back as `n` |
| Discount.RunEnd | src/scrapers/base.py:147-150 | `\d+` matches the maximal digit run: every character up to the end is a digit and the next one is not |
| Discount.DigitsThenPercent | src/scrapers/base.py:150 | a `(\d+)\s*%` match captures exactly the digit run at its start and ends just after a `%` |
| Discount.MatchCapturesRun | src/scrapers/base.py:147-150 | a match that findall can reach captures a maximal digit run followed by optional whitespace and `%` |
| Discount.FindAllCapturesRuns | src/scrapers/base.py:155 | every capture of any of the four patterns' scans is such a run |
| Discount.BareFindsEveryRun | src/scrapers/base.py:150-155 | the bare scan finds every digit run that is followed by optional whitespace and `%` |
| Discount.ContextPatternsAddNothing | src/scrapers/base.py:146-151 | every number the three context patterns capture is also captured by `(\d+)\s*%` |
| Discount.MaxInWindow | src/scrapers/base.py:153-164 | the result is 0 or an in-window element, and is at least every in-window element |
| Discount.MaxInWindowUnique | src/scrapers/base.py:159-160 | any value with those two properties is the maximum |
| Discount.MaxDiscountSpec | src/scrapers/base.py:143-164 | the extractor gives none iff no captured number lies in 5..90; otherwise it gives the largest one in that window |
| Discount.ExtractMaxDiscount | src/scrapers/base.py:143-164 | the nested loop over all four patterns computes exactly `MaxDiscount`, a value in 5..90 or none |
| Discount.OutOfWindowIgnored | src/scrapers/base.py:159 | "95% 40%" gives 40: numbers outside the window are ignored |
| Detection.EffectiveKeywords | src/scrapers/base.py:49 | an absent or empty keyword list falls back to `SALE_KEYWORDS`; otherwise the given list is kept |
| Detection.FoundKeywords | src/scrapers/base.py:123-130 | the found list is empty iff no keyword hits, and holds only keywords or "discount percentage" |
| Detection.FoundPlainKeywords | src/scrapers/base.py:124-130 | without regex entries, a keyword is found iff its lower-cased form is a substring of the lower-cased text |
| Detection.PlainKeywordsIgnoreSearch | src/scrapers/base.py:125-127 | the regex search is consulted only for keywords starting with two backslashes |
| Detection.DefaultKeywordsArePlain | src/scrapers/base.py:17-38 | no default keyword takes the regex branch: `\d+\s*%` is searched for as literal text |
| Detection.Indicators | src/scrapers/base.py:113-141 | a sale is signalled iff some keyword hits, and the description is empty iff none does |
| Detection.DescriptionSpec | src/scrapers/base.py:132-138 | the description is "Up to N% off", where N reads back as the extracted in-window maximum, or else "Sale active (...)" over the first three found keywords |
| Detection.DescriptionPrefix | src/scrapers/base.py:136-138 | every non-empty description starts with "Up to " or "Sale active (" |
| Detection.WholesaleIsASale | src/scrapers/base.py:129 | "Wholesale" matches the keyword "sale": the test is on substrings, not words |
| Detection.CollectFoundKeywords | src/scrapers/base.py:123-130 | the keyword loop returns exactly the found keywords, in keyword order |
| Detection.HasSaleIndicators | src/scrapers/base.py:113-141 | the loop that collects the found keywords returns exactly `Indicators` |
| Detection.CountSaleItems | src/scrapers/base.py:166-185 | the count is 0 iff no selector matches; otherwise it is the count of the first selector that matches |
| Detection.CheckSale | src/scrapers/swedish_menswear.py:17-45 | a failed fetch is inactive with "Failed to fetch page". Otherwise the store is active iff products > 0 or a keyword hits. An active verdict's description is the detector's, or the store's fallback when no keyword hits. `item_count` is the product count. An inactive verdict carries only the flag, the name and the url |
| Detection.KeywordOnlyDescribed | src/scrapers/premium.py:61-87 | a store that ignores products is active only through a keyword, so its description is the detector's |
| Detection.Check | src/scrapers/base.py:202-213 | an exception becomes an inactive verdict that carries the store's name, its sale url and the error |
| Stores.RuleHolds | src/scrapers/swedish_menswear.py:17-45 | every configured store follows the verdict rule, with keyword hits spelled out as substring tests over its own keywords |
| Stores.SwedishMenswearRule | src/scrapers/swedish_menswear.py:6-265 | the six menswear stores count products, look for "sale", "rea" and "% off", and fall back to "Sale active" |
| Stores.ScandiBrandsRule | src/scrapers/scandi_brands.py:6-232 | Our Legacy falls back to "Archive sale active"; it and Acne Studios look for "archive" |
| Stores.LouisVuittonRule | src/scrapers/premium.py:50-87 | Louis Vuitton is active iff a keyword hits; it ignores products and reports no item count |
| Stores.LouisVuittonFallbackUnused | src/scrapers/premium.py:76-81 | Louis Vuitton's "Special offer available" is never the description of an active verdict |
| Stores.PremiumRule | src/scrapers/premium.py:6-228 | the other premium stores count products; only Mr Porter adds "reduced" |
| Stores.InditexRule | src/scrapers/inditex.py:6-187 | Uniqlo uses its own keywords and "Limited offers available"; Massimo Dutti looks only for "sale" and "rea" |
| Stores.SwedishOnlineRule | src/scrapers/swedish_online.py:6-190 | Boozt and Zalando use Swedish keywords and "REA active"; Caliroots and Tres Bien use "Sale active" |
| Stores.SportswearRule | src/scrapers/sportswear.py:6-132 | Adidas adds "outlet" and falls back to "Outlet active" |
| Stores.DepartmentRule | src/scrapers/department.py:6-94 | NK and Åhléns look for "rea", "rabatt" and "% rabatt" and fall back to "REA active" |
| Stores.MultibrandRule | src/scrapers/multibrand.py:6-48 | Care of Carl's keywords and its fallback text |
| Roster.InstantiateAll | src/scrapers/__init__.py:26 | the comprehension fails iff some class cannot be instantiated; on success it yields one scraper per class, in order |
| Roster.GetAllScrapersAsWrittenRaises | src/scrapers/__init__.py:13-26 | as written, `get_all_scrapers()` raises `TypeError` |
| Roster.GetScraperByNameAsWrittenRaises | src/scrapers/__init__.py:29-35 | as written, `get_scraper_by_name` raises for every name |
| Roster.GetAllScrapersInOrder | src/scrapers/__init__.py:13-26 | the instantiable scrapers are Inditex, Scandinavian, premium, Swedish online and department, in that order |
| Roster.FindByNameSpec | src/scrapers/__init__.py:31-35 | the search returns the first class whose name equals the given one ignoring case, or none if nothing matches |
| Roster.GetScraperByNameSpec | src/scrapers/__init__.py:29-35 | the lookup over the registry returns the first case-insensitive match, or none |
| Roster.GetScraperByNameIgnoresCase | src/scrapers/__init__.py:33 | looking up a name or its lower-cased form gives the same result |
| SaleStateModel.VerdictFields | src/scrapers/base.py:187-199 | a verdict dictionary holds `active`, `store_name` and `url`, and an optional key exactly when it is set, each with the verdict's own value |
| SaleStateModel.NewSale | src/utils/state.py:32-49 | a store without a record is new; otherwise it is new iff the old record is inactive and the verdict is active |
| SaleStateModel.Recorded | src/utils/state.py:51-59 | the record becomes the verdict's fields plus `first_seen`, kept from the old record or else now, and `last_seen` set to now. Old fields such as `ended` are dropped, and no other store changes |
| SaleStateModel.Inactivated | src/utils/state.py:61-65 | an existing record gets `active` false and `ended` now, and everything else is unchanged; an absent store changes nothing |
| SaleStateModel.ActiveSales | src/utils/state.py:67-73 | exactly the records whose `active` is truthy, unchanged |
| SaleStateModel.NoRenotifyAfterRecord | src/utils/state.py:46-59 | after an active verdict is recorded, no verdict for that store is new |
| SaleStateModel.ReactivationRenotifies | src/utils/state.py:46-47 | after a sale ends, the next active verdict is new again |
| SaleStateModel.RecordDropsEnded | src/utils/state.py:53-59 | recording never carries an old `ended` stamp over |
| SaleStateModel.RecordTwice | src/utils/state.py:53-59 | recording the same verdict again changes only `last_seen` |
| SaleStateModel.ActiveSalesTrack | src/utils/state.py:51-73 | a recorded active sale is listed as active; an ended one is not |
| SaleStateModel.SaleState.Open | src/utils/state.py:12-24 | a decoded file gives its sales and last check; a missing, unreadable or non-JSON file gives no sales and no last check; a file that is not valid UTF-8 raises |
| SaleStateModel.SaleState.Save | src/utils/state.py:26-28 | saving stamps `last_check` and leaves the sales alone |
| SaleStateModel.SaleState.RecordSale | src/utils/state.py:51-59 | the in-place update leaves the map equal to `Recorded`; it raises only on a stored entry that is not an object |
| SaleStateModel.SaleState.MarkInactive | src/utils/state.py:61-65 | the two in-place assignments leave the map equal to `Inactivated` |
| Driver.Step | src/main.py:41-71 | a step reports at most the store's own verdict, and only an active one |
| Driver.RunEventsInOrder | src/main.py:37-73 | the new sales are verdicts taken in scraper order, each one the verdict of its own scraper |
| Driver.RunEventsActive | src/main.py:37-47 | every new sale is an active verdict, and there is at most one per scraper |
| Driver.ExtendEvents | src/main.py:41-47 | appending a scraper's event, if any, to the events keeps them a subsequence of the verdicts |
| Driver.StepNewStore | src/main.py:44-48 | an active verdict for an unseen store is reported and recorded |
| Driver.StepOngoingSale | src/main.py:51-55 | an active verdict for an already-active store is recorded, which refreshes `last_seen`, and is not reported |
| Driver.StepReactivation | src/main.py:44-47 | an active verdict for an ended sale is reported again and recorded, as for a new store |
| Driver.StepEndsSale | src/main.py:56-60 | an inactive verdict ends an active sale |
| Driver.FetchFailureEndsSale | src/main.py:56-60 | a failed fetch ends the store's active sale and stamps `ended` |
| Driver.StepNoChange | src/main.py:56-71 | an inactive verdict for an absent or inactive store changes nothing, and neither does a store whose record raises |
| Driver.StepFrame | src/main.py:41-71 | a step changes only the checked store's entry and removes none |
| Driver.RunFrame | src/main.py:37-71 | a run leaves stores it did not check untouched |
| Driver.NoRenotifyNextRun | src/main.py:44-55 | a second run over a still-active store reports nothing for it |
| Driver.CheckAllStores | src/main.py:20-73 | the loop leaves the state and the list of new sales equal to `Run` over the verdicts, in order |
| EmailNotify.EmailConfigured | src/notifiers/email_notify.py:13-25 | a non-empty argument wins over the environment, and the notifier is configured iff the address and the app password are each given or found in the environment |
| EmailNotify.Send | src/notifiers/email_notify.py:27-66 | an unconfigured notifier sends nothing. Otherwise the message goes from the address to itself with a plain part, and an HTML part exactly when the HTML body is non-empty |
| EmailNotify.SubjectSpec | src/notifiers/email_notify.py:81 | the subject starts with 🛍️, its number reads back as the count, and it says "Sales" iff there are several |
| EmailNotify.AllSaleLinesLayout | src/notifiers/email_notify.py:85-94 | sale i's four lines sit at positions 4i to 4i+3 |
| EmailNotify.BodyLinesLayout | src/notifiers/email_notify.py:84-95 | the body has 4n+4 lines: the header, then each sale's name, description (default "Sale active"), link and a blank line in input order, then the closing line |
| EmailNotify.BuildBodyLines | src/notifiers/email_notify.py:84-95 | the `extend` loop builds exactly `BodyLines` |
| Util.ConcatMapLayout | src/notifiers/email_notify.py:98-106 | in text built by appending one block per item, each item's block appears right after the blocks of the items before it, in input order |
| EmailNotify.BuildHtmlItems | src/notifiers/email_notify.py:98-106 | the `+=` loop builds exactly `HtmlItems` |
| EmailNotify.SendSaleAlert | src/notifiers/email_notify.py:68-125 | an empty list sends nothing; otherwise it sends the subject, the joined body and the HTML body |
| NtfyNotify.NtfyConfigured | src/notifiers/ntfy_notify.py:13-19 | a non-empty topic argument wins over the environment, and the notifier is configured iff a topic is given or found in the environment |
| NtfyNotify.Send | src/notifiers/ntfy_notify.py:21-63 | an unconfigured notifier posts nothing. The payload has topic, title, message and priority; tags only when the list is non-empty; click only when the url is non-empty |
| NtfyNotify.StoreNamesSpec | src/notifiers/ntfy_notify.py:77-79 | the first five store names in order, then "+k till", where k reads back as the number of the rest |
| NtfyNotify.AlertSingle | src/notifiers/ntfy_notify.py:70-74 | one sale: "REA: name", its description or "REA pågår!", and its url |
| NtfyNotify.AlertMany | src/notifiers/ntfy_notify.py:75-81 | several sales: "N nya reor!" with N reading back as the count, the joined names, and the first sale's url |
| NtfyNotify.SendSaleAlert | src/notifiers/ntfy_notify.py:65-89 | an empty list posts nothing; otherwise the payload has priority 4, the tag `shopping_bags`, the alert's title and message, and the first sale's url |

## Left out

- HTTP and browser fetching, timeouts and sleeps: a fetch is an optional HTML string, and none or empty means failure.
- BeautifulSoup parsing and CSS selector semantics: a page is its text plus a function from selector string to match count.
- The regex engine: only the four fixed percentage patterns are modelled, over ASCII digits and ASCII whitespace.
- Python's Unicode-aware `\d`, `\s` and `str.lower()`: the model lower-cases only ASCII letters.
- `re.search` for keywords that start with two backslashes: it is an uninterpreted parameter, since no configured keyword reaches it.
- SMTP delivery and the ntfy HTTP post: each is a `delivered` flag; a failed attempt returns false.
- Reading and writing the JSON state file: the file is given as missing, unreadable, not JSON, not UTF-8 or decoded. A file that is not valid UTF-8 makes `SaleState()` raise (`SaleStateModel.SaleState.Open`); the aborted run that follows is not modelled, since `Driver.CheckAllStores` starts from a state that opened.
- The state file's top-level shape other than `{sales, last_check}`, and JSON floating-point numbers, are not modelled.
- `datetime.now()`: it is a `now` parameter. `record_sale` reads the clock twice, and the model uses one instant for both reads.
- CLI, `send_notifications`, `print_summary`, `send_test` and all printing (src/main.py:76-236, src/notifiers/ntfy_notify.py:91-98).
- The `html_body=None` default of the e-mail `send`: the model passes "" for it, which behaves the same.
- Driver.CheckAllStores: takes the verdicts in scraper order as input, as the corrected registry yields them; the as-written registry raises before the loop (see Findings).
- Driver.StepNoChange: an exception in one store's handling is modelled only as a stored entry that is not an object; other exceptions inside `check()` are covered by `Detection.Check`.

## Findings

| source | as written | input that shows it | evidently intended | confidence | as-written member | corrected member |
|---|---|---|---|---|---|---|
| src/scrapers/__init__.py:13-26 | `ALL_SCRAPERS` starts with the H&M-group classes and ends with the sneaker classes. These pass `base_url`/`sale_path` keywords that `BaseScraper.__init__` does not accept and define no `check_sale`, so `scraper_class()` raises `TypeError` | `get_all_scrapers()` with no arguments | one scraper per store class that can be built, in registry order | not executed | Roster.GetAllScrapersAsWrittenRaises | Roster.GetAllScrapersInOrder |
| src/scrapers/__init__.py:29-35 | the search builds `HMScraper()` before comparing any name, so it raises for every name | `get_scraper_by_name("Zara")` | the first scraper whose name matches ignoring case, or none | not executed | Roster.GetScraperByNameAsWrittenRaises | Roster.GetScraperByNameSpec |
