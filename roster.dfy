/**
 * The scraper registry: the ordered `ALL_SCRAPERS` list of scraper classes,
 * instantiating all of them, and looking one up by store name.
 *
 * The H&M-group and sneaker classes never define `check_sale` and pass
 * constructor arguments the base class does not accept, so calling them
 * raises `TypeError`.  They are kept as uninstantiable entries; the
 * functions named `...AsWritten` model the registry with them, and the
 * corrected ones skip them.
 */
module Roster {
  import opened Util
  import opened Detection
  import Stores

  /** A scraper class: one whose constructor yields a configured store, or one that raises. */
  datatype ScraperClass = Instantiable(config: StoreConfig) | Uninstantiable(className: string)

  const HmGroup: seq<ScraperClass> := [
    Uninstantiable("HMScraper"), Uninstantiable("COSScraper"),
    Uninstantiable("ArketScraper"), Uninstantiable("WeekdayScraper")
  ]

  const Sneakers: seq<ScraperClass> := [
    Uninstantiable("SneakersnstuffScraper"), Uninstantiable("FootishScraper"), Uninstantiable("SoleboxScraper")
  ]

  function Classes(configs: seq<StoreConfig>): (cs: seq<ScraperClass>)
    ensures |cs| == |configs|
    ensures forall i | 0 <= i < |configs| :: cs[i] == Instantiable(configs[i])
  {
    seq(|configs|, i requires 0 <= i < |configs| => Instantiable(configs[i]))
  }

  /** `ALL_SCRAPERS`; the menswear, sportswear and multi-brand lists are not part of it. */
  const AllScrapers: seq<ScraperClass> :=
    HmGroup + Classes(Stores.Inditex) + Classes(Stores.ScandiBrands) + Classes(Stores.Premium)
    + Classes(Stores.SwedishOnline) + Classes(Stores.Department) + Sneakers

  const InstantiationError: string := "TypeError"

  /** `[cls() for cls in classes]`: the first uninstantiable class aborts the comprehension. */
  function InstantiateAll(classes: seq<ScraperClass>): (r: Result<seq<StoreConfig>, string>)
    ensures r.Failure? <==> exists i | 0 <= i < |classes| :: classes[i].Uninstantiable?
    ensures r.Success? ==>
      |r.value| == |classes| && forall i | 0 <= i < |classes| :: classes[i] == Instantiable(r.value[i])
  {
    if classes == [] then Success([])
    else
      match classes[0]
      case Uninstantiable(_) => Failure(InstantiationError)
      case Instantiable(c) =>
        match InstantiateAll(classes[1..])
        case Failure(e) => Failure(e)
        case Success(rest) => Success([c] + rest)
  }

  /** `get_all_scrapers()` as written. */
  function GetAllScrapersAsWritten(): Result<seq<StoreConfig>, string>
  {
    InstantiateAll(AllScrapers)
  }

  /** The very first class of the registry cannot be built, so `get_all_scrapers()` always raises. */
  lemma GetAllScrapersAsWrittenRaises()
    ensures GetAllScrapersAsWritten() == Failure(InstantiationError)
  {
    assert AllScrapers[0].Uninstantiable?;
  }

  /**
   * The search loop of `get_scraper_by_name`: build each class in turn and
   * return the first whose name equals `name` ignoring ASCII case.
   */
  function FindByName(classes: seq<ScraperClass>, name: string): (r: Result<Option<StoreConfig>, string>)
  {
    if classes == [] then Success(None)
    else
      match classes[0]
      case Uninstantiable(_) => Failure(InstantiationError)
      case Instantiable(c) =>
        if Lower(c.name) == Lower(name) then Success(Some(c)) else FindByName(classes[1..], name)
  }

  /** `get_scraper_by_name(name)` as written. */
  function GetScraperByNameAsWritten(name: string): Result<Option<StoreConfig>, string>
  {
    FindByName(AllScrapers, name)
  }

  /** Every lookup raises, whatever the name: the first class is built before any comparison. */
  lemma GetScraperByNameAsWrittenRaises(name: string)
    ensures GetScraperByNameAsWritten(name) == Failure(InstantiationError)
  {
    assert AllScrapers[0] == Uninstantiable("HMScraper");
  }

  /** The classes that can be built, in registry order. */
  function Buildable(classes: seq<ScraperClass>): seq<StoreConfig>
  {
    if classes == [] then []
    else
      match classes[0]
      case Uninstantiable(_) => Buildable(classes[1..])
      case Instantiable(c) => [c] + Buildable(classes[1..])
  }

  lemma {:induction false} BuildableAppend(a: seq<ScraperClass>, b: seq<ScraperClass>)
    ensures Buildable(a + b) == Buildable(a) + Buildable(b)
  {
    if a == [] {
      assert a + b == b;
    } else {
      assert (a + b)[0] == a[0] && (a + b)[1..] == a[1..] + b;
      BuildableAppend(a[1..], b);
    }
  }

  lemma {:induction false} BuildableClasses(configs: seq<StoreConfig>)
    ensures Buildable(Classes(configs)) == configs
    ensures InstantiateAll(Classes(configs)) == Success(configs)
  {
    if configs != [] {
      assert Classes(configs)[1..] == Classes(configs[1..]);
      BuildableClasses(configs[1..]);
    }
  }

  /** `get_all_scrapers()` once the uninstantiable classes are skipped. */
  function GetAllScrapers(): seq<StoreConfig>
  {
    Buildable(AllScrapers)
  }

  /** Building a registry laid out like `ALL_SCRAPERS` keeps the buildable groups, in order. */
  lemma BuildableRegistry(h: seq<ScraperClass>, a: seq<StoreConfig>, b: seq<StoreConfig>, c: seq<StoreConfig>,
                          d: seq<StoreConfig>, e: seq<StoreConfig>, z: seq<ScraperClass>)
    requires Buildable(h) == [] && Buildable(z) == []
    ensures Buildable(h + Classes(a) + Classes(b) + Classes(c) + Classes(d) + Classes(e) + z)
      == a + b + c + d + e
  {
    var x1 := h + Classes(a);
    BuildableAppend(h, Classes(a));
    BuildableClasses(a);
    assert Buildable(x1) == a;
    var x2 := x1 + Classes(b);
    BuildableAppend(x1, Classes(b));
    BuildableClasses(b);
    assert Buildable(x2) == a + b;
    var x3 := x2 + Classes(c);
    BuildableAppend(x2, Classes(c));
    BuildableClasses(c);
    assert Buildable(x3) == a + b + c;
    var x4 := x3 + Classes(d);
    BuildableAppend(x3, Classes(d));
    BuildableClasses(d);
    assert Buildable(x4) == a + b + c + d;
    var x5 := x4 + Classes(e);
    BuildableAppend(x4, Classes(e));
    BuildableClasses(e);
    assert Buildable(x5) == a + b + c + d + e;
    BuildableAppend(x5, z);
    assert a + b + c + d + e + [] == a + b + c + d + e;
  }

  /** One scraper per buildable class, in registry order, and building them all succeeds. */
  lemma GetAllScrapersInOrder()
    ensures GetAllScrapers() ==
      Stores.Inditex + Stores.ScandiBrands + Stores.Premium + Stores.SwedishOnline + Stores.Department
    ensures InstantiateAll(Classes(GetAllScrapers())) == Success(GetAllScrapers())
  {
    assert Buildable(HmGroup) == [] && Buildable(Sneakers) == [];
    BuildableRegistry(HmGroup, Stores.Inditex, Stores.ScandiBrands, Stores.Premium,
                      Stores.SwedishOnline, Stores.Department, Sneakers);
    BuildableClasses(GetAllScrapers());
  }

  /** On a list of buildable classes the search never raises and finds the first case-insensitive match. */
  lemma {:induction false} FindByNameSpec(configs: seq<StoreConfig>, name: string)
    ensures FindByName(Classes(configs), name).Success?
    ensures var r := FindByName(Classes(configs), name).value;
      && (r.None? <==> forall i | 0 <= i < |configs| :: Lower(configs[i].name) != Lower(name))
      && (r.Some? ==> exists i | 0 <= i < |configs| ::
            && configs[i] == r.value
            && Lower(configs[i].name) == Lower(name)
            && forall j | 0 <= j < i :: Lower(configs[j].name) != Lower(name))
  {
    if configs != [] {
      var cs := Classes(configs);
      assert cs[1..] == Classes(configs[1..]);
      FindByNameSpec(configs[1..], name);
      var r := FindByName(Classes(configs), name).value;
      if Lower(configs[0].name) != Lower(name) {
        if r.Some? {
          var i :| 0 <= i < |configs[1..]| && configs[1..][i] == r.value && Lower(configs[1..][i].name) == Lower(name)
            && forall j | 0 <= j < i :: Lower(configs[1..][j].name) != Lower(name);
          assert configs[i + 1] == r.value;
          assert forall j | 0 <= j < i + 1 :: Lower(configs[j].name) != Lower(name) by {
            forall j | 0 <= j < i + 1 ensures Lower(configs[j].name) != Lower(name) {
              if j > 0 { assert configs[j] == configs[1..][j - 1]; }
            }
          }
        } else {
          forall i | 0 <= i < |configs| ensures Lower(configs[i].name) != Lower(name) {
            if i > 0 { assert configs[i] == configs[1..][i - 1]; }
          }
        }
      }
    }
  }

  /** `get_scraper_by_name(name)` over the buildable classes. */
  function GetScraperByName(name: string): (r: Option<StoreConfig>)
  {
    match FindByName(Classes(GetAllScrapers()), name)
    case Success(found) => found
    case Failure(_) => None
  }

  /** The lookup returns the first scraper whose name equals `name` ignoring case, or none. */
  lemma GetScraperByNameSpec(name: string)
    ensures var r := GetScraperByName(name);
      var scrapers := GetAllScrapers();
      && (r.None? <==> forall i | 0 <= i < |scrapers| :: Lower(scrapers[i].name) != Lower(name))
      && (r.Some? ==> exists i | 0 <= i < |scrapers| ::
            && scrapers[i] == r.value
            && Lower(scrapers[i].name) == Lower(name)
            && forall j | 0 <= j < i :: Lower(scrapers[j].name) != Lower(name))
  {
    FindByNameSpec(GetAllScrapers(), name);
  }

  /** The lookup ignores the case of the name it is given. */
  lemma {:induction false} FindByNameIgnoresCase(classes: seq<ScraperClass>, name: string)
    ensures FindByName(classes, name) == FindByName(classes, Lower(name))
  {
    LowerIdempotent(name);
    if classes != [] {
      FindByNameIgnoresCase(classes[1..], name);
    }
  }

  lemma GetScraperByNameIgnoresCase(name: string)
    ensures GetScraperByName(name) == GetScraperByName(Lower(name))
  {
    FindByNameIgnoresCase(Classes(GetAllScrapers()), name);
  }
}
