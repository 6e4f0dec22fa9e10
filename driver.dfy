/**
 * `check_all_stores`: walk the scrapers' verdicts in order, collect the
 * sales that are new, and update the state per store.  An exception while
 * handling one store (a stored entry that is not an object) is caught and
 * the loop moves on.
 */
module Driver {
  import opened Util
  import opened Json
  import opened Detection
  import opened SaleStateModel

  /** One scraper's name and the verdict its `check()` returned. */
  datatype StoreCheck = StoreCheck(name: string, result: Verdict)

  /** One iteration of the loop: the new sales map and the new sale it reports, if any. */
  function Step(sales: Sales, check: StoreCheck, now: string): (r: (Sales, Option<Verdict>))
    ensures r.1.Some? ==> r.1 == Some(check.result) && check.result.active
  {
    var name := check.name;
    var info := VerdictFields(check.result);
    if check.result.active then
      match NewSale(sales, name, info)
      case None => (sales, None)
      case Some(isNew) =>
        assert Recorded(sales, name, info, now).Some?;
        (Recorded(sales, name, info, now).value, if isNew then Some(check.result) else None)
    else if name in sales then
      match sales[name]
      case Obj(record) =>
        if IsActive(record) then (Inactivated(sales, name, now).value, None) else (sales, None)
      case _ => (sales, None)
    else (sales, None)
  }

  /** The loop over the first `|checks|` scrapers: final sales map and new sales in order. */
  function Run(sales: Sales, checks: seq<StoreCheck>, now: string): (Sales, seq<Verdict>)
  {
    if checks == [] then (sales, [])
    else
      var (before, events) := Run(sales, checks[..|checks| - 1], now);
      var (after, event) := Step(before, checks[|checks| - 1], now);
      (after, events + Emitted(event))
  }

  /** `xs` is `ys` with some elements left out, order kept. */
  predicate Subsequence<T(==)>(xs: seq<T>, ys: seq<T>)
    decreases |ys|
  {
    if xs == [] then true
    else if ys == [] then false
    else
      (xs[|xs| - 1] == ys[|ys| - 1] && Subsequence(xs[..|xs| - 1], ys[..|ys| - 1]))
      || Subsequence(xs, ys[..|ys| - 1])
  }

  function Results(checks: seq<StoreCheck>): (rs: seq<Verdict>)
    ensures |rs| == |checks|
    ensures forall i | 0 <= i < |checks| :: rs[i] == checks[i].result
  {
    seq(|checks|, i requires 0 <= i < |checks| => checks[i].result)
  }

  lemma {:induction false} SubsequenceExtend<T>(xs: seq<T>, ys: seq<T>, y: T)
    requires Subsequence(xs, ys)
    ensures Subsequence(xs, ys + [y])
  {
    if xs != [] {
      assert (ys + [y])[..|ys|] == ys;
    }
  }

  /** The events a step adds to the list. */
  function Emitted(event: Option<Verdict>): (es: seq<Verdict>)
    ensures |es| <= 1
    ensures es == [] <==> event.None?
    ensures event.Some? ==> es == [event.value]
  {
    if event.Some? then [event.value] else []
  }

  /** One more check: the run over the others, then one step. */
  lemma RunSnoc(sales: Sales, checks: seq<StoreCheck>, now: string)
    requires checks != []
    ensures var before := Run(sales, checks[..|checks| - 1], now);
      var step := Step(before.0, checks[|checks| - 1], now);
      Run(sales, checks, now) == (step.0, before.1 + Emitted(step.1))
  {
  }

  /** Appending at most the newest result keeps the events an ordered selection of the results. */
  lemma ExtendEvents(events: seq<Verdict>, results: seq<Verdict>, r: Verdict, event: Option<Verdict>)
    requires Subsequence(events, results)
    requires event.Some? ==> event.value == r
    ensures Subsequence(events + Emitted(event), results + [r])
  {
    var all := events + Emitted(event);
    var rs := results + [r];
    assert rs[..|rs| - 1] == results && rs[|rs| - 1] == r;
    if event.Some? {
      assert all[..|all| - 1] == events && all[|all| - 1] == r;
    } else {
      assert all == events;
      SubsequenceExtend(events, results, r);
    }
  }

  /** The new sales are taken from the scrapers' results, in scraper order. */
  lemma {:induction false} RunEventsInOrder(sales: Sales, checks: seq<StoreCheck>, now: string)
    ensures Subsequence(Run(sales, checks, now).1, Results(checks))
  {
    if checks != [] {
      var init := checks[..|checks| - 1];
      var last := checks[|checks| - 1];
      var rs := Results(checks);
      assert Results(init) + [last.result] == rs by {
        assert rs[..|rs| - 1] == Results(init);
      }
      RunEventsInOrder(sales, init, now);
      var before := Run(sales, init, now);
      var step := Step(before.0, last, now);
      RunSnoc(sales, checks, now);
      assert Run(sales, checks, now).1 == before.1 + Emitted(step.1);
      ExtendEvents(before.1, Results(init), last.result, step.1);
    }
  }

  /** Each scraper contributes at most one new sale, and only an active one. */
  lemma {:induction false} RunEventsActive(sales: Sales, checks: seq<StoreCheck>, now: string)
    ensures |Run(sales, checks, now).1| <= |checks|
    ensures forall e | e in Run(sales, checks, now).1 :: e.active
  {
    if checks != [] {
      var init := checks[..|checks| - 1];
      RunEventsActive(sales, init, now);
      RunSnoc(sales, checks, now);
    }
  }

  /** An active verdict for a store the state has never seen is reported and recorded. */
  lemma StepNewStore(sales: Sales, check: StoreCheck, now: string)
    requires check.result.active && check.name !in sales
    ensures Step(sales, check, now) ==
      (Recorded(sales, check.name, VerdictFields(check.result), now).value, Some(check.result))
  {
  }

  /**
   * An active verdict for a store whose record is active is not reported;
   * the record is rewritten, which refreshes `last_seen`.
   */
  lemma StepOngoingSale(sales: Sales, check: StoreCheck, now: string)
    requires check.result.active
    requires check.name in sales && sales[check.name].Obj? && IsActive(sales[check.name].fields)
    ensures var (after, event) := Step(sales, check, now);
      && event.None?
      && after == Recorded(sales, check.name, VerdictFields(check.result), now).value
      && after[check.name].fields["last_seen"] == Str(now)
  {
  }

  /** An active verdict for a store whose sale had ended is reported again. */
  lemma StepReactivation(sales: Sales, check: StoreCheck, now: string)
    requires check.result.active
    requires check.name in sales && sales[check.name].Obj? && !IsActive(sales[check.name].fields)
    ensures Step(sales, check, now) ==
      (Recorded(sales, check.name, VerdictFields(check.result), now).value, Some(check.result))
  {
  }

  /** An inactive verdict ends an active sale, whatever the reason (a failed fetch included). */
  lemma StepEndsSale(sales: Sales, check: StoreCheck, now: string)
    requires !check.result.active
    requires check.name in sales && sales[check.name].Obj? && IsActive(sales[check.name].fields)
    ensures Step(sales, check, now) == (Inactivated(sales, check.name, now).value, None)
    ensures Step(sales, check, now).0[check.name].fields["active"] == Bool(false)
  {
  }

  /** A page that could not be fetched ends the store's sale. */
  lemma FetchFailureEndsSale(sales: Sales, cfg: StoreConfig, parse: string -> Page, search: RegexSearch,
                             html: Option<string>, now: string)
    requires html.None? || html.value == ""
    requires cfg.name in sales && sales[cfg.name].Obj? && IsActive(sales[cfg.name].fields)
    ensures var check := StoreCheck(cfg.name, CheckSale(cfg, html, parse, search));
      var after := Step(sales, check, now).0;
      && after[cfg.name].fields["active"] == Bool(false)
      && after[cfg.name].fields["ended"] == Str(now)
  {
    var check := StoreCheck(cfg.name, CheckSale(cfg, html, parse, search));
    StepEndsSale(sales, check, now);
  }

  /**
   * An inactive verdict for a store with no record, an inactive record or a
   * record that is not an object leaves the state alone; so does an active
   * verdict for a store whose record is not an object.
   */
  lemma StepNoChange(sales: Sales, check: StoreCheck, now: string)
    requires
      || (!check.result.active &&
            (check.name !in sales || !sales[check.name].Obj? || !IsActive(sales[check.name].fields)))
      || (check.name in sales && !sales[check.name].Obj?)
    ensures Step(sales, check, now) == (sales, None)
  {
  }

  /** A step changes only the checked store's entry and removes none. */
  lemma StepFrame(sales: Sales, check: StoreCheck, now: string)
    ensures var after := Step(sales, check, now).0;
      && sales.Keys <= after.Keys
      && after.Keys <= sales.Keys + {check.name}
      && forall k | k in sales && k != check.name :: after[k] == sales[k]
  {
  }

  /** A run leaves the entries of stores it did not check untouched. */
  lemma {:induction false} RunFrame(sales: Sales, checks: seq<StoreCheck>, now: string, other: string)
    requires forall i | 0 <= i < |checks| :: checks[i].name != other
    ensures other in Run(sales, checks, now).0 <==> other in sales
    ensures other in sales ==> Run(sales, checks, now).0[other] == sales[other]
  {
    if checks != [] {
      var init := checks[..|checks| - 1];
      RunFrame(sales, init, now, other);
      StepFrame(Run(sales, init, now).0, checks[|checks| - 1], now);
    }
  }

  /** A second run over a still-active store reports nothing for it. */
  lemma NoRenotifyNextRun(sales: Sales, first: StoreCheck, second: StoreCheck, t1: string, t2: string)
    requires first.result.active && second.result.active && first.name == second.name
    requires first.name !in sales || sales[first.name].Obj?
    ensures Run(sales, [first], t1).1 == (if NewSale(sales, first.name, VerdictFields(first.result)) == Some(true)
                                          then [first.result] else [])
    ensures Run(Run(sales, [first], t1).0, [second], t2).1 == []
  {
    assert [first][..0] == [] && [second][..0] == [];
    var info := VerdictFields(first.result);
    NoRenotifyAfterRecord(sales, first.name, info, t1, VerdictFields(second.result));
  }

  /** `check_all_stores`, given the verdicts of the scrapers in order. */
  method CheckAllStores(state: SaleState, checks: seq<StoreCheck>, now: string) returns (newSales: seq<Verdict>)
    modifies state
    ensures (state.sales, newSales) == Run(old(state.sales), checks, now)
    ensures state.lastCheck == old(state.lastCheck)
  {
    newSales := [];
    for i := 0 to |checks|
      invariant (state.sales, newSales) == Run(old(state.sales), checks[..i], now)
      invariant state.lastCheck == old(state.lastCheck)
    {
      var check := checks[i];
      assert checks[..i + 1][..i] == checks[..i] && checks[..i + 1][i] == check;
      ghost var expected := Step(state.sales, check, now);
      ghost var reported := newSales;
      var result := check.result;
      ghost var before := state.sales;
      var info := VerdictFields(result);
      if result.active {
        var isNew := state.IsNewSale(check.name, info);
        match isNew {
          case None =>
            assert expected == (state.sales, None);
          case Some(true) =>
            newSales := newSales + [result];
            var _ := state.RecordSale(check.name, info, now);
            assert state.sales == Recorded(before, check.name, info, now).value;
            assert expected == (state.sales, Some(result));
          case Some(false) =>
            var _ := state.RecordSale(check.name, info, now);
            assert state.sales == Recorded(before, check.name, info, now).value;
            assert expected == (state.sales, None);
        }
      } else if check.name in state.sales {
        match state.sales[check.name] {
          case Obj(record) =>
            if IsActive(record) {
              var _ := state.MarkInactive(check.name, now);
              assert expected == (state.sales, None);
            } else {
              assert expected == (state.sales, None);
            }
          case _ =>
            assert expected == (state.sales, None);
        }
      } else {
        assert expected == (state.sales, None);
      }
      assert state.sales == expected.0;
      assert newSales == reported + (if expected.1.Some? then [expected.1.value] else []);
    }
    assert checks[..|checks|] == checks;
  }
}
