/**
 * The seen/unseen sale state: a map from store name to the JSON record last
 * stored for it, with the operations the driver uses on it.
 *
 * Records come from a JSON file and need not be objects; the operations
 * that call `.get` on, or assign into, a record raise when it is not one.
 * The pure functions return `None` for that case and the class methods
 * report it and leave the state as it was.
 */
module SaleStateModel {
  import opened Util
  import opened Json
  import opened Detection

  type Sales = map<string, Value>

  /** The dictionary a verdict is; absent optional keys are left out. */
  function VerdictFields(v: Verdict): (f: map<string, Value>)
    ensures "active" in f && f["active"] == Bool(v.active)
    ensures "store_name" in f && f["store_name"] == Str(v.storeName)
    ensures "url" in f && f["url"] == Str(v.url)
    ensures "description" in f <==> v.description.Some?
    ensures "item_count" in f <==> v.itemCount.Some?
    ensures "error" in f <==> v.error.Some?
    ensures v.description.Some? ==> f["description"] == Str(v.description.value)
    ensures v.itemCount.Some? ==> f["item_count"] == Num(v.itemCount.value)
    ensures v.error.Some? ==> f["error"] == Str(v.error.value)
    ensures "first_seen" !in f && "last_seen" !in f && "ended" !in f
  {
    var base := map["active" := Bool(v.active), "store_name" := Str(v.storeName), "url" := Str(v.url)];
    var described := if v.description.Some? then base["description" := Str(v.description.value)] else base;
    var counted := if v.itemCount.Some? then described["item_count" := Num(v.itemCount.value)] else described;
    if v.error.Some? then counted["error" := Str(v.error.value)] else counted
  }

  /** `record.get("active", False)` is truthy. */
  predicate IsActive(record: map<string, Value>)
  {
    Truthy(Get(record, "active", Bool(false)))
  }

  /**
   * The state file as opening and decoding it turns out: absent, failing
   * with an I/O error, not valid JSON, not valid UTF-8, or decoded.
   */
  datatype StateFile = Missing | Unreadable | NotJson | BadEncoding | Decoded(sales: Sales, lastCheck: Value)

  /** The exception a state file that is not valid UTF-8 raises out of `_load_state`. */
  const EncodingError: string := "UnicodeDecodeError"

  /** `is_new_sale`; `None` when the stored entry is not an object. */
  function NewSale(sales: Sales, name: string, info: map<string, Value>): (r: Option<bool>)
    ensures name !in sales ==> r == Some(true)
    ensures name in sales && sales[name].Obj? ==>
      (r == Some(true) <==> !IsActive(sales[name].fields) && IsActive(info))
    ensures r.None? <==> name in sales && !sales[name].Obj?
  {
    if name !in sales then Some(true)
    else
      match sales[name]
      case Obj(existing) => Some(!IsActive(existing) && IsActive(info))
      case _ => None
  }

  /** The record `record_sale` stores: the verdict's fields plus `first_seen` and `last_seen`. */
  function NewRecord(previous: map<string, Value>, info: map<string, Value>, now: string): map<string, Value>
  {
    info["first_seen" := Get(previous, "first_seen", Str(now))]["last_seen" := Str(now)]
  }

  /** `record_sale`; `None` when the stored entry is not an object. */
  function Recorded(sales: Sales, name: string, info: map<string, Value>, now: string): (r: Option<Sales>)
    ensures r.None? <==> name in sales && !sales[name].Obj?
    ensures r.Some? ==>
      var s := r.value;
      && s.Keys == sales.Keys + {name}
      && (forall k | k in sales && k != name :: s[k] == sales[k])
      && s[name].Obj?
      && "first_seen" in s[name].fields && "last_seen" in s[name].fields
      && s[name].fields["last_seen"] == Str(now)
      && (name in sales && "first_seen" in sales[name].fields ==>
            s[name].fields["first_seen"] == sales[name].fields["first_seen"])
      && (name !in sales || "first_seen" !in sales[name].fields ==> s[name].fields["first_seen"] == Str(now))
      && (forall k | k != "first_seen" && k != "last_seen" ::
            (k in s[name].fields <==> k in info) && (k in info ==> s[name].fields[k] == info[k]))
  {
    if name !in sales then Some(sales[name := Obj(NewRecord(map[], info, now))])
    else
      match sales[name]
      case Obj(previous) => Some(sales[name := Obj(NewRecord(previous, info, now))])
      case _ => None
  }

  /** `mark_inactive`; `None` when the stored entry is not an object. */
  function Inactivated(sales: Sales, name: string, now: string): (r: Option<Sales>)
    ensures r.None? <==> name in sales && !sales[name].Obj?
    ensures r.Some? ==>
      var s := r.value;
      && s.Keys == sales.Keys
      && (forall k | k in sales && k != name :: s[k] == sales[k])
      && (name !in sales ==> s == sales)
      && (name in sales ==>
            && s[name].Obj?
            && "active" in s[name].fields && "ended" in s[name].fields
            && s[name].fields["active"] == Bool(false)
            && s[name].fields["ended"] == Str(now)
            && s[name].fields.Keys == sales[name].fields.Keys + {"active", "ended"}
            && forall k | k in sales[name].fields && k != "active" && k != "ended" ::
                 s[name].fields[k] == sales[name].fields[k])
  {
    if name !in sales then Some(sales)
    else
      match sales[name]
      case Obj(record) => Some(sales[name := Obj(record["active" := Bool(false)]["ended" := Str(now)])])
      case _ => None
  }

  /** `get_active_sales`; `None` when some entry is not an object. */
  function ActiveSales(sales: Sales): (r: Option<Sales>)
    ensures r.None? <==> exists name | name in sales :: !sales[name].Obj?
    ensures r.Some? ==>
      && (forall name :: name in r.value <==> name in sales && IsActive(sales[name].fields))
      && (forall name | name in r.value :: r.value[name] == sales[name])
  {
    if exists name | name in sales :: !sales[name].Obj? then None
    else Some(map name | name in sales && IsActive(sales[name].fields) :: sales[name])
  }

  /** Recording an active verdict means no later verdict for that store is new. */
  lemma NoRenotifyAfterRecord(sales: Sales, name: string, info: map<string, Value>, now: string,
                              later: map<string, Value>)
    requires Recorded(sales, name, info, now).Some?
    requires IsActive(info)
    ensures NewSale(Recorded(sales, name, info, now).value, name, later) == Some(false)
  {
    var s := Recorded(sales, name, info, now).value;
    var previous := if name in sales then sales[name].fields else map[];
    assert s[name].fields["active"] == info["active"];
  }

  /** After a sale has ended, the next active verdict for that store is new again. */
  lemma ReactivationRenotifies(sales: Sales, name: string, now: string, info: map<string, Value>)
    requires name in sales && sales[name].Obj?
    ensures Inactivated(sales, name, now).Some?
    ensures NewSale(Inactivated(sales, name, now).value, name, info) == Some(IsActive(info))
  {
    var s := Inactivated(sales, name, now).value;
    assert s[name].fields["active"] == Bool(false);
  }

  /** Recording a verdict never carries an old `ended` stamp over. */
  lemma RecordDropsEnded(sales: Sales, name: string, v: Verdict, now: string)
    requires Recorded(sales, name, VerdictFields(v), now).Some?
    ensures "ended" !in Recorded(sales, name, VerdictFields(v), now).value[name].fields
  {
  }

  /** Recording twice only moves `last_seen`: re-checking an ongoing sale changes nothing else. */
  lemma RecordTwice(sales: Sales, name: string, info: map<string, Value>, t1: string, t2: string)
    requires Recorded(sales, name, info, t1).Some?
    ensures var s1 := Recorded(sales, name, info, t1).value;
      && Recorded(s1, name, info, t2).Some?
      && Recorded(s1, name, info, t2).value == s1[name := Obj(s1[name].fields["last_seen" := Str(t2)])]
  {
    var s1 := Recorded(sales, name, info, t1).value;
    var r1 := s1[name].fields;
    var r2 := NewRecord(r1, info, t2);
    assert r2 == r1["last_seen" := Str(t2)];
  }

  /** A recorded active sale is listed as active; an ended one is not. */
  lemma ActiveSalesTrack(sales: Sales, name: string, info: map<string, Value>, now: string)
    requires forall k | k in sales :: sales[k].Obj?
    ensures Recorded(sales, name, info, now).Some? && ActiveSales(Recorded(sales, name, info, now).value).Some?
    ensures IsActive(info) ==> name in ActiveSales(Recorded(sales, name, info, now).value).value
    ensures name in sales ==> name !in ActiveSales(Inactivated(sales, name, now).value).value
  {
    RecordedListed(sales, name, info, now);
    if name in sales {
      InactivatedNotListed(sales, name, now);
    }
  }

  lemma RecordedListed(sales: Sales, name: string, info: map<string, Value>, now: string)
    requires forall k | k in sales :: sales[k].Obj?
    ensures Recorded(sales, name, info, now).Some? && ActiveSales(Recorded(sales, name, info, now).value).Some?
    ensures IsActive(info) ==> name in ActiveSales(Recorded(sales, name, info, now).value).value
  {
    var s := Recorded(sales, name, info, now).value;
    if IsActive(info) {
      assert "active" in info;
      assert IsActive(s[name].fields);
    }
  }

  lemma InactivatedNotListed(sales: Sales, name: string, now: string)
    requires forall k | k in sales :: sales[k].Obj?
    requires name in sales
    ensures Inactivated(sales, name, now).Some? && ActiveSales(Inactivated(sales, name, now).value).Some?
    ensures name !in ActiveSales(Inactivated(sales, name, now).value).value
  {
    var t := Inactivated(sales, name, now).value;
    assert t[name].fields["active"] == Bool(false);
  }

  /** `SaleState`: the loaded state, updated in place by the driver. */
  class SaleState {
    var sales: Sales
    var lastCheck: Value

    constructor (sales: Sales, lastCheck: Value)
      ensures this.sales == sales && this.lastCheck == lastCheck
    {
      this.sales := sales;
      this.lastCheck := lastCheck;
    }

    /**
     * `SaleState(state_file)`: a decoded file gives its sales and last
     * check; a missing, unreadable or non-JSON file gives no sales and no
     * last check; a file that is not valid UTF-8 makes the constructor raise.
     */
    static method Open(file: StateFile) returns (r: Result<SaleState, string>)
      ensures r.Failure? <==> file.BadEncoding?
      ensures r.Failure? ==> r.error == EncodingError
      ensures r.Success? ==> fresh(r.value)
      ensures file.Decoded? ==> r.Success? && r.value.sales == file.sales && r.value.lastCheck == file.lastCheck
      ensures file.Missing? || file.Unreadable? || file.NotJson? ==>
        r.Success? && r.value.sales == map[] && r.value.lastCheck == Null
    {
      match file {
        case BadEncoding =>
          return Failure(EncodingError);
        case Decoded(sales, lastCheck) =>
          var state := new SaleState(sales, lastCheck);
          return Success(state);
        case _ =>
          var state := new SaleState(map[], Null);
          return Success(state);
      }
    }

    /** `save`: stamps `last_check`; writing the file is not modelled. */
    method Save(now: string)
      modifies this
      ensures lastCheck == Str(now) && sales == old(sales)
    {
      lastCheck := Str(now);
    }

    function IsNewSale(name: string, info: map<string, Value>): Option<bool>
      reads this
    {
      NewSale(sales, name, info)
    }

    function GetActiveSales(): Option<Sales>
      reads this
    {
      ActiveSales(sales)
    }

    /** `record_sale`; `raised` when the stored entry is not an object, and then nothing changes. */
    method RecordSale(name: string, info: map<string, Value>, now: string) returns (raised: bool)
      modifies this
      ensures raised <==> Recorded(old(sales), name, info, now).None?
      ensures !raised ==> sales == Recorded(old(sales), name, info, now).value
      ensures raised ==> sales == old(sales)
      ensures lastCheck == old(lastCheck)
    {
      var previous: map<string, Value> := map[];
      if name in sales {
        if !sales[name].Obj? {
          return true;
        }
        previous := sales[name].fields;
      }
      var firstSeen := Get(previous, "first_seen", Str(now));
      sales := sales[name := Obj(info["first_seen" := firstSeen]["last_seen" := Str(now)])];
      return false;
    }

    /** `mark_inactive`; `raised` when the stored entry is not an object, and then nothing changes. */
    method MarkInactive(name: string, now: string) returns (raised: bool)
      modifies this
      ensures raised <==> Inactivated(old(sales), name, now).None?
      ensures !raised ==> sales == Inactivated(old(sales), name, now).value
      ensures raised ==> sales == old(sales)
      ensures lastCheck == old(lastCheck)
    {
      if name in sales {
        if !sales[name].Obj? {
          return true;
        }
        var record := sales[name].fields;
        record := record["active" := Bool(false)];
        sales := sales[name := Obj(record)];
        record := record["ended" := Str(now)];
        sales := sales[name := Obj(record)];
      }
      return false;
    }
  }
}
