/**
 * The phone push notifier: the JSON payload `send` posts to ntfy.sh and
 * the title, message and link of a sale alert.  The HTTP post is reduced
 * to a `delivered` flag saying whether it succeeded.
 */
module NtfyNotify {
  import opened Util
  import opened Json
  import opened Detection

  /** The topic: the constructor's argument, or else the environment's. */
  datatype NtfyNotifier = NtfyNotifier(topic: Option<string>)

  function NewNtfyNotifier(topic: Option<string>, envTopic: Option<string>): NtfyNotifier
  {
    NtfyNotifier(OrElse(topic, envTopic))
  }

  /** `is_configured`: the topic is non-empty. */
  predicate IsConfigured(n: NtfyNotifier)
  {
    NonEmpty(n.topic)
  }

  /**
   * A non-empty topic argument takes precedence over the environment, and
   * the notifier is configured iff a topic is given or found there.
   */
  lemma NtfyConfigured(topic: Option<string>, envTopic: Option<string>)
    ensures var n := NewNtfyNotifier(topic, envTopic);
      && (NonEmpty(topic) ==> n.topic == topic)
      && (IsConfigured(n) <==> NonEmpty(topic) || NonEmpty(envTopic))
  {
  }

  /** The JSON strings of a list of Python strings. */
  function Strs(xs: seq<string>): (vs: seq<Value>)
    ensures |vs| == |xs| && forall i | 0 <= i < |xs| :: vs[i] == Str(xs[i])
  {
    seq(|xs|, i requires 0 <= i < |xs| => Str(xs[i]))
  }

  /** ntfy's numeric priority for the priority name. */
  function PriorityLevel(priority: string): int
  {
    if priority == "high" then 4 else 3
  }

  /**
   * `send`: an unconfigured notifier posts nothing.  Otherwise the payload
   * carries topic, title, message and priority, the tags only when the
   * list is non-empty, the link only when it is non-empty; the result is
   * whether the post succeeded.
   */
  method Send(n: NtfyNotifier, title: string, message: string, priority: string,
              tags: Option<seq<string>>, click: Option<string>, delivered: bool)
    returns (sent: bool, payload: Option<map<string, Value>>)
    ensures !IsConfigured(n) ==> !sent && payload.None?
    ensures IsConfigured(n) ==> sent == delivered && payload.Some?
    ensures payload.Some? ==>
      var p := payload.value;
      && IsConfigured(n)
      && p.Keys <= {"topic", "title", "message", "priority", "tags", "click"}
      && {"topic", "title", "message", "priority"} <= p.Keys
      && p["topic"] == Str(n.topic.value)
      && p["title"] == Str(title)
      && p["message"] == Str(message)
      && p["priority"] == Num(PriorityLevel(priority))
      && ("tags" in p <==> tags.Some? && tags.value != [])
      && ("tags" in p ==> p["tags"] == Arr(Strs(tags.value)))
      && ("click" in p <==> click.Some? && click.value != "")
      && ("click" in p ==> p["click"] == Str(click.value))
  {
    if !IsConfigured(n) {
      return false, None;
    }
    var p: map<string, Value> := map[
      "topic" := Str(n.topic.value),
      "title" := Str(title),
      "message" := Str(message),
      "priority" := Num(if priority == "high" then 4 else 3)
    ];
    if tags.Some? && tags.value != [] {
      p := p["tags" := Arr(Strs(tags.value))];
    }
    if click.Some? && click.value != "" {
      p := p["click" := Str(click.value)];
    }
    return delivered, Some(p);
  }

  const DefaultMessage: string := "REA p\U{00E5}g\U{00E5}r!"
  const MaxNamed: nat := 5

  /** `sale.get("description", "REA pågår!")`. */
  function MessageOf(sale: Verdict): string
  {
    if sale.description.Some? then sale.description.value else DefaultMessage
  }

  /** The names of at most the first five stores, then "+k till" for the k others. */
  function StoreNames(sales: seq<Verdict>): seq<string>
  {
    seq(Min(|sales|, MaxNamed), i requires 0 <= i < Min(|sales|, MaxNamed) => sales[i].storeName)
    + (if |sales| > MaxNamed then ["+" + DecimalString(|sales| - MaxNamed) + " till"] else [])
  }

  /** The store list names the first five stores in order and counts the rest. */
  lemma StoreNamesSpec(sales: seq<Verdict>)
    ensures var names := StoreNames(sales);
      && |names| == (if |sales| > MaxNamed then MaxNamed + 1 else |sales|)
      && (forall i | 0 <= i < Min(|sales|, MaxNamed) :: names[i] == sales[i].storeName)
      && (|sales| > MaxNamed ==>
            var more := names[MaxNamed];
            var k := |DecimalString(|sales| - MaxNamed)|;
            && |more| == k + 6
            && more[0] == '+' && more[k + 1..] == " till"
            && AllDigits(more[1..k + 1]) && DigitsValue(more[1..k + 1]) == |sales| - MaxNamed)
  {
    if |sales| > MaxNamed {
      var d := DecimalString(|sales| - MaxNamed);
      var more := "+" + d + " till";
      assert more[1..|d| + 1] == d;
      assert more[|d| + 1..] == " till";
      DecimalStringRoundTrip(|sales| - MaxNamed);
    }
  }

  /** The title, message and link of an alert about one or more sales. */
  function Alert(sales: seq<Verdict>): (string, string, string)
    requires sales != []
  {
    if |sales| == 1 then ("REA: " + sales[0].storeName, MessageOf(sales[0]), sales[0].url)
    else (DecimalString(|sales|) + " nya reor!", Join(StoreNames(sales), ", "), sales[0].url)
  }

  /** One sale: the title names its store, the message is its description, the link is its page. */
  lemma AlertSingle(sale: Verdict)
    ensures var (title, message, click) := Alert([sale]);
      && title[..5] == "REA: " && title[5..] == sale.storeName
      && message == MessageOf(sale)
      && (sale.description.None? ==> message == DefaultMessage)
      && click == sale.url
  {
  }

  /** Several sales: the title's number reads back as their count and the link is the first sale's page. */
  lemma AlertMany(sales: seq<Verdict>)
    requires |sales| > 1
    ensures var (title, message, click) := Alert(sales);
      var k := |DecimalString(|sales|)|;
      && |title| == k + 10
      && AllDigits(title[..k]) && DigitsValue(title[..k]) == |sales|
      && title[k..] == " nya reor!"
      && message == Join(StoreNames(sales), ", ")
      && click == sales[0].url
  {
    var d := DecimalString(|sales|);
    var title := d + " nya reor!";
    assert title[..|d|] == d;
    assert title[|d|..] == " nya reor!";
    DecimalStringRoundTrip(|sales|);
  }

  const AlertTags: seq<string> := ["shopping_bags"]

  /**
   * `send_sale_alert`: nothing for an empty list; otherwise a high-priority
   * notification tagged with shopping bags that opens the first sale's page.
   */
  method SendSaleAlert(n: NtfyNotifier, sales: seq<Verdict>, delivered: bool)
    returns (sent: bool, payload: Option<map<string, Value>>)
    ensures sales == [] ==> !sent && payload.None?
    ensures sent ==> sales != [] && IsConfigured(n) && delivered
    ensures sales != [] && IsConfigured(n) ==> sent == delivered && payload.Some?
    ensures payload.Some? ==>
      var p := payload.value;
      var (title, message, click) := Alert(sales);
      && sales != [] && IsConfigured(n)
      && p.Keys <= {"topic", "title", "message", "priority", "tags", "click"}
      && {"topic", "title", "message", "priority"} <= p.Keys
      && p["topic"] == Str(n.topic.value)
      && p["title"] == Str(title)
      && p["message"] == Str(message)
      && p["priority"] == Num(4)
      && "tags" in p && p["tags"] == Arr([Str("shopping_bags")])
      && ("click" in p <==> sales[0].url != "")
      && ("click" in p ==> p["click"] == Str(sales[0].url))
  {
    if sales == [] {
      return false, None;
    }
    var (title, message, click) := Alert(sales);
    sent, payload := Send(n, title, message, "high", Some(AlertTags), Some(click), delivered);
  }
}
