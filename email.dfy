/**
 * The e-mail notifier: whether it is configured, the guard in `send`, and
 * the subject, plain-text body and HTML body of a sale alert.  SMTP delivery
 * is reduced to a `delivered` flag saying whether the server accepted the
 * message.
 */
module EmailNotify {
  import opened Util
  import opened Detection

  /** The sender's address and app password. */
  datatype EmailNotifier = EmailNotifier(address: Option<string>, appPassword: Option<string>)

  /** The constructor: each argument, or else its environment variable. */
  function NewEmailNotifier(address: Option<string>, appPassword: Option<string>,
                            envAddress: Option<string>, envPassword: Option<string>): EmailNotifier
  {
    EmailNotifier(OrElse(address, envAddress), OrElse(appPassword, envPassword))
  }

  /** `is_configured`: both the address and the app password are non-empty. */
  predicate IsConfigured(n: EmailNotifier)
  {
    NonEmpty(n.address) && NonEmpty(n.appPassword)
  }

  /**
   * A non-empty argument takes precedence over the environment, and the
   * notifier is configured iff the address and the password are each given
   * or found in the environment.
   */
  lemma EmailConfigured(address: Option<string>, appPassword: Option<string>,
                        envAddress: Option<string>, envPassword: Option<string>)
    ensures var n := NewEmailNotifier(address, appPassword, envAddress, envPassword);
      && (NonEmpty(address) ==> n.address == address)
      && (NonEmpty(appPassword) ==> n.appPassword == appPassword)
      && (IsConfigured(n) <==>
            (NonEmpty(address) || NonEmpty(envAddress)) && (NonEmpty(appPassword) || NonEmpty(envPassword)))
  {
  }

  /** A MIME message: subject, sender, recipient and its (subtype, text) parts. */
  datatype Message = Message(subject: string, from: string, to: string, parts: seq<(string, string)>)

  /**
   * `send`: an unconfigured notifier sends nothing; otherwise the message
   * goes from the address to itself with a plain part and, when the HTML
   * body is non-empty, an HTML part.
   */
  function Send(n: EmailNotifier, subject: string, body: string, html: string, delivered: bool)
    : (r: (bool, Option<Message>))
    ensures !IsConfigured(n) ==> r == (false, None)
    ensures IsConfigured(n) ==>
      && r.0 == delivered
      && r.1.Some?
      && r.1.value.subject == subject
      && r.1.value.from == n.address.value && r.1.value.to == n.address.value
      && |r.1.value.parts| == (if html != "" then 2 else 1)
      && r.1.value.parts[0] == ("plain", body)
      && (html != "" ==> r.1.value.parts[1] == ("html", html))
  {
    if !IsConfigured(n) then (false, None)
    else
      var parts := [("plain", body)] + (if html != "" then [("html", html)] else []);
      (delivered, Some(Message(subject, n.address.value, n.address.value, parts)))
  }

  const ShoppingBags: string := "\U{1F6CD}\U{FE0F}"

  /** The alert's subject for `n` new sales. */
  function Subject(n: nat): string
  {
    ShoppingBags + " " + DecimalString(n) + SubjectTail(n)
  }

  /** The parts of a three-part concatenation sit where their lengths say. */
  lemma ConcatParts(p: string, d: string, t: string)
    ensures var s := p + d + t;
      && s[..|p|] == p && s[|p|..|p| + |d|] == d && s[|p| + |d|..] == t
  {
    var s := p + d + t;
    assert s[..|p|] == p;
    assert s[|p|..|p| + |d|] == d;
    assert s[|p| + |d|..] == t;
  }

  /** The part of the subject after the count. */
  function SubjectTail(n: nat): string
  {
    " New Sale" + (if n > 1 then "s" else "") + " Detected!"
  }

  /** The tail ends in "Sales Detected!" exactly when there are several sales. */
  lemma SubjectTailSpec(n: nat)
    ensures var t := SubjectTail(n);
      |t| >= 19 && (n > 1 <==> t[|t| - 15..] == "Sales Detected!")
  {
    var t := SubjectTail(n);
    if n > 1 {
      assert t == " New Sales Detected!";
      assert t[5..] == "Sales Detected!";
    } else {
      assert t == " New Sale Detected!";
      assert t[4] == ' ';
    }
  }

  /** The subject carries the count, which reads back, and says "Sales" exactly when there are several. */
  lemma SubjectSpec(n: nat)
    ensures var s := Subject(n);
      var k := |DecimalString(n)|;
      && |s| > 3 + k + 15
      && s[..3] == ShoppingBags + " "
      && AllDigits(s[3..3 + k]) && DigitsValue(s[3..3 + k]) == n
      && (n > 1 <==> s[|s| - 15..] == "Sales Detected!")
  {
    var d := DecimalString(n);
    var t := SubjectTail(n);
    assert Subject(n) == (ShoppingBags + " ") + d + t;
    ConcatParts(ShoppingBags + " ", d, t);
    DecimalStringRoundTrip(n);
    SubjectTailSpec(n);
    var s := Subject(n);
    assert s[|s| - 15..] == t[|t| - 15..];
  }

  const Header: seq<string> := ["NEW SALES DETECTED\n", "========================================", ""]
  const Closing: string := "\nHappy shopping! \U{1F389}"
  const DefaultDescription: string := "Sale active"

  /** `sale.get('description', 'Sale active')`. */
  function DescriptionOf(sale: Verdict): string
  {
    if sale.description.Some? then sale.description.value else DefaultDescription
  }

  /** The four plain-text lines for one sale. */
  function SaleLines(sale: Verdict): seq<string>
  {
    ["\U{1F4CD} " + sale.storeName, "   " + DescriptionOf(sale), "   Link: " + sale.url, ""]
  }

  /** The sale lines of all sales, in input order. */
  function AllSaleLines(sales: seq<Verdict>): (lines: seq<string>)
    ensures |lines| == 4 * |sales|
  {
    if sales == [] then [] else AllSaleLines(sales[..|sales| - 1]) + SaleLines(sales[|sales| - 1])
  }

  /** Sale `i`'s four lines are at positions 4i to 4i+3. */
  lemma {:induction false} AllSaleLinesLayout(sales: seq<Verdict>, i: nat)
    requires i < |sales|
    ensures AllSaleLines(sales)[4 * i..4 * i + 4] == SaleLines(sales[i])
  {
    var init := sales[..|sales| - 1];
    var rest := AllSaleLines(init);
    var lines := AllSaleLines(sales);
    assert lines == rest + SaleLines(sales[|sales| - 1]);
    if i < |init| {
      AllSaleLinesLayout(init, i);
      assert lines[4 * i..4 * i + 4] == rest[4 * i..4 * i + 4];
    } else {
      assert lines[4 * i..4 * i + 4] == SaleLines(sales[|sales| - 1]);
    }
  }

  /** The plain body's lines: header, four lines per sale, closing line. */
  function BodyLines(sales: seq<Verdict>): seq<string>
  {
    Header + AllSaleLines(sales) + [Closing]
  }

  /** Where each sale's lines sit in the plain body. */
  lemma BodyLinesLayout(sales: seq<Verdict>, i: nat)
    requires i < |sales|
    ensures var lines := BodyLines(sales);
      && |lines| == 4 * |sales| + 4
      && lines[..3] == Header
      && lines[|lines| - 1] == Closing
      && lines[3 + 4 * i..3 + 4 * i + 4] == SaleLines(sales[i])
  {
    var body := AllSaleLines(sales);
    var lines := BodyLines(sales);
    AllSaleLinesLayout(sales, i);
    assert lines[3 + 4 * i..3 + 4 * i + 4] == body[4 * i..4 * i + 4];
  }

  /** The plain-text body lines as `send_sale_alert` builds them, with `extend` in a loop. */
  method BuildBodyLines(sales: seq<Verdict>) returns (lines: seq<string>)
    ensures lines == BodyLines(sales)
  {
    lines := Header;
    for i := 0 to |sales|
      invariant lines == Header + AllSaleLines(sales[..i])
    {
      assert sales[..i + 1][..i] == sales[..i];
      lines := lines + SaleLines(sales[i]);
    }
    assert sales[..|sales|] == sales;
    lines := lines + [Closing];
  }

  const ItemOpen: string := "\n            <div style=\"margin-bottom: 20px; padding: 15px; background: #f8f9fa; border-radius: 8px; border-left: 4px solid #007bff;\">\n                <h3 style=\"margin: 0 0 8px 0; color: #333;\">"
  const ItemAfterName: string := "</h3>\n                <p style=\"margin: 0 0 8px 0; color: #666;\">"
  const ItemAfterDescription: string := "</p>\n                <a href=\""
  const ItemClose: string := "\" style=\"color: #007bff; text-decoration: none;\">Shop Now \U{2192}</a>\n            </div>\n            "

  /** The HTML block for one sale: its name, description and a link to its sale page. */
  function HtmlItem(sale: Verdict): string
  {
    ItemOpen + sale.storeName + ItemAfterName + DescriptionOf(sale) + ItemAfterDescription + sale.url + ItemClose
  }

  /**
   * The HTML blocks of all sales, concatenated in input order;
   * `Util.ConcatMapLayout` places each block right after the ones before it.
   */
  function HtmlItems(sales: seq<Verdict>): string
  {
    ConcatMap(HtmlItem, sales)
  }

  /** `html_items` as built with `+=` in a loop. */
  method BuildHtmlItems(sales: seq<Verdict>) returns (items: string)
    ensures items == HtmlItems(sales)
  {
    items := "";
    for i := 0 to |sales|
      invariant items == ConcatMap(HtmlItem, sales[..i])
    {
      assert sales[..i + 1][..i] == sales[..i];
      items := items + HtmlItem(sales[i]);
    }
    assert sales[..|sales|] == sales;
  }

  const BodyOpen: string := "\n        <!DOCTYPE html>\n        <html>\n        <head>\n            <meta charset=\"utf-8\">\n        </head>\n        <body style=\"font-family: -apple-system, BlinkMacSystemFont, 'Segoe UI', Roboto, sans-serif; max-width: 600px; margin: 0 auto; padding: 20px;\">\n            <h1 style=\"color: #333;\">\U{1F6CD}\U{FE0F} New Sales Detected!</h1>\n            <p style=\"color: #666;\">The following stores have started new sales:</p>\n            "
  const BodyClose: string := "\n            <p style=\"color: #999; font-size: 12px; margin-top: 30px;\">\n                Sent by Stockholm Fashion Sale Alert\n            </p>\n        </body>\n        </html>\n        "

  /** The HTML document around the sale blocks. */
  function HtmlBody(items: string): string
  {
    BodyOpen + items + BodyClose
  }

  /**
   * `send_sale_alert`: nothing for an empty list; otherwise the subject,
   * the plain body and the HTML body handed to `send`.
   */
  method SendSaleAlert(n: EmailNotifier, sales: seq<Verdict>, delivered: bool)
    returns (sent: bool, message: Option<Message>)
    ensures sales == [] ==> !sent && message.None?
    ensures sales != [] ==>
      (sent, message) == Send(n, Subject(|sales|), Join(BodyLines(sales), "\n"), HtmlBody(HtmlItems(sales)), delivered)
    ensures sent ==> sales != [] && IsConfigured(n) && delivered
  {
    if sales == [] {
      return false, None;
    }
    var subject := Subject(|sales|);
    var lines := BuildBodyLines(sales);
    var body := Join(lines, "\n");
    var items := BuildHtmlItems(sales);
    var html := HtmlBody(items);
    var r := Send(n, subject, body, html, delivered);
    return r.0, r.1;
  }
}
