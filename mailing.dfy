/** email_delivery.py: validation of the SMTP settings, the HTML and plain
    text renderings of the items shown in the mail body, the "more items"
    notice, and the decisions send_email takes before and while connecting.
    EMAIL_CONFIG and the summary size are constructor arguments; the SMTP
    session itself is one boolean outcome. */
module Mailing {
  import opened Base

  /** A value of EMAIL_CONFIG: text (host, user, addresses), a number (the
      port) or a flag (enabled, use_tls, use_ssl). */
  datatype Value = Text(s: string) | Number(n: int) | Flag(b: bool)

  /** Python truthiness of config.get(key): a missing key, '', 0 and False
      are all false. */
  predicate IsSet(config: map<string, Value>, key: string) {
    key in config &&
    match config[key]
      case Text(s) => s != ""
      case Number(n) => n != 0
      case Flag(b) => b
  }

  const RequiredFields: seq<string> := ["host", "port", "username", "password", "to_email"]

  /** A configuration _validate_config accepts: every required field is set. */
  predicate ConfigComplete(config: map<string, Value>) {
    forall f :: f in RequiredFields ==> IsSet(config, f)
  }

  // ---------------------------------------------------------------------------
  // Item renderings
  // ---------------------------------------------------------------------------

  /** The description as shown in a mail: cut to 197 characters and "..."
      past 200. */
  function MailDescription(d: string): (shown: string)
    ensures |shown| <= 200
    ensures |d| <= 200 ==> shown == d
    ensures |d| > 200 ==> shown == d[..197] + "..."
  {
    TruncateBounded(d, 200, 197);
    Truncate(d, 200, 197)
  }

  /** The fields an item shows in the mail, after defaults and truncation. */
  datatype Shown = Shown(title: string, link: string, feedName: string, pubDate: string, description: string)

  /** The fields as both formatters read them; only the link's default
      differs: '#' in HTML and '' in text. */
  function ShownFields(item: Item, linkDefault: string): Shown {
    Shown(GetOr(item, "title", "Untitled"), GetOr(item, "link", linkDefault),
          GetOr(item, "feed_name", "Unknown Source"), GetOr(item, "pubDate", ""),
          MailDescription(GetOr(item, "description", "")))
  }

  /** The "| Published" fragment, empty without a date. */
  function PublishedFragment(pubDate: string): string {
    if pubDate != "" then "| <strong>Published:</strong> " + pubDate else ""
  }

  /** The description element, empty without a description. */
  function DescriptionFragment(description: string): string {
    if description != "" then "<div class=\"description\">" + description + "</div>" else ""
  }

  const ItemOpen: string := "\n        <div class=\"item\">\n            <h3><a href=\""
  const ItemTitle: string := "\">"
  const ItemSource: string := "</a></h3>\n            <div class=\"meta\">\n                <strong>Source:</strong> "
  const ItemPublished: string := "\n                "
  const ItemDescription: string := "\n            </div>\n            "
  const ItemClose: string := "\n        </div>\n            "

  /** The HTML block of one item. */
  function RenderHtml(f: Shown): string {
    ItemOpen + f.link + ItemTitle + f.title + ItemSource + f.feedName
    + ItemPublished + PublishedFragment(f.pubDate)
    + ItemDescription + DescriptionFragment(f.description)
    + ItemClose
  }

  function HtmlBlock(item: Item): string {
    RenderHtml(ShownFields(item, "#"))
  }

  /** html_parts' contribution for one item. */
  function HtmlPart(n: nat, item: Item): seq<string> {
    [HtmlBlock(item)]
  }

  /** The lines text_parts gets for item number `n`: the numbered title, the
      source, then link, date and description when non-empty, then a blank
      line. */
  function TextLines(n: nat, item: Item): seq<string> {
    RenderText(n, ShownFields(item, ""))
  }

  const SourceLabel: string := "   Source: "
  const LinkLabel: string := "   Link: "
  const PublishedLabel: string := "   Published: "
  const Indent: string := "   "

  function RenderText(n: nat, f: Shown): seq<string> {
    [NatToString(n) + ". " + f.title, SourceLabel + f.feedName]
    + (if f.link != "" then [LinkLabel + f.link] else [])
    + (if f.pubDate != "" then [PublishedLabel + f.pubDate] else [])
    + (if f.description != "" then [Indent + f.description] else [])
    + [""]
  }

  /** _format_items_html: the blocks of items[:max_items], joined by newlines. */
  function ItemsHtml(items: seq<Item>, maxItems: int): string {
    Join(Blocks(Take(items, maxItems), 1, HtmlPart), "\n")
  }

  /** The text_parts list of _format_items_text. */
  function ItemsTextLines(items: seq<Item>, maxItems: int): seq<string> {
    Blocks(Take(items, maxItems), 1, TextLines)
  }

  /** _format_items_text: the lines joined by newlines. */
  function ItemsText(items: seq<Item>, maxItems: int): string {
    Join(ItemsTextLines(items, maxItems), "\n")
  }

  /** Only the first `maxItems` items are shown (all but the last -maxItems
      for a negative bound, as Python slicing does), one HTML block each, in
      order. */
  lemma ShownItems(items: seq<Item>, maxItems: int)
    ensures 0 <= maxItems ==> |Take(items, maxItems)| == if maxItems < |items| then maxItems else |items|
    ensures |Blocks(Take(items, maxItems), 1, HtmlPart)| == |Take(items, maxItems)|
    ensures forall k :: 0 <= k < |Take(items, maxItems)| ==>
              Blocks(Take(items, maxItems), 1, HtmlPart)[k] == HtmlBlock(items[k])
  {
    var shown := Take(items, maxItems);
    BlocksOfSingletons(shown, 1, HtmlPart);
  }

  /** An empty publication date or description renders exactly like a
      missing one, in both formats. */
  lemma EmptyFieldRendersAsMissing(item: Item, key: string, n: nat)
    requires key == "pubDate" || key == "description"
    requires key in item && item[key] == ""
    ensures HtmlBlock(item) == HtmlBlock(item - {key})
    ensures TextLines(n, item) == TextLines(n, item - {key})
  {
    var rest := item - {key};
    assert ShownFields(rest, "#") == ShownFields(item, "#");
    assert ShownFields(rest, "") == ShownFields(item, "");
  }

  /** The lines of one item: title first, source second, a blank line last,
      and one more line per non-empty link, date and description. */
  lemma TextLinesShape(n: nat, item: Item)
    ensures |TextLines(n, item)| ==
              3 + (if GetOr(item, "link", "") != "" then 1 else 0)
                + (if GetOr(item, "pubDate", "") != "" then 1 else 0)
                + (if GetOr(item, "description", "") != "" then 1 else 0)
    ensures TextLines(n, item)[0] == NatToString(n) + ". " + GetOr(item, "title", "Untitled")
    ensures TextLines(n, item)[1] == "   Source: " + GetOr(item, "feed_name", "Unknown Source")
    ensures TextLines(n, item)[|TextLines(n, item)| - 1] == ""
  {
    var d := GetOr(item, "description", "");
    assert MailDescription(d) == "" <==> d == "";
  }

  // ---------------------------------------------------------------------------
  // Reading the text back
  // ---------------------------------------------------------------------------

  /** No field of the item spans several lines. */
  predicate SingleLineFields(item: Item) {
    forall k :: k in item ==> '\n' !in item[k]
  }

  lemma NumberHasNoNewline(n: nat)
    ensures '\n' !in NatToString(n)
  {
    var s := NatToString(n);
    forall i | 0 <= i < |s| ensures s[i] != '\n' {
      assert '0' <= s[i] <= '9';
    }
  }

  /** Every line of `lines` is a single line. */
  predicate AllOneLine(lines: seq<string>) {
    forall j :: 0 <= j < |lines| ==> '\n' !in lines[j]
  }

  lemma OneLineConcat(a: string, b: string)
    requires '\n' !in a && '\n' !in b
    ensures '\n' !in a + b
  {
    forall i | |a| <= i < |a + b| ensures (a + b)[i] != '\n' {
      assert (a + b)[i] == b[i - |a|];
    }
  }

  lemma AllOneLineConcat(a: seq<string>, b: seq<string>)
    requires AllOneLine(a) && AllOneLine(b)
    ensures AllOneLine(a + b)
  {
    forall j | |a| <= j < |a + b| ensures '\n' !in (a + b)[j] {
      assert (a + b)[j] == b[j - |a|];
    }
  }

  /** The fields shown for a single-line item are single lines. */
  lemma ShownFieldsAreLines(item: Item)
    requires SingleLineFields(item)
    ensures var f := ShownFields(item, "");
            '\n' !in f.title && '\n' !in f.link && '\n' !in f.feedName && '\n' !in f.pubDate && '\n' !in f.description
  {
    var d := GetOr(item, "description", "");
    if |d| > 200 {
      assert forall i :: 0 <= i < 197 ==> d[..197][i] == d[i];
      OneLineConcat(d[..197], "...");
    }
  }

  /** The lines of an item whose fields are single lines hold no newline. */
  lemma ItemLinesAreLines(n: nat, item: Item)
    requires SingleLineFields(item)
    ensures AllOneLine(TextLines(n, item))
  {
    var f := ShownFields(item, "");
    ShownFieldsAreLines(item);
    NumberHasNoNewline(n);
    assert '\n' !in ". " && '\n' !in SourceLabel && '\n' !in LinkLabel && '\n' !in PublishedLabel && '\n' !in Indent;
    OneLineConcat(NatToString(n), ". ");
    OneLineConcat(NatToString(n) + ". ", f.title);
    OneLineConcat(SourceLabel, f.feedName);
    OneLineConcat(LinkLabel, f.link);
    OneLineConcat(PublishedLabel, f.pubDate);
    OneLineConcat(Indent, f.description);
    var l1 := [NatToString(n) + ". " + f.title, SourceLabel + f.feedName];
    var l2 := if f.link != "" then [LinkLabel + f.link] else [];
    var l3 := if f.pubDate != "" then [PublishedLabel + f.pubDate] else [];
    var l4 := if f.description != "" then [Indent + f.description] else [];
    assert AllOneLine(l1) && AllOneLine(l2) && AllOneLine(l3) && AllOneLine(l4) && AllOneLine([""]);
    AllOneLineConcat(l1, l2);
    AllOneLineConcat(l1 + l2, l3);
    AllOneLineConcat(l1 + l2 + l3, l4);
    AllOneLineConcat(l1 + l2 + l3 + l4, [""]);
    assert TextLines(n, item) == l1 + l2 + l3 + l4 + [""];
  }

  lemma {:induction false} TextLinesAreLines(xs: seq<Item>, first: nat)
    requires forall k :: 0 <= k < |xs| ==> SingleLineFields(xs[k])
    ensures AllOneLine(Blocks(xs, first, TextLines))
    decreases |xs|
  {
    if xs != [] {
      var init := xs[..|xs| - 1];
      TextLinesAreLines(init, first);
      ItemLinesAreLines(first + |init|, xs[|init|]);
      AllOneLineConcat(Blocks(init, first, TextLines), TextLines(first + |init|, xs[|init|]));
    }
  }

  /** When at least one item is shown and no field spans several lines, the
      plain text body splits at its newlines back into exactly the lines
      written: every item's lines can be recovered from the mail. */
  lemma ItemsTextSplitsIntoLines(items: seq<Item>, maxItems: int)
    requires Take(items, maxItems) != []
    requires forall k :: 0 <= k < |items| ==> SingleLineFields(items[k])
    ensures Split(ItemsText(items, maxItems), '\n') == ItemsTextLines(items, maxItems)
  {
    var shown := Take(items, maxItems);
    TextLinesAreLines(shown, 1);
    var lines := ItemsTextLines(items, maxItems);
    assert lines == Blocks(shown[..|shown| - 1], 1, TextLines) + TextLines(|shown|, shown[|shown| - 1]);
    assert lines != [];
    SplitJoin(lines, '\n');
  }

  // ---------------------------------------------------------------------------
  // The "more items" notice
  // ---------------------------------------------------------------------------

  /** total_items: metadata['total_items'] when present, else len(items). */
  function TotalItems(metadataTotal: Option<int>, items: seq<Item>): int {
    if metadataTotal.Some? then metadataTotal.value else |items|
  }

  /** The count announced by the notice: the items not shown, if any. */
  function RemainingItems(totalItems: int, maxItems: int): (remaining: Option<nat>)
    ensures remaining.Some? <==> totalItems > maxItems
    ensures remaining.Some? ==> maxItems + remaining.value == totalItems
  {
    if totalItems > maxItems then Some(totalItems - maxItems) else None
  }

  const MoreHtmlPrefix: string := "<p><em>... and "
  const MoreHtmlSuffix: string := " more items. See attached files for complete report.</em></p>"
  const MoreTextPrefix: string := "\n... and "
  const MoreTextSuffix: string := " more items. See attached files for complete report.\n"

  /** The notice in the HTML and in the text body. */
  function MoreItemsMessages(totalItems: int, maxItems: int): (string, string) {
    match RemainingItems(totalItems, maxItems)
      case None => ("", "")
      case Some(n) =>
        (MoreHtmlPrefix + NatToString(n) + MoreHtmlSuffix,
         MoreTextPrefix + NatToString(n) + MoreTextSuffix)
  }

  /** Both notices are present exactly when more items exist than are shown,
      and the number written in them reads back as the count left out. */
  lemma MoreItemsAnnouncesCount(totalItems: int, maxItems: int)
    ensures MoreItemsMessages(totalItems, maxItems).0 != "" <==> totalItems > maxItems
    ensures MoreItemsMessages(totalItems, maxItems).1 != "" <==> totalItems > maxItems
    ensures totalItems > maxItems ==>
              exists digits :: AllDigits(digits) && DigitsValue(digits) == totalItems - maxItems
                && MoreItemsMessages(totalItems, maxItems).0 == MoreHtmlPrefix + digits + MoreHtmlSuffix
                && MoreItemsMessages(totalItems, maxItems).1 == MoreTextPrefix + digits + MoreTextSuffix
  {
    if totalItems > maxItems {
      var digits := NatToString(totalItems - maxItems);
      NatToStringRoundTrip(totalItems - maxItems);
      assert AllDigits(digits) && DigitsValue(digits) == totalItems - maxItems;
    }
  }

  // ---------------------------------------------------------------------------
  // Sending
  // ---------------------------------------------------------------------------

  /** How send_email connects: SMTP_SSL or plain SMTP, whether STARTTLS is
      issued, and the envelope addresses. */
  datatype Connection = Connection(
    host: Value, port: Value, ssl: bool, startTls: bool, fromEmail: Value, toEmail: Value)

  /** The connection send_email opens for a complete configuration;
      from_email defaults to the user name. */
  function ConnectionFor(config: map<string, Value>): (c: Connection)
    requires ConfigComplete(config)
    ensures c.ssl <==> IsSet(config, "use_ssl")
    ensures c.startTls <==> IsSet(config, "use_tls") && !IsSet(config, "use_ssl")
    ensures !(c.ssl && c.startTls)
    ensures IsSet(config, "username")
    ensures c.fromEmail == if "from_email" in config then config["from_email"] else config["username"]
  {
    assert "host" in RequiredFields && "port" in RequiredFields
        && "username" in RequiredFields && "to_email" in RequiredFields;
    var ssl := IsSet(config, "use_ssl");
    Connection(
      config["host"], config["port"], ssl, IsSet(config, "use_tls") && !ssl,
      if "from_email" in config then config["from_email"] else config["username"],
      config["to_email"])
  }

  class EmailDelivery {
    /** EMAIL_CONFIG. */
    const config: map<string, Value>
    /** EMAIL_TEMPLATE_CONFIG['max_items_in_summary']. */
    const maxItemsInSummary: int

    constructor(config: map<string, Value>, maxItemsInSummary: int)
      ensures this.config == config && this.maxItemsInSummary == maxItemsInSummary
    {
      this.config := config;
      this.maxItemsInSummary := maxItemsInSummary;
    }

    /** _validate_config: stops at the first required field that is not set. */
    method ValidateConfig() returns (valid: bool)
      ensures valid <==> ConfigComplete(config)
    {
      for i := 0 to |RequiredFields|
        invariant forall j :: 0 <= j < i ==> IsSet(config, RequiredFields[j])
      {
        if !IsSet(config, RequiredFields[i]) {
          return false;
        }
      }
      return true;
    }

    /** _format_items_html. */
    method FormatItemsHtml(items: seq<Item>, maxItems: int) returns (html: string)
      ensures html == ItemsHtml(items, maxItems)
    {
      var htmlParts := HtmlParts(Take(items, maxItems));
      html := Join(htmlParts, "\n");
    }

    /** The loop of _format_items_html, one block appended per item. */
    static method HtmlParts(shown: seq<Item>) returns (htmlParts: seq<string>)
      ensures htmlParts == Blocks(shown, 1, HtmlPart)
    {
      htmlParts := [];
      for i := 0 to |shown|
        invariant htmlParts == Blocks(shown[..i], 1, HtmlPart)
      {
        BlocksPrefixStep(shown, i, 1, HtmlPart);
        htmlParts := htmlParts + HtmlPart(i + 1, shown[i]);
      }
      assert shown[..|shown|] == shown;
    }

    /** _format_items_text. */
    method FormatItemsText(items: seq<Item>, maxItems: int) returns (text: string)
      ensures text == ItemsText(items, maxItems)
    {
      var shown := Take(items, maxItems);
      var textParts: seq<string> := [];
      for i := 0 to |shown|
        invariant textParts == Blocks(shown[..i], 1, TextLines)
      {
        BlocksPrefixStep(shown, i, 1, TextLines);
        textParts := textParts + TextLines(i + 1, shown[i]);
      }
      assert shown[..|shown|] == shown;
      text := Join(textParts, "\n");
    }

    /** The summary pieces of _prepare_email_body, all bounded by the
        configured summary size: the first items as HTML and as text, and the
        notice that announces the items left out of both. */
    method SummaryParts(items: seq<Item>, metadataTotal: Option<int>)
      returns (itemsHtml: string, itemsText: string, moreHtml: string, moreText: string)
      ensures itemsHtml == ItemsHtml(items, maxItemsInSummary)
      ensures itemsText == ItemsText(items, maxItemsInSummary)
      ensures (moreHtml, moreText) == MoreItemsMessages(TotalItems(metadataTotal, items), maxItemsInSummary)
      ensures moreHtml != "" <==> TotalItems(metadataTotal, items) > maxItemsInSummary
    {
      var maxItems := maxItemsInSummary;
      var totalItems := if metadataTotal.Some? then metadataTotal.value else |items|;
      moreHtml, moreText := "", "";
      if totalItems > maxItems {
        var remaining := totalItems - maxItems;
        moreHtml := MoreHtmlPrefix + NatToString(remaining) + MoreHtmlSuffix;
        moreText := MoreTextPrefix + NatToString(remaining) + MoreTextSuffix;
      }
      MoreItemsAnnouncesCount(totalItems, maxItems);
      itemsHtml := FormatItemsHtml(items, maxItems);
      itemsText := FormatItemsText(items, maxItems);
    }

    /** send_email: the result is false at once when delivery is disabled or
        the configuration is incomplete, and `settings` is then None.
        Otherwise the guards have passed and `settings` holds the server,
        encryption and sender the session would connect with (ConnectionFor).
        `deliver` stands for the whole of the `try` block after the guards:
        formatting the subject and body, reading the attachments, connecting,
        logging in and sending. It is false when any of these raises, which
        may happen before a connection is opened. */
    method SendEmail(deliver: Connection -> bool) returns (sent: bool, settings: Option<Connection>)
      ensures settings.None? <==> !IsSet(config, "enabled") || !ConfigComplete(config)
      ensures settings.Some? ==> ConfigComplete(config) && settings.value == ConnectionFor(config)
      ensures sent <==> settings.Some? && deliver(settings.value)
    {
      if !IsSet(config, "enabled") {
        return false, None;
      }
      var valid := ValidateConfig();
      if !valid {
        return false, None;
      }
      var connection := ConnectionFor(config);
      settings := Some(connection);
      sent := deliver(connection);
    }
  }
}
