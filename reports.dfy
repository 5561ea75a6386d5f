/** report_generator.py: the Markdown and CSV reports written for a list of
    news items, the file names they are written to, the dispatch over the
    configured formats, and the report metadata. The contents of each file
    are returned instead of written; OUTPUT_CONFIG's values and the clock are
    parameters. */
module Reports {
  import opened Base

  /** The OUTPUT_CONFIG values the generator reads. */
  datatype OutputConfig = OutputConfig(
    outputDirectory: string,
    includeTimestamp: bool,
    filenameTemplate: string,
    formats: seq<string>)

  // ---------------------------------------------------------------------------
  // File names
  // ---------------------------------------------------------------------------

  /** os.path.join(directory, name) for two components. */
  function PathJoin(directory: string, name: string): (path: string)
    ensures EndsWith(path, name)
  {
    if |name| > 0 && name[0] == '/' then name
    else if directory == "" then name
    else if directory[|directory| - 1] == '/' then
      assert (directory + name)[|directory + name| - |name|..] == name;
      directory + name
    else
      assert (directory + "/" + name)[|directory + "/" + name| - |name|..] == name;
      directory + "/" + name
  }

  /** The name part before the extension: the template with the timestamp
      filled in, or with "_{timestamp}" deleted. */
  function FilenameBase(cfg: OutputConfig, timestamp: string): string {
    if cfg.includeTimestamp then ReplaceAll(cfg.filenameTemplate, "{timestamp}", timestamp)
    else ReplaceAll(cfg.filenameTemplate, "_{timestamp}", "")
  }

  /** _generate_filename. */
  function GenerateFilename(cfg: OutputConfig, timestamp: string, extension: string): (path: string)
    ensures EndsWith(path, "." + extension)
  {
    var name := FilenameBase(cfg, timestamp) + ("." + extension);
    var path := PathJoin(cfg.outputDirectory, name);
    EndsWithConcat(FilenameBase(cfg, timestamp), "." + extension);
    EndsWithTrans(path, name, "." + extension);
    path
  }

  /** A template without the placeholder is used as it is. */
  lemma FilenameWithoutPlaceholder(cfg: OutputConfig, timestamp: string)
    requires !Contains(cfg.filenameTemplate, "{timestamp}")
    ensures FilenameBase(cfg, timestamp) == cfg.filenameTemplate
  {
    if cfg.includeTimestamp {
      ReplaceAbsent(cfg.filenameTemplate, "{timestamp}", timestamp);
    } else {
      assert "_{timestamp}" == "_" + "{timestamp}";
      if Contains(cfg.filenameTemplate, "_{timestamp}") {
        ContainsAfterPrefix(cfg.filenameTemplate, "_", "{timestamp}");
        assert false;
      }
      ReplaceAbsent(cfg.filenameTemplate, "_{timestamp}", "");
    }
  }

  /** With timestamps on, the timestamp takes the place of the placeholder. */
  lemma FilenameFillsPlaceholder(cfg: OutputConfig, timestamp: string, pre: string, post: string)
    requires cfg.includeTimestamp
    requires cfg.filenameTemplate == pre + "{timestamp}" + post
    requires '{' !in pre && !Contains(post, "{timestamp}")
    ensures FilenameBase(cfg, timestamp) == pre + timestamp + post
  {
    var pat := "{timestamp}";
    var t := cfg.filenameTemplate;
    assert t == pre + (pat + post);
    forall i | 0 <= i < |pre| ensures !OccursAt(t, pat, i) {
      assert t[i] == pre[i];
    }
    ReplaceAfterPlainPrefix(pre, pat + post, pat, timestamp);
    ReplaceAtStart(pat, post, timestamp);
    ReplaceAbsent(post, pat, timestamp);
  }

  /** With timestamps off, "_{timestamp}" is deleted from the template. */
  lemma FilenameDropsPlaceholder(cfg: OutputConfig, timestamp: string, pre: string, post: string)
    requires !cfg.includeTimestamp
    requires cfg.filenameTemplate == pre + "_{timestamp}" + post
    requires '{' !in pre && !Contains(post, "_{timestamp}")
    ensures FilenameBase(cfg, timestamp) == pre + post
  {
    var pat := "_{timestamp}";
    var t := cfg.filenameTemplate;
    assert t == pre + (pat + post);
    forall i | 0 <= i < |pre| ensures !OccursAt(t, pat, i) {
      assert t[i + 1] == if i + 1 < |pre| then pre[i + 1] else '_';
    }
    ReplaceAfterPlainPrefix(pre, pat + post, pat, "");
    ReplaceAtStart(pat, post, "");
    ReplaceAbsent(post, pat, "");
  }

  // ---------------------------------------------------------------------------
  // Markdown
  // ---------------------------------------------------------------------------

  const MarkdownHeader: string := "# News Aggregator Report\n\n"
  const ItemsHeading: string := "## News Items\n\n"

  /** `if metadata:` — given and non-empty. */
  predicate HasMetadata(metadata: Option<map<string, string>>) {
    metadata.Some? && metadata.value != map[]
  }

  /** The Report Information block. */
  function MetadataBlock(m: map<string, string>, itemCount: nat): string {
    "## Report Information\n\n"
    + "- **Generated:** " + GetOr(m, "generated_at", "N/A") + "\n"
    + "- **Total Items:** " + GetOr(m, "total_items", NatToString(itemCount)) + "\n"
    + "- **Feeds Processed:** " + GetOr(m, "feeds_count", "N/A") + "\n"
    + "\n---\n\n"
  }

  /** The description as shown: cut to 497 characters and "..." past 500. */
  function MarkdownDescription(d: string): (shown: string)
    ensures |shown| <= 500
    ensures |d| <= 500 ==> shown == d
    ensures |d| > 500 ==> shown == d[..497] + "..."
  {
    TruncateBounded(d, 500, 497);
    Truncate(d, 500, 497)
  }

  /** A line present only when the field is truthy. */
  function OptionalLine(item: Item, key: string, render: string -> string): string {
    if Truthy(Get(item, key)) then render(item[key]) else ""
  }

  /** The heading of item number `n`: the number and the title. */
  function MarkdownItemHeading(n: nat, item: Item): string {
    "### " + NatToString(n) + ". " + GetOr(item, "title", "Untitled") + "\n\n"
  }

  /** The source, link, date and description lines an item has. */
  function MarkdownItemLines(item: Item): string {
    OptionalLine(item, "feed_name", s => "**Source:** " + s + "\n\n")
    + OptionalLine(item, "link", s => "**Link:** [" + s + "](" + s + ")\n\n")
    + OptionalLine(item, "pubDate", s => "**Published:** " + s + "\n\n")
    + OptionalLine(item, "description", s => MarkdownDescription(s) + "\n\n")
  }

  const MarkdownRule: string := "---\n\n"

  /** The section written for item number `n`. */
  function MarkdownItem(n: nat, item: Item): string {
    MarkdownItemHeading(n, item) + (MarkdownItemLines(item) + MarkdownRule)
  }

  /** The metadata block when there is metadata to show. */
  function MetadataSection(items: seq<Item>, metadata: Option<map<string, string>>): string {
    if HasMetadata(metadata) then MetadataBlock(metadata.value, |items|) else ""
  }

  /** The whole Markdown file. */
  function MarkdownReport(items: seq<Item>, metadata: Option<map<string, string>>): string {
    MarkdownHeader + (MetadataSection(items, metadata) + (ItemsHeading + Blocks(items, 1, MarkdownItem)))
  }

  /** Every report starts with the title, then the Report Information block
      when there is metadata (given and non-empty), then the item heading;
      the item sections follow the heading and end the file. */
  lemma MarkdownReportShape(items: seq<Item>, metadata: Option<map<string, string>>)
    ensures StartsWith(MarkdownReport(items, metadata), MarkdownHeader)
    ensures HasMetadata(metadata) ==>
              StartsWith(MarkdownReport(items, metadata),
                         MarkdownHeader + MetadataBlock(metadata.value, |items|) + ItemsHeading)
    ensures !HasMetadata(metadata) ==>
              StartsWith(MarkdownReport(items, metadata), MarkdownHeader + ItemsHeading)
    ensures EndsWith(MarkdownReport(items, metadata), ItemsHeading + Blocks(items, 1, MarkdownItem))
  {
    var meta := MetadataSection(items, metadata);
    var body := Blocks(items, 1, MarkdownItem);
    ThreeParts(MarkdownHeader, meta, ItemsHeading, body);
    StartsWithConcat(MarkdownHeader, meta + (ItemsHeading + body));
    if !HasMetadata(metadata) {
      EmptyMiddle(MarkdownHeader, meta, ItemsHeading);
    }
  }

  /** The k-th item (from 0) is written as section number k + 1, between the
      sections of the items before it and those after it; its heading gives
      the number and the title ("Untitled" when missing), and it ends with a
      rule. */
  lemma MarkdownItemsNumbered(items: seq<Item>, k: nat)
    requires k < |items|
    ensures Blocks(items, 1, MarkdownItem) ==
              Blocks(items[..k], 1, MarkdownItem) + MarkdownItem(k + 1, items[k])
              + Blocks(items[k + 1..], k + 2, MarkdownItem)
    ensures StartsWith(MarkdownItem(k + 1, items[k]), MarkdownItemHeading(k + 1, items[k]))
    ensures EndsWith(MarkdownItem(k + 1, items[k]), MarkdownRule)
  {
    BlocksSplitAt(items, k, 1, MarkdownItem);
    MarkdownItemFrame(k + 1, items[k]);
  }

  /** An item's section opens with its heading and closes with the rule. */
  lemma MarkdownItemFrame(n: nat, item: Item)
    ensures StartsWith(MarkdownItem(n, item), MarkdownItemHeading(n, item))
    ensures EndsWith(MarkdownItem(n, item), MarkdownRule)
  {
    var heading, lines := MarkdownItemHeading(n, item), MarkdownItemLines(item);
    StartsWithConcat(heading, lines + MarkdownRule);
    assert MarkdownItem(n, item) == (heading + lines) + MarkdownRule;
    EndsWithConcat(heading + lines, MarkdownRule);
  }

  // ---------------------------------------------------------------------------
  // CSV
  // ---------------------------------------------------------------------------

  const CsvColumns: seq<string> := ["title", "link", "feed_name", "pubDate", "description", "guid"]

  /** The row written for one item: each column's value, '' when missing. */
  function CsvRow(item: Item): (row: seq<string>)
    ensures |row| == |CsvColumns|
  {
    seq(|CsvColumns|, j requires 0 <= j < |CsvColumns| => GetOr(item, CsvColumns[j], ""))
  }

  /** What csv.DictReader gives back for a row of this file. */
  function ReadRow(row: seq<string>): map<string, string>
    requires |row| == |CsvColumns|
  {
    map j | 0 <= j < |CsvColumns| :: CsvColumns[j] := row[j]
  }

  /** Reading a row back yields the item's value for every column it has and
      '' for the others; keys outside the columns are dropped. */
  lemma CsvRowRoundTrip(item: Item)
    ensures ReadRow(CsvRow(item)).Keys == set c | c in CsvColumns
    ensures forall j :: 0 <= j < |CsvColumns| ==> ReadRow(CsvRow(item))[CsvColumns[j]] == GetOr(item, CsvColumns[j], "")
  {
    var r := ReadRow(CsvRow(item));
    forall c | c in CsvColumns ensures c in r {
      var j :| 0 <= j < |CsvColumns| && CsvColumns[j] == c;
      assert r.Keys == set k | 0 <= k < |CsvColumns| :: CsvColumns[k];
    }
    forall j | 0 <= j < |CsvColumns| ensures r[CsvColumns[j]] == GetOr(item, CsvColumns[j], "") {
      assert CsvColumns[j] in r.Keys;
    }
  }

  function CsvReport(items: seq<Item>): CsvTable {
    CsvTable(CsvColumns, seq(|items|, k requires 0 <= k < |items| => CsvRow(items[k])))
  }

  // ---------------------------------------------------------------------------
  // Metadata
  // ---------------------------------------------------------------------------

  /** The dictionary get_report_metadata returns ('feeds' is an unordered
      list, represented as a set). */
  datatype ReportMetadata = ReportMetadata(generatedAt: string, totalItems: nat, feedsCount: nat, feeds: set<string>)

  function FeedName(item: Item): string {
    GetOr(item, "feed_name", "Unknown")
  }

  function FeedNames(items: seq<Item>): set<string> {
    set k | 0 <= k < |items| :: FeedName(items[k])
  }

  /** There are never more distinct feeds than items, and at least one feed
      when there is an item. */
  lemma {:induction false} FeedNamesBounded(items: seq<Item>)
    ensures |FeedNames(items)| <= |items|
    ensures items != [] ==> |FeedNames(items)| >= 1
    decreases |items|
  {
    if items != [] {
      var init := items[..|items| - 1];
      FeedNamesBounded(init);
      assert FeedNames(items) == FeedNames(init) + {FeedName(items[|items| - 1])} by {
        forall f | f in FeedNames(items) ensures f in FeedNames(init) + {FeedName(items[|items| - 1])} {
          var k :| 0 <= k < |items| && FeedName(items[k]) == f;
          if k < |init| { assert init[k] == items[k]; }
        }
        forall f | f in FeedNames(init) ensures f in FeedNames(items) {
          var k :| 0 <= k < |init| && FeedName(init[k]) == f;
          assert items[k] == init[k];
        }
      }
    }
  }

  /** get_report_metadata; `now` is the formatted clock value. */
  function GetReportMetadata(items: seq<Item>, now: string): (md: ReportMetadata)
    ensures md.totalItems == |items|
    ensures md.feedsCount == |md.feeds| <= md.totalItems
    ensures forall f :: f in md.feeds <==> exists k :: 0 <= k < |items| && FeedName(items[k]) == f
    ensures items != [] ==> md.feedsCount >= 1
  {
    FeedNamesBounded(items);
    var feeds := FeedNames(items);
    ReportMetadata(now, |items|, |feeds|, feeds)
  }

  /** The metadata as the Markdown block reads it. */
  function MetadataFields(md: ReportMetadata): map<string, string> {
    map["generated_at" := md.generatedAt,
        "total_items" := NatToString(md.totalItems),
        "feeds_count" := NatToString(md.feedsCount)]
  }

  // ---------------------------------------------------------------------------
  // ReportGenerator
  // ---------------------------------------------------------------------------

  /** Some configured format name is `name`, ignoring case. */
  predicate Requests(formats: seq<string>, name: string) {
    exists i :: 0 <= i < |formats| && Lower(formats[i]) == name
  }

  lemma RequestsPrefixStep(formats: seq<string>, i: int, name: string)
    requires 0 <= i < |formats|
    ensures Requests(formats[..i + 1], name) <==> Requests(formats[..i], name) || Lower(formats[i]) == name
  {
    assert formats[..i + 1] == formats[..i] + [formats[i]];
    RequestsSnoc(formats[..i], formats[i], name);
  }

  lemma RequestsSnoc(formats: seq<string>, f: string, name: string)
    ensures Requests(formats + [f], name) <==> Requests(formats, name) || Lower(f) == name
  {
    var all := formats + [f];
    if Requests(all, name) {
      var i :| 0 <= i < |all| && Lower(all[i]) == name;
      if i < |formats| { assert all[i] == formats[i]; }
    }
    if Requests(formats, name) {
      var i :| 0 <= i < |formats| && Lower(formats[i]) == name;
      assert all[i] == formats[i];
    }
    assert all[|formats|] == f;
  }

  class ReportGenerator {
    const cfg: OutputConfig

    constructor(cfg: OutputConfig)
      ensures this.cfg == cfg
    {
      this.cfg := cfg;
    }

    /** The loop of generate_markdown writing one numbered section per item. */
    static method WriteSections(items: seq<Item>) returns (sections: string)
      ensures sections == Blocks(items, 1, MarkdownItem)
    {
      sections := "";
      for i := 0 to |items|
        invariant sections == Blocks(items[..i], 1, MarkdownItem)
      {
        BlocksPrefixStep(items, i, 1, MarkdownItem);
        sections := sections + MarkdownItem(i + 1, items[i]);
      }
      assert items[..|items|] == items;
    }

    /** generate_markdown: the path written to and the file's contents. */
    method GenerateMarkdown(items: seq<Item>, metadata: Option<map<string, string>>, timestamp: string)
      returns (path: string, content: string)
      ensures EndsWith(path, ".md") && path == GenerateFilename(cfg, timestamp, "md")
      ensures content == MarkdownReport(items, metadata)
    {
      path := GenerateFilename(cfg, timestamp, "md");
      var meta := "";
      if HasMetadata(metadata) {
        meta := MetadataBlock(metadata.value, |items|);
      }
      var sections := WriteSections(items);
      content := MarkdownHeader + (meta + (ItemsHeading + sections));
    }

    /** generate_csv: the path written to and the table written. */
    method GenerateCsv(items: seq<Item>, timestamp: string) returns (path: string, table: CsvTable)
      ensures EndsWith(path, ".csv") && path == GenerateFilename(cfg, timestamp, "csv")
      ensures table.header == CsvColumns && |table.rows| == |items|
      ensures forall k :: 0 <= k < |items| ==> table.rows[k] == CsvRow(items[k])
    {
      path := GenerateFilename(cfg, timestamp, "csv");
      var rows: seq<seq<string>> := [];
      for k := 0 to |items|
        invariant |rows| == k
        invariant forall k' :: 0 <= k' < k ==> rows[k'] == CsvRow(items[k'])
      {
        var row := CsvRow(items[k]);
        rows := rows + [row];
        assert rows[k] == CsvRow(items[k]);
      }
      table := CsvTable(CsvColumns, rows);
    }

    /** generate_all_formats: format names are matched ignoring case and
        unknown ones are skipped; `writeOk(f)` says whether writing the file of
        format f succeeds (a failure is logged and skipped). */
    method GenerateAllFormats(items: seq<Item>, metadata: Option<map<string, string>>, timestamp: string,
                              writeOk: string -> bool)
      returns (generated: map<string, string>)
      ensures generated.Keys <= {"markdown", "csv"}
      ensures "markdown" in generated <==> writeOk("markdown") && Requests(cfg.formats, "markdown")
      ensures "csv" in generated <==> writeOk("csv") && Requests(cfg.formats, "csv")
      ensures "markdown" in generated ==> generated["markdown"] == GenerateFilename(cfg, timestamp, "md")
      ensures "csv" in generated ==> generated["csv"] == GenerateFilename(cfg, timestamp, "csv")
    {
      generated := map[];
      assert cfg.formats[..0] == [];
      for i := 0 to |cfg.formats|
        invariant generated.Keys <= {"markdown", "csv"}
        invariant "markdown" in generated <==> writeOk("markdown") && Requests(cfg.formats[..i], "markdown")
        invariant "csv" in generated <==> writeOk("csv") && Requests(cfg.formats[..i], "csv")
        invariant "markdown" in generated ==> generated["markdown"] == GenerateFilename(cfg, timestamp, "md")
        invariant "csv" in generated ==> generated["csv"] == GenerateFilename(cfg, timestamp, "csv")
      {
        RequestsPrefixStep(cfg.formats, i, "markdown");
        RequestsPrefixStep(cfg.formats, i, "csv");
        var name := Lower(cfg.formats[i]);
        if name == "markdown" {
          if writeOk("markdown") {
            var path, _ := GenerateMarkdown(items, metadata, timestamp);
            generated := generated["markdown" := path];
          }
        } else if name == "csv" {
          if writeOk("csv") {
            var path, _ := GenerateCsv(items, timestamp);
            generated := generated["csv" := path];
          }
        }
      }
      assert cfg.formats[..|cfg.formats|] == cfg.formats;
    }
  }
}
