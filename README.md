# NFL injury news: a Dafny model of the scrapers, aggregator, report generator and mailer

This project models the core of the injury-news pipeline. It covers seven parts.

- **Feed configuration** (`config.py`): the default RSS feeds, the priority-to-refresh-interval table, and adding, removing and listing enabled feeds.
- **Depth-chart scraper** (`depth_chart_scraper.py`):
  - the HTML parser that pairs a team-name `div` with the slug of the next depth-chart link;
  - the URL whitelist;
  - the retrying fetch;
  - deduplication of teams by slug;
  - the CSV export with its validation.
- **Web scraper** (`web_scraper.py`):
  - the Covers.com injury-table parser and the items built from it;
  - the depth-chart parser and its time-limited cache;
  - the player-position search;
  - enrichment of news items with positions.
- **Report generator** (`report_generator.py`): file names, the Markdown report, CSV rows, metadata and the format selection.
- **Email delivery** (`email_delivery.py`):
  - configuration validation;
  - the HTML and plain-text item lists with their description truncation;
  - the "more items" notice;
  - the guards and connection choices of `send_email`.
- **News aggregator** (`news_aggregator.py`):
  - the keyword and age filter of a feed;
  - the aggregation over feeds;
  - grouping by source;
  - the HTML report and the guards of `send_email_report`.
- **Shared retry loop** (`fetching.dfy`): both `fetch_html` functions use it.

## How the model is built

The HTML parsers are event-driven objects. Each is modelled twice:

- as a pure step function over a state datatype (`OnStartTag`, `InjuryStep`, `ChartStep`, …) with a `Run` over an event sequence;
- as a `class` whose fields are the parser's attributes, and whose handler methods are proved to move `State()` exactly as the step function does.

The HTML tokenizer itself is a parameter: a function from page text to a sequence of `Start`/`Data`/`End` events. `None` or a raised flag stands for the library raising.

Clocks, the network, `feedparser`, `dateutil`, SMTP sessions and file writes are all parameters:

- times are integers;
- fetch attempts are a function from attempt number to outcome;
- success of a write or a session is a boolean or a predicate.

Python's `str.format` is modelled (`NewsAggregation.Format`) far enough to decide what `format_email_report`'s template does.

## Observations the model makes precise

- `web_scraper.DepthChartParser` resets `current_team` to `None` and never sets it anywhere else. Its `depth_chart` therefore always stays empty. Consequences:
  - the cache never holds a chart;
  - position enrichment never changes an item.

  This is proved by `WebScraping.ChartRunNeverRecords`, `WebScraping.CacheStaysEmpty`, `WebScraping.EnrichWithEmptyChart` and, for a whole enrichment pass, `WebScraping.EnrichRunWithEmptyCache`.
- The feeds in `config.py` carry no `keywords` key. `fetch_feed` reads `feed_info['keywords']` inside the per-entry `try`, so every entry is skipped and no feed yields an article. This is proved by `NewsAggregation.FeedWithoutKeywordsYieldsNothing` and `NewsAggregation.FeedsWithoutKeywordsYieldNothing`.
- The report template of `format_email_report` cannot be formatted. It is described under Findings.

## Model

| member | source | states |
|---|---|---|
| Config.RefreshInterval | config.py:26-30 | 1800 s exactly for priority 1, 7200 s exactly for priority 3, the 3600 s default exactly for every other priority |
| Config.RefreshIntervalMonotone | config.py:77-92 | among priorities 1 to 3, a lower priority number never gets a longer refresh interval than a higher one (outside that range the default 3600 breaks the order: priority 0 gets 3600, priority 1 gets 1800) |
| Config.WithoutUrl | config.py:61-74 | what remains after removal is a subsequence of the list, in the same order; it holds every copy of each feed with another URL and no feed with this URL |
| Config.FeedConfig.constructor | config.py:16-23 | the feed list starts as the single default feed, the enabled priority-1 "Custom RSS Feed" |
| Config.FeedConfig.AddRssFeed | config.py:42-58 | the new feed, enabled with priority 1 unless told otherwise, is appended after the existing ones, which are unchanged |
| Config.FeedConfig.RemoveRssFeed | config.py:61-74 | every feed with that URL is removed and nothing else is; the result is true iff some feed had that URL |
| Config.FeedConfig.EnabledFeeds | config.py:95-102 | exactly the enabled feeds, as a subsequence in their configured order, each as often as it is configured |
| Config.RemovalShortensIffPresent | config.py:61-74 | the list gets shorter iff the URL was present; removing an absent URL leaves the list as it was |
| Config.AddThenRemove | config.py:42-74 | removing the URL of a feed just added undoes the addition and any earlier feeds with that URL |
| Config.RemoveIdempotent | config.py:61-74 | removing the same URL twice is the same as removing it once |
| DepthChartScraping.ExtractSlug | depth_chart_scraper.py:74 | a slug found by the `s=([^&]+)` search is non-empty and contains no `&` |
| DepthChartScraping.ExtractSlugIsLeftmostMatch | depth_chart_scraper.py:74 | no slug is found iff the pattern matches nowhere in the href; otherwise the slug is the capture of the leftmost match |
| DepthChartScraping.DepthChartParser.constructor | depth_chart_scraper.py:48-56 | a new parser has no teams, no pending name, is outside any team-name div, and has zero counters |
| DepthChartScraping.DepthChartParser.HandleStartTag | depth_chart_scraper.py:58-94 | the state after a start tag, and whether the handler raises, are those of the step function |
| DepthChartScraping.DepthChartParser.FollowLinkIn | depth_chart_scraper.py:69-87 | the link part of the handler pairs a pending name with the link's slug as the step function does |
| DepthChartScraping.DepthChartParser.HandleData | depth_chart_scraper.py:96-112 | the state after a text chunk is the step function's |
| DepthChartScraping.DepthChartParser.HandleEndTag | depth_chart_scraper.py:114-117 | the state after an end tag is the step function's |
| DepthChartScraping.DepthChartParser.Feed | depth_chart_scraper.py:339-340 | feeding events one by one gives the state and the raised flag of `Run` on the whole sequence |
| DepthChartScraping.StartTagPairsAtMostOnce | depth_chart_scraper.py:78-85 | a start tag keeps all earlier teams and adds at most one. It adds one only for an anchor with an href while a name is pending. The added entry is that name with this href's slug, and afterwards no name is pending. |
| DepthChartScraping.TeamNameBufferedOnce | depth_chart_scraper.py:96-112 | the first non-blank text in a team-name div becomes the stripped pending name; later text of the same div does not replace it |
| DepthChartScraping.PendingNameOverwritten | depth_chart_scraper.py:96-112 | the text of a new team-name div replaces an unpaired pending name without storing a team |
| DepthChartScraping.EndTagKeepsPending | depth_chart_scraper.py:114-117 | an end tag keeps the pending name and the teams; closing a div leaves the team-name context |
| DepthChartScraping.OnEventAppendsComplete | depth_chart_scraper.py:58-117 | any handler keeps earlier teams, adds only entries with a name and a slug, and adds at most one, and only for an anchor start tag |
| DepthChartScraping.StartTagAppendsComplete | depth_chart_scraper.py:58-94 | a start tag keeps earlier teams, adds only complete entries, and adds at most one, and only for an anchor |
| DepthChartScraping.AnchorPairs | depth_chart_scraper.py:69-85 | a depth-chart anchor whose href holds a slug does not raise and makes that slug the current link. When a name is pending, exactly that name with the slug is appended and the name is cleared; otherwise the teams and the pending name stay as they were. |
| DepthChartScraping.OtherAnchorIgnored | depth_chart_scraper.py:58-85 | an anchor with no href, or whose href lacks the depth-chart markers or a slug, only counts the tag |
| DepthChartScraping.TeamNameDivOpens | depth_chart_scraper.py:88-91 | a div whose class names a team opens the team-name context and changes nothing else but the tag count |
| DepthChartScraping.RunConcat | depth_chart_scraper.py:339-340 | feeding two streams one after the other is feeding their concatenation, unless the first raises |
| DepthChartScraping.TeamMarkupPairs | depth_chart_scraper.py:58-117 | a team-name div holding a non-blank name, then a depth-chart link, appends exactly the stripped name with the link's slug and leaves no name pending |
| DepthChartScraping.TwoTeamsParsed | depth_chart_scraper.py:58-117 | two such teams in a row give both entries, in document order |
| DepthChartScraping.TwoTeamsScraped | depth_chart_scraper.py:339-388 | the scrape of two such teams returns both, or only the first when their slugs are equal |
| DepthChartScraping.ScrapedPair | depth_chart_scraper.py:350-388 | a parse into two complete entries is scraped as both, or as the first when they share a slug |
| DepthChartScraping.FirstPerSlugOfTwo | depth_chart_scraper.py:369-374 | of two entries the second is kept only when its slug differs from the first's |
| DepthChartScraping.RunAppendsCompleteTeams | depth_chart_scraper.py:339-340 | feeding a page keeps earlier teams, adds only complete entries, and never more entries than the page has anchor start tags |
| DepthChartScraping.OnEventCounts | depth_chart_scraper.py:58-112 | a handler that does not raise counts one tag per start tag and one text per non-blank text |
| DepthChartScraping.RunCounts | depth_chart_scraper.py:58-112 | after a run the tag and text counters have grown by the number of start tags and of non-blank texts in the events |
| DepthChartScraping.FirstPerSlug | depth_chart_scraper.py:368-374 | the deduplicated teams have the same set of slugs as the input, each slug exactly once |
| DepthChartScraping.FirstPerSlugIsSubsequence | depth_chart_scraper.py:368-374 | deduplication keeps teams in their original order |
| DepthChartScraping.FirstPerSlugOnlyFirsts | depth_chart_scraper.py:368-374 | every team kept is the first occurrence of its slug |
| DepthChartScraping.FirstPerSlugAllFirsts | depth_chart_scraper.py:368-374 | every first occurrence of a slug is kept |
| DepthChartScraping.DedupBySlug | depth_chart_scraper.py:368-374 | the loop with its `seen` set returns exactly the first entry per slug |
| DepthChartScraping.VerifyUrl | depth_chart_scraper.py:128-142 | a URL passes iff it is exactly the whitelisted depth-chart URL |
| DepthChartScraping.ScrapedTeamsProperties | depth_chart_scraper.py:339-386 | the scrape returns nothing if parsing raised. Otherwise it returns the first entry per slug, in parser order, all complete and with distinct slugs, one per distinct slug; the validation filter removes nothing. |
| DepthChartScraping.FirstPerSlugComplete | depth_chart_scraper.py:381-386 | when all parsed entries are complete, the name-and-slug filter keeps every deduplicated entry |
| DepthChartScraping.DisallowedUrlYieldsNothing | depth_chart_scraper.py:222-228 | a URL other than the whitelisted one yields no teams, whatever the network does |
| DepthChartScraping.FetchHtml | depth_chart_scraper.py:210-290 | no attempt is made for a disallowed URL or without a connection; otherwise the result is that of the retry loop with 3 attempts |
| DepthChartScraping.ParseTeams | depth_chart_scraper.py:336-396 | parsing a fetched page yields the scraped teams of its event stream |
| DepthChartScraping.ScrapeDepthChart | depth_chart_scraper.py:292-396 | the default URL, the whitelist, the fetch and the parse combine into `Scrape`; a disallowed URL yields nothing; the result has distinct slugs and complete entries |
| DepthChartScraping.Keys | depth_chart_scraper.py:453-460 | the field names collected from the records are distinct and are exactly the keys that occur, in first-seen order |
| DepthChartScraping.CsvRow | depth_chart_scraper.py:463-466 | a CSV row has one cell per field name: the record's value for that key, or empty when the record lacks it |
| DepthChartScraping.ExportToCsv | depth_chart_scraper.py:398-478 | a file is written iff the write succeeds and some entry is a dictionary with a `team` key. A written table holds exactly those entries in order. Its header is team,slug when the first of them has a slug, else team,player,position when it has both, else that entry's own keys. |
| DepthChartScraping.ExportOfScrape | depth_chart_scraper.py:425-466 | exporting scraped teams keeps every entry; the table has header `team, slug` and one row per team |
| DepthChartScraping.ScrapedRows | depth_chart_scraper.py:453-466 | each scraped team becomes a valid record whose row is its name and its slug |
| Fetching.RetryFetch | web_scraper.py:150-191 | the loop's result and attempt count are those of `Retry`. It returns the first page received (even an empty one), or stops with nothing at a fatal status (404, 410, 403), or after the configured number of failed attempts. |
| Fetching.RetryKeepsPromise | depth_chart_scraper.py:236-287 | from any point that follows only non-final attempts, `Retry` meets that outcome description |
| Fetching.AllFailuresExhaustRetries | depth_chart_scraper.py:236-287 | when every attempt fails non-fatally, the fetch returns nothing after exactly the configured number of attempts |
| Fetching.FatalFirstCallStops | depth_chart_scraper.py:267-268 | a fatal status on the first attempt stops the loop after one attempt with nothing |
| WebScraping.FillNextFillsFirstEmpty | web_scraper.py:58-75 | a text fills the first empty field of the current injury, in player, position, status order, and changes no other field |
| WebScraping.InjuryStepKeepsInv | web_scraper.py:37-75 | each handler keeps every stored injury with a player and fields filled in order, never drops a stored injury, and a closing tag ends the current field |
| WebScraping.InjuryRunKeepsInv | web_scraper.py:23-75 | a whole page keeps that invariant, and stored injuries are never lost |
| WebScraping.SectionOpens | web_scraper.py:37-46 | a `tr` or `div` whose class mentions injury or player opens a section with an empty item and keeps the stored injuries; any other start tag only becomes the current tag |
| WebScraping.SectionCloseStores | web_scraper.py:48-56 | closing a `tr` or `div` inside a section appends the item exactly when it has a player, closes the section and empties the item; any other end tag only clears the current tag |
| WebScraping.InjuryRunConcat | web_scraper.py:208-209 | feeding two streams one after the other is feeding their concatenation |
| WebScraping.CellFills | web_scraper.py:58-74 | inside a section, a cell's non-blank text fills the item's next field and the cell's end clears the current tag |
| WebScraping.CellsFill | web_scraper.py:58-74 | three non-blank cells on an empty item set its player, position and status, in that order |
| WebScraping.RowOpens | web_scraper.py:37-46 | a marked row's start tag opens a section with an empty item |
| WebScraping.RowCloses | web_scraper.py:48-56 | a row's end tag inside a section stores the item if it has a player and closes the section |
| WebScraping.InjuryRowStored | web_scraper.py:37-74 | a marked row of three non-blank cells stores one injury with those player, position and status, and closes the section |
| WebScraping.InjuryReportParser.constructor | web_scraper.py:26-35 | a new parser has no injuries, no current item and no current field |
| WebScraping.InjuryReportParser.HandleStartTag | web_scraper.py:37-46 | the state after a start tag is the step function's |
| WebScraping.InjuryReportParser.HandleEndTag | web_scraper.py:48-56 | the state after an end tag is the step function's |
| WebScraping.InjuryReportParser.HandleData | web_scraper.py:58-75 | the state after a text chunk is the step function's |
| WebScraping.InjuryReportParser.Feed | web_scraper.py:208-209 | feeding events one by one gives the state of `InjuryRun` on the whole sequence |
| WebScraping.AddToPositionsAppends | web_scraper.py:108-112 | recording a player appends them to that position's list and leaves every other position unchanged |
| WebScraping.AddPlayerAppends | web_scraper.py:108-112 | recording a player appends them under that team and position and leaves every other team and position unchanged |
| WebScraping.ChartRunNeverRecords | web_scraper.py:78-112 | with no current team, which nothing ever sets, a page leaves the depth chart unchanged |
| WebScraping.DepthChartParser.constructor | web_scraper.py:81-86 | a new parser has an empty chart and no current team or position |
| WebScraping.DepthChartParser.HandleStartTag | web_scraper.py:88-94 | the state after a start tag is the step function's |
| WebScraping.DepthChartParser.HandleData | web_scraper.py:96-112 | the state after a text chunk is the step function's |
| WebScraping.DepthChartParser.Feed | web_scraper.py:265-266 | feeding events one by one gives the state of `ChartRun` on the whole sequence |
| WebScraping.DepthChartLookupPolicy | web_scraper.py:234-280 | a current non-empty cache is returned without looking at the page. Otherwise a missing or empty page, or one the library cannot parse, returns the cache (empty if there is none) and changes nothing, and a parsed page replaces the cache, stamped with the current time, and is returned. |
| WebScraping.DepthChartLookupIdempotent | web_scraper.py:248-269 | a second lookup at the same time with the same page returns the same chart and leaves the cache as the first did |
| WebScraping.CacheStaysEmpty | web_scraper.py:248-269 | with this parser an empty cache stays empty and every lookup returns an empty chart |
| WebScraping.PositionInFindsFirst | web_scraper.py:300-303 | a position is found iff some position lists a matching player (either name containing the other, ignoring case); the one returned is the first such position |
| WebScraping.PositionOfFindsFirst | web_scraper.py:282-305 | no position is found iff no selected team lists a match; otherwise the answer is that of the first selected team with a match |
| WebScraping.EnrichItemOnlyAddsPosition | web_scraper.py:325-339 | enrichment keeps every key and value and may only add `position`. It does so for an item with a player other than 'Unknown' and no position, using the position found. |
| WebScraping.EnrichWithEmptyChart | web_scraper.py:325-339 | with an empty chart an item is never changed |
| WebScraping.EnrichItemAddsFoundPosition | web_scraper.py:326-339 | an item with a player other than 'Unknown' and no position gains the position the lookup finds when it is non-empty, and is kept as it is otherwise |
| WebScraping.EnrichStepOnlyAddsPosition | web_scraper.py:326-339 | one pass of the loop body yields one item that only gains a position, makes one lookup exactly when the item needs one, and changes nothing otherwise |
| WebScraping.EnrichRunOnlyAddsPositions | web_scraper.py:325-339 | the loop yields one item per input item, each at most gaining a position; items needing no lookup come out unchanged; at most one lookup per item |
| WebScraping.EnrichStepWithEmptyCache | web_scraper.py:326-339 | from an empty cache one pass keeps its item and the cache empty |
| WebScraping.EnrichRunWithEmptyCache | web_scraper.py:325-339 | from an empty cache the loop changes no item and the cache stays empty, whatever the clock and the pages |
| WebScraping.EnrichRunSettled | web_scraper.py:325-339 | when the cache is settled for a clock and page that do not change, every item is enriched against that one chart and the cache stays |
| WebScraping.EnrichRunSameClock | web_scraper.py:319-339 | with a clock and page that do not change, the first lookup settles the cache, and every item is enriched against the chart it returned |
| WebScraping.WebScraper.constructor | web_scraper.py:118-123 | a new scraper starts with an empty cache stamped 0 |
| WebScraping.WebScraper.FetchHtml | web_scraper.py:137-191 | the result is that of the shared retry loop with the configured retry count |
| WebScraping.WebScraper.ScrapeCoversInjuries | web_scraper.py:193-232 | the page is the one `fetch_html` returns for the URL (the retry loop's result); the items returned are those built from the injuries the parser stores, none when the fetch or the parse fails |
| WebScraping.WebScraper.FetchDepthChart | web_scraper.py:234-280 | the cache left and the chart returned are those of the cache policy |
| WebScraping.WebScraper.MatchAmong | web_scraper.py:301-303 | true iff some listed player matches the name |
| WebScraping.WebScraper.FindInPositions | web_scraper.py:300-303 | the loop over positions returns the first position with a match |
| WebScraping.WebScraper.FindPosition | web_scraper.py:296-305 | the loop over teams returns the first match over the selected teams |
| WebScraping.WebScraper.GetPlayerPosition | web_scraper.py:282-305 | the cache is updated by the lookup policy, and the answer is the search of the chart the lookup returned |
| WebScraping.WebScraper.EnrichOne | web_scraper.py:326-339 | one pass of the loop body: an item needing a lookup makes the next lookup with its own clock reading and page, and is enriched against the chart it returns; the cache and the lookup count move as the step function says |
| WebScraping.WebScraper.EnrichItemsWithPositions | web_scraper.py:307-341 | when disabled, nothing changes. Otherwise the first lookup uses clock reading and page 0, and then the items in the array and the cache are those of the loop run, each later lookup with its own clock reading and page. |
| WebScraping.InjuryReportItem | web_scraper.py:214-224 | an item has exactly the nine keys |
| WebScraping.OrElse | web_scraper.py:215-221 | a field's value when the parser set it, else the default |
| WebScraping.InjuryReportItemFields | web_scraper.py:214-224 | each field is the injury's value, or its default: "Unknown" for team and player, "N/A" for position and status. The feed name is fixed. The link and date are the URL and the scrape time. The title is the player (or "Unknown Player") and the status (or "Status Unknown"). |
| WebScraping.InjuryReportItemText | web_scraper.py:215-216 | the title starts with the player, or "Unknown Player", and ends with the status, or "Status Unknown"; the description starts with the position and ends with the status |
| WebScraping.CoversItemsNamePlayers | web_scraper.py:210-226 | one item per stored injury, in order, each naming that injury's player |
| Reports.PathJoin | report_generator.py:55-56 | the joined path ends with the file name |
| Reports.GenerateFilename | report_generator.py:35-56 | the file name ends with a dot and the requested extension; what comes before it is FilenameBase, described by the three lemmas below |
| Reports.FilenameWithoutPlaceholder | report_generator.py:45-53 | a template without `{timestamp}` is used as the file name unchanged |
| Reports.FilenameFillsPlaceholder | report_generator.py:45-49 | with timestamps on, a template `pre{timestamp}post` (no brace in `pre`, no second placeholder) becomes `pre` + timestamp + `post` |
| Reports.FilenameDropsPlaceholder | report_generator.py:50-53 | with timestamps off, a template `pre_{timestamp}post` (no brace in `pre`, no second `_{timestamp}`) becomes `pre` + `post` |
| Reports.MarkdownDescription | report_generator.py:107-110 | a description is kept if it has at most 500 characters; otherwise it becomes its first 497 characters and "...", never longer than 500 |
| Reports.MarkdownReportShape | report_generator.py:58-115 | the report starts with its title. With metadata (given and non-empty) the Report Information block and then the item heading follow it; without, the item heading follows directly. The item sections end the file. |
| Reports.MarkdownItemsNumbered | report_generator.py:89-112 | the k-th item (from 0) is section number k + 1, between the sections of the items before and after it, and opens with its numbered heading and ends with the rule |
| Reports.MarkdownItemFrame | report_generator.py:90-112 | an item's section opens with its numbered, titled heading and ends with the rule |
| Reports.CsvRow | report_generator.py:145-154 | a row has one cell per CSV column |
| Reports.CsvRowRoundTrip | report_generator.py:133-154 | reading a written row back gives exactly the columns, each holding the item's value or an empty string |
| Reports.FeedNamesBounded | report_generator.py:200-206 | there are no more distinct feed names than items, and at least one when there are items |
| Reports.GetReportMetadata | report_generator.py:190-210 | the total is the item count; the feed count is the number of distinct feeds, never more than the total, at least one for a non-empty list; a name is listed iff some item comes from that feed |
| Reports.RequestsSnoc | report_generator.py:174-184 | a format is requested by a longer list iff the shorter list requests it or the added entry names it, ignoring case |
| Reports.ReportGenerator.constructor | report_generator.py:21-27 | the generator holds the output configuration it is given |
| Reports.ReportGenerator.WriteSections | report_generator.py:89-112 | the loop produces the numbered section of every item in order |
| Reports.ReportGenerator.GenerateMarkdown | report_generator.py:58-115 | the file is named from the template and ends in `.md`; its content is the Markdown report |
| Reports.ReportGenerator.GenerateCsv | report_generator.py:117-156 | the file ends in `.csv`; the header is the fixed column list and there is one row per item, in order |
| Reports.ReportGenerator.GenerateAllFormats | report_generator.py:158-188 | the result maps only `markdown` and `csv`. Each is present iff the format is requested, ignoring case, and its write succeeds. Each maps to its generated file name. |
| Mailing.MailDescription | email_delivery.py:88-93 | a description is kept if it has at most 200 characters; otherwise it becomes its first 197 characters and "...", never longer than 200 |
| Mailing.ShownItems | email_delivery.py:70-105 | only the first `max_items` items are rendered, one HTML block each, in order |
| Mailing.EmptyFieldRendersAsMissing | email_delivery.py:86-139 | an empty date or description is rendered exactly as an absent one, in HTML and in text |
| Mailing.TextLinesShape | email_delivery.py:119-139 | an item's text lines start with its number and title, then its source, and end with a blank line; the line count depends on which fields are shown |
| Mailing.ShownFieldsAreLines | email_delivery.py:119-139 | the text lines of an item's shown fields contain no newline when its fields contain none |
| Mailing.ItemLinesAreLines | email_delivery.py:119-139 | an item whose fields contain no newline renders as lines without newlines |
| Mailing.TextLinesAreLines | email_delivery.py:119-139 | the lines of all shown items contain no newline |
| Mailing.ItemsTextSplitsIntoLines | email_delivery.py:107-141 | splitting the joined plain-text list at newlines gives back exactly its lines |
| Mailing.RemainingItems | email_delivery.py:170-171 | a remainder exists iff there are more items than are shown, and the shown and remaining counts add up to the total |
| Mailing.MoreItemsAnnouncesCount | email_delivery.py:155-182 | the HTML and text notices are non-empty iff items were left out, and then they announce the number left out |
| Mailing.ConnectionFor | email_delivery.py:250-311 | SSL iff `use_ssl` is set; STARTTLS iff `use_tls` is set and `use_ssl` is not, never both; the sender is `from_email` if configured, else the username |
| Mailing.EmailDelivery.constructor | email_delivery.py:27-31 | the handler holds the email configuration and the summary size that SummaryParts uses |
| Mailing.EmailDelivery.ValidateConfig | email_delivery.py:33-47 | valid iff every required field is present and truthy |
| Mailing.EmailDelivery.FormatItemsHtml | email_delivery.py:70-105 | the loop yields the joined HTML blocks of the shown items |
| Mailing.EmailDelivery.HtmlParts | email_delivery.py:83-103 | the loop yields the HTML block of every shown item, in order |
| Mailing.EmailDelivery.FormatItemsText | email_delivery.py:107-141 | the loop yields the joined text lines of the shown items |
| Mailing.EmailDelivery.SummaryParts | email_delivery.py:155-205 | the item lists are bounded by the configured summary size, and the notice is present iff the total exceeds that size, with the count of items left out |
| Mailing.EmailDelivery.SendEmail | email_delivery.py:224-332 | `settings` is None iff delivery is disabled or the configuration is incomplete, and the result is then false; otherwise `settings` is the SSL/STARTTLS choice and sender of ConnectionFor, and the result is true iff `deliver` succeeds. `deliver` covers everything in the `try` after the guards (subject and body formatting, attachments, connecting, login, sending), so a failure may come before any connection is opened |
| NewsAggregation.FeedArticlesBounded | news_aggregator.py:57-85 | a feed yields at most `max_articles` articles, no more than it has entries, each carrying the feed's name |
| NewsAggregation.FeedArticlesProperties | news_aggregator.py:57-85 | each article is built from a relevant entry among the first `max_articles`. Every such entry yields its article. The kept entries stay in feed order. |
| NewsAggregation.FeedWithoutKeywordsYieldsNothing | news_aggregator.py:65 | a feed without a `keywords` entry yields no article |
| NewsAggregation.NewsAggregator.KeepsEntry | news_aggregator.py:60-76 | an entry is kept iff the feed has keywords, one of them occurs in the lower-cased title and summary, and the entry is not dated before the cutoff |
| NewsAggregation.NewsAggregator.FetchFeed | news_aggregator.py:35-97 | the loop over entries returns exactly the articles of the relevant entries among the first `max_articles` |
| NewsAggregation.AllArticlesConcat | news_aggregator.py:110-113 | aggregating two lists of feeds gives the articles of the first list followed by those of the second |
| NewsAggregation.AllArticlesSnoc | news_aggregator.py:110-113 | one more feed adds its articles after those already gathered |
| NewsAggregation.AllArticlesBounded | news_aggregator.py:99-123 | there are at most `max_articles` articles per feed |
| NewsAggregation.AllArticlesFromFeeds | news_aggregator.py:99-123 | every aggregated article names one of the feeds as its source |
| NewsAggregation.FeedsWithoutKeywordsYieldNothing | news_aggregator.py:99-123 | when no feed has keywords, aggregation finds nothing |
| NewsAggregation.NewsAggregator.constructor | news_aggregator.py:32-33 | a new aggregator holds no articles |
| NewsAggregation.NewsAggregator.AggregateNews | news_aggregator.py:99-123 | the articles returned and stored are those of all feeds in feed order |
| NewsAggregation.Sources | news_aggregator.py:161-167 | the sources are distinct, and a name is listed iff some article comes from that source |
| NewsAggregation.SourcesInFirstAppearanceOrder | news_aggregator.py:161-167 | sources are listed in order of first appearance |
| NewsAggregation.GroupOfAbsentSource | news_aggregator.py:161-167 | a name that is not a source has no articles |
| NewsAggregation.GroupsPartitionArticles | news_aggregator.py:161-183 | the sections' sizes add up to the number of articles, so every article is in exactly one section |
| NewsAggregation.NewsAggregator.GroupBySource | news_aggregator.py:161-167 | the loop gives the sources in first-appearance order, a group for exactly those sources, and each group holds that source's articles in order |
| NewsAggregation.NewsAggregator.WriteSection | news_aggregator.py:170-183 | one section is its heading with the article count, followed by the block of each of its articles |
| NewsAggregation.NewsAggregator.WriteSections | news_aggregator.py:169-183 | the loop writes the section of every source in order |
| NewsAggregation.SummaryShown | news_aggregator.py:180 | the summary shown is its first 500 characters, or all of it if shorter, always followed by "..." |
| NewsAggregation.FormatCopiesPlainText | news_aggregator.py:135-159 | `str.format` copies text without braces unchanged |
| NewsAggregation.FormatUnknownField | news_aggregator.py:135-159 | `str.format` fails on a replacement field whose name is not among the arguments |
| NewsAggregation.FormatKnownField | news_aggregator.py:135-159 | `str.format` substitutes a known field's value |
| NewsAggregation.FormatEscaped | news_aggregator.py:135-159 | doubled braces come out as single braces |
| NewsAggregation.FormatTwoFields | news_aggregator.py:135-159 | a template of escaped text and two known fields formats to the text with both values substituted |
| NewsAggregation.ReportTemplateRaises | news_aggregator.py:135-159 | the template as written cannot be formatted: `{ font-family` is taken as a field named ` font-family`, which is not an argument |
| NewsAggregation.ReportTemplateRenders | news_aggregator.py:135-159 | the template with the CSS braces doubled formats to the intended header, with the timestamp and the article count filled in |
| NewsAggregation.NewsAggregator.FormatEmailReport | news_aggregator.py:125-190 | the report is the fixed "no news" page when there are no articles. Otherwise it renders the corrected template (see Findings; the template as written raises): the header, one section per source in first-appearance order, and the closing tags. |
| NewsAggregation.NewsAggregator.SendEmailReport | news_aggregator.py:192-236 | the guards pass (`connected`) iff the sender, password and recipient are all non-empty; the result is true iff they pass and `session` (building the message, connecting, STARTTLS, login, sending) succeeds |

## Left out

- I/O is not modelled. This covers logging, the HTTP requests and their headers, sleeping between retries and the rate limiter, socket connection checks (a boolean parameter), SMTP, and the writing of files (a success parameter).
- The HTML tokenizer of `html.parser` is a parameter. So are `feedparser.parse` (entries per URL), `dateutil.parser.parse` (an optional integer time) and the clock (an integer `now`, a function from lookup number to time, or a timestamp string).
- The configuration values that the modules read from `config` and that `config.py` does not define are parameters of the operations. This covers the web-scraping, depth-chart, output and email settings and the news limits and credentials.
- `EmailDelivery._load_template`, `_create_email_body`'s template rendering and fallback bodies, the subject line, MIME assembly and attachments are not modelled. They format text through files and libraries outside this core.
- `verify_connection` in `depth_chart_scraper.py` and `_rate_limit` in `web_scraper.py` are not modelled; both only touch sockets or the clock.
- The debug flag of `scrape_depth_chart` is not modelled. Neither are the diagnostics it logs.
- `example_depth_chart_scraper.py`, `demo.py` and the test files are not part of this model.
- CSV quoting and escaping by `csv.DictWriter` are not modelled; rows are modelled as sequences of cells.
- `Base.Lower` folds only ASCII letters. Python's `str.lower` also folds other scripts.
- `Reports.GenerateFilename`: the template's `{timestamp}` placeholder is replaced literally. The other `str.format` features are not modelled, and neither are the errors they raise.
- `NewsAggregation.Format`: it models named fields, doubled braces and the error on an unknown name. It does not model positional fields, attribute and index access, conversions or format specifications.
- `NewsAggregation.TooOld`: the age test compares integer times. The error Python raises when comparing naive and aware datetimes is not modelled; such an entry is skipped like any other failing entry.
- `NewsAggregation.AllArticlesBounded` requires a non-negative `max_articles`. For a negative limit the bound would be negative and says nothing. The slice's behaviour for negative limits is modelled by `Base.Take`.
- `DepthChartScraping.ExportToCsv` does not model the `isinstance(data, list)` check: the data is always a list in the model.
- `Base.IsUpper` tests only ASCII letters. Python's `str.isupper`, used for position codes at web_scraper.py:105, also knows other scripts.
- `WebScraping.InjuryReportItem`: the `pubDate` of every item of one scrape is one timestamp parameter. The source reads the clock for each item (web_scraper.py:222), so items of one scrape can differ in their second.
- `WebScraping.WebScraper.EnrichItemsWithPositions` and `WebScraping.WebScraper.EnrichOne`: the clock reading and the fetched page of each lookup are functions of the lookup's number. A page is what `fetch_html` would return at that lookup, retries included; it is read only when the cache is stale.
- Exceptions raised by the per-entry parsing of `fetch_feed`, other than a missing `keywords` key or a failing date parse, are not modelled.

## Findings

| source | as written | input that shows it | evidently intended | confidence | as-written member | corrected member |
|---|---|---|---|---|---|---|
| news_aggregator.py:135-159 | the HTML template holds CSS rules with single braces and is passed to `str.format` | any non-empty article list: `{ font-family` is read as a field named ` font-family`, so `KeyError` is raised | CSS braces doubled, so only `{timestamp}` and `{count}` are fields | high, not executed | NewsAggregation.ReportTemplateRaises | NewsAggregation.ReportTemplateRenders |
