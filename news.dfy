/** news_aggregator.py: the keyword and age filter applied to a feed's
    entries, the concatenation over all feeds, the HTML report grouped by
    source, and the guards of send_email_report. Parsed feed entries, the
    date parser, the age cutoff and the clock are parameters. */
module NewsAggregation {
  import opened Base

  /** A feedparser entry: its fields by name. */
  type Entry = map<string, string>

  /** A feed as fetch_feed reads it; `keywords` is None when the dictionary
      has no 'keywords' key (reading it raises KeyError). */
  datatype FeedInfo = FeedInfo(name: string, url: string, keywords: Option<seq<string>>)

  /** The article dictionary built for a relevant entry. */
  datatype Article = Article(title: string, link: string, published: string, summary: string, source: string)

  // ---------------------------------------------------------------------------
  // The entry filter of fetch_feed
  // ---------------------------------------------------------------------------

  /** entry.get('summary', entry.get('description', default)). */
  function SummaryOr(e: Entry, default: string): string {
    if "summary" in e then e["summary"] else GetOr(e, "description", default)
  }

  /** The lower-cased "title summary" text the keywords are looked for in. */
  function SearchText(e: Entry): string {
    Lower(GetOr(e, "title", "")) + " " + Lower(SummaryOr(e, ""))
  }

  /** Some keyword, lower-cased, occurs in the text. */
  predicate MatchesKeyword(text: string, keywords: seq<string>) {
    exists k :: 0 <= k < |keywords| && Contains(text, Lower(keywords[k]))
  }

  /** The entry has a publication date that parses and lies before the
      cutoff; a missing or unparsable date is never too old. */
  predicate TooOld(e: Entry, cutoff: int, parseDate: string -> Option<int>) {
    "published" in e && parseDate(e["published"]).Some? && parseDate(e["published"]).value < cutoff
  }

  /** The entry becomes an article: the feed has keywords, one of them
      matches, and the entry is not too old. */
  predicate Relevant(e: Entry, keywords: Option<seq<string>>, cutoff: int, parseDate: string -> Option<int>) {
    keywords.Some? && MatchesKeyword(SearchText(e), keywords.value) && !TooOld(e, cutoff, parseDate)
  }

  function Keeps(keywords: Option<seq<string>>, cutoff: int, parseDate: string -> Option<int>): Entry -> bool {
    (e: Entry) => Relevant(e, keywords, cutoff, parseDate)
  }

  /** The article of an entry, with the defaults 'No title', '' and
      'Date unknown', and the summary falling back to the description and
      then to 'No summary'. */
  function ToArticle(e: Entry, source: string): Article {
    Article(GetOr(e, "title", "No title"), GetOr(e, "link", ""), GetOr(e, "published", "Date unknown"),
            SummaryOr(e, "No summary"), source)
  }

  function ToArticles(es: seq<Entry>, source: string): (r: seq<Article>)
    ensures |r| == |es|
  {
    seq(|es|, k requires 0 <= k < |es| => ToArticle(es[k], source))
  }

  lemma ToArticlesSnoc(es: seq<Entry>, e: Entry, source: string)
    ensures ToArticles(es + [e], source) == ToArticles(es, source) + [ToArticle(e, source)]
  {
    assert ToArticles(es + [e], source)[|es|] == ToArticle(e, source);
  }

  /** One more entry of fetch_feed's loop adds its article exactly when the
      entry is kept. */
  lemma FetchStep(shown: seq<Entry>, i: int, keep: Entry -> bool, source: string)
    requires 0 <= i < |shown|
    ensures ToArticles(Filter(shown[..i + 1], keep), source)
         == ToArticles(Filter(shown[..i], keep), source) + (if keep(shown[i]) then [ToArticle(shown[i], source)] else [])
  {
    assert shown[..i + 1] == shown[..i] + [shown[i]];
    FilterSnoc(shown[..i], shown[i], keep);
    if keep(shown[i]) {
      ToArticlesSnoc(Filter(shown[..i], keep), shown[i], source);
    }
  }

  /** What fetch_feed returns for a feed whose parsed entries are `entries`:
      the articles of the relevant entries among the first `maxArticles`. */
  function FeedArticles(feed: FeedInfo, entries: seq<Entry>, maxArticles: int, cutoff: int,
                        parseDate: string -> Option<int>): seq<Article>
  {
    ToArticles(Filter(Take(entries, maxArticles), Keeps(feed.keywords, cutoff, parseDate)), feed.name)
  }

  /** A feed yields at most `maxArticles` articles, no more than it has
      entries, and each one carries the feed's name. */
  lemma FeedArticlesBounded(feed: FeedInfo, entries: seq<Entry>, maxArticles: int, cutoff: int,
                            parseDate: string -> Option<int>)
    ensures 0 <= maxArticles ==> |FeedArticles(feed, entries, maxArticles, cutoff, parseDate)| <= maxArticles
    ensures |FeedArticles(feed, entries, maxArticles, cutoff, parseDate)| <= |entries|
    ensures forall k :: 0 <= k < |FeedArticles(feed, entries, maxArticles, cutoff, parseDate)| ==>
              FeedArticles(feed, entries, maxArticles, cutoff, parseDate)[k].source == feed.name
  {
  }

  /** Each article of a feed is the article of a relevant entry among those
      examined, every relevant entry examined yields its article, and the
      entries kept appear in their original order. */
  lemma FeedArticlesProperties(feed: FeedInfo, entries: seq<Entry>, maxArticles: int, cutoff: int,
                               parseDate: string -> Option<int>)
    ensures forall k :: 0 <= k < |FeedArticles(feed, entries, maxArticles, cutoff, parseDate)| ==>
              exists e :: e in Take(entries, maxArticles) && Relevant(e, feed.keywords, cutoff, parseDate)
                && FeedArticles(feed, entries, maxArticles, cutoff, parseDate)[k] == ToArticle(e, feed.name)
    ensures forall e :: e in Take(entries, maxArticles) && Relevant(e, feed.keywords, cutoff, parseDate) ==>
              ToArticle(e, feed.name) in FeedArticles(feed, entries, maxArticles, cutoff, parseDate)
    ensures IsSubsequence(Filter(Take(entries, maxArticles), Keeps(feed.keywords, cutoff, parseDate)),
                          Take(entries, maxArticles))
  {
    var shown := Take(entries, maxArticles);
    var keep := Keeps(feed.keywords, cutoff, parseDate);
    var kept := Filter(shown, keep);
    var r := FeedArticles(feed, entries, maxArticles, cutoff, parseDate);
    forall k | 0 <= k < |r|
      ensures exists e :: e in shown && Relevant(e, feed.keywords, cutoff, parseDate) && r[k] == ToArticle(e, feed.name)
    {
      assert kept[k] in shown && keep(kept[k]);
    }
    forall e | e in shown && Relevant(e, feed.keywords, cutoff, parseDate)
      ensures ToArticle(e, feed.name) in r
    {
      var i :| 0 <= i < |shown| && shown[i] == e;
      assert keep(shown[i]);
      var j :| 0 <= j < |kept| && kept[j] == e;
      assert r[j] == ToArticle(e, feed.name);
    }
    FilterIsSubsequence(shown, keep);
  }

  /** A feed without keywords (as every entry of config.py's RSS_FEEDS is)
      yields no article at all. */
  lemma FeedWithoutKeywordsYieldsNothing(feed: FeedInfo, entries: seq<Entry>, maxArticles: int, cutoff: int,
                                         parseDate: string -> Option<int>)
    requires feed.keywords.None?
    ensures FeedArticles(feed, entries, maxArticles, cutoff, parseDate) == []
  {
    FilterNone(Take(entries, maxArticles), Keeps(feed.keywords, cutoff, parseDate));
  }

  /** fetch_feed as a function of a feed, for the feeds of one run. */
  function FetchFor(parse: string -> seq<Entry>, maxArticles: int, cutoff: int, parseDate: string -> Option<int>)
    : (nat, FeedInfo) -> seq<Article>
  {
    (n: nat, f: FeedInfo) => FeedArticles(f, parse(f.url), maxArticles, cutoff, parseDate)
  }

  /** The articles of all feeds, in feed order. */
  function AllArticles(feeds: seq<FeedInfo>, parse: string -> seq<Entry>, maxArticles: int, cutoff: int,
                       parseDate: string -> Option<int>): seq<Article>
  {
    Blocks(feeds, 0, FetchFor(parse, maxArticles, cutoff, parseDate))
  }

  /** Aggregating two lists of feeds is aggregating each and concatenating. */
  lemma AllArticlesConcat(a: seq<FeedInfo>, b: seq<FeedInfo>, parse: string -> seq<Entry>,
                          maxArticles: int, cutoff: int, parseDate: string -> Option<int>)
    ensures AllArticles(a + b, parse, maxArticles, cutoff, parseDate)
         == AllArticles(a, parse, maxArticles, cutoff, parseDate) + AllArticles(b, parse, maxArticles, cutoff, parseDate)
  {
    var fetch := FetchFor(parse, maxArticles, cutoff, parseDate);
    BlocksConcat(a, b, 0, fetch);
    BlocksShift(b, |a|, 0, fetch);
  }

  /** Aggregation adds the last feed's articles after those of the others. */
  lemma AllArticlesSnoc(feeds: seq<FeedInfo>, parse: string -> seq<Entry>, maxArticles: int, cutoff: int,
                        parseDate: string -> Option<int>)
    requires feeds != []
    ensures AllArticles(feeds, parse, maxArticles, cutoff, parseDate)
         == AllArticles(feeds[..|feeds| - 1], parse, maxArticles, cutoff, parseDate)
          + FeedArticles(feeds[|feeds| - 1], parse(feeds[|feeds| - 1].url), maxArticles, cutoff, parseDate)
  {
  }

  /** There are at most `maxArticles` articles per feed. */
  lemma {:induction false} AllArticlesBounded(feeds: seq<FeedInfo>, parse: string -> seq<Entry>, maxArticles: int,
                                              cutoff: int, parseDate: string -> Option<int>)
    requires 0 <= maxArticles
    ensures |AllArticles(feeds, parse, maxArticles, cutoff, parseDate)| <= |feeds| * maxArticles
    decreases |feeds|
  {
    if feeds != [] {
      var init := feeds[..|feeds| - 1];
      var last := feeds[|feeds| - 1];
      AllArticlesBounded(init, parse, maxArticles, cutoff, parseDate);
      FeedArticlesBounded(last, parse(last.url), maxArticles, cutoff, parseDate);
      AllArticlesSnoc(feeds, parse, maxArticles, cutoff, parseDate);
      MulStep(|init|, maxArticles);
    } else {
      assert AllArticles(feeds, parse, maxArticles, cutoff, parseDate) == [];
    }
  }

  /** One of the feeds is called `source`. */
  predicate NamesFeed(feeds: seq<FeedInfo>, source: string) {
    exists f :: f in feeds && f.name == source
  }

  /** Every aggregated article names one of the feeds as its source. */
  lemma AllArticlesFromFeeds(feeds: seq<FeedInfo>, parse: string -> seq<Entry>, maxArticles: int,
                             cutoff: int, parseDate: string -> Option<int>)
    ensures forall k :: 0 <= k < |AllArticles(feeds, parse, maxArticles, cutoff, parseDate)| ==>
              NamesFeed(feeds, AllArticles(feeds, parse, maxArticles, cutoff, parseDate)[k].source)
  {
    var fetch := FetchFor(parse, maxArticles, cutoff, parseDate);
    var all := AllArticles(feeds, parse, maxArticles, cutoff, parseDate);
    forall k | 0 <= k < |all| ensures NamesFeed(feeds, all[k].source) {
      BlocksMember(feeds, 0, fetch, k);
      var i :| 0 <= i < |feeds| && all[k] in fetch(0 + i, feeds[i]);
      var found := FeedArticles(feeds[i], parse(feeds[i].url), maxArticles, cutoff, parseDate);
      FeedArticlesBounded(feeds[i], parse(feeds[i].url), maxArticles, cutoff, parseDate);
      assert all[k] in found;
      var j :| 0 <= j < |found| && found[j] == all[k];
      assert feeds[i] in feeds;
    }
  }

  lemma MulStep(n: nat, m: int)
    ensures (n + 1) * m == n * m + m
  {
  }

  /** With no feed carrying keywords, aggregation finds nothing. */
  lemma {:induction false} FeedsWithoutKeywordsYieldNothing(feeds: seq<FeedInfo>, parse: string -> seq<Entry>,
                                                            maxArticles: int, cutoff: int, parseDate: string -> Option<int>)
    requires forall f :: 0 <= f < |feeds| ==> feeds[f].keywords.None?
    ensures AllArticles(feeds, parse, maxArticles, cutoff, parseDate) == []
    decreases |feeds|
  {
    if feeds != [] {
      var last := feeds[|feeds| - 1];
      FeedsWithoutKeywordsYieldNothing(feeds[..|feeds| - 1], parse, maxArticles, cutoff, parseDate);
      FeedWithoutKeywordsYieldsNothing(last, parse(last.url), maxArticles, cutoff, parseDate);
      assert AllArticles(feeds, parse, maxArticles, cutoff, parseDate)
          == AllArticles(feeds[..|feeds| - 1], parse, maxArticles, cutoff, parseDate)
           + FeedArticles(last, parse(last.url), maxArticles, cutoff, parseDate);
    }
  }

  // ---------------------------------------------------------------------------
  // Grouping by source
  // ---------------------------------------------------------------------------

  /** Some article comes from `source`. */
  predicate HasSource(articles: seq<Article>, source: string) {
    exists k :: 0 <= k < |articles| && articles[k].source == source
  }

  lemma HasSourceSnoc(articles: seq<Article>, a: Article, source: string)
    ensures HasSource(articles + [a], source) <==> HasSource(articles, source) || a.source == source
  {
    var all := articles + [a];
    if HasSource(articles, source) {
      var k :| 0 <= k < |articles| && articles[k].source == source;
      assert all[k] == articles[k];
    }
    if HasSource(all, source) && a.source != source {
      var k :| 0 <= k < |all| && all[k].source == source;
      assert all[k] == articles[k];
    }
    assert all[|articles|] == a;
  }

  /** The sources in order of first appearance, each once. */
  function Sources(articles: seq<Article>): (r: seq<string>)
    ensures forall i, j :: 0 <= i < j < |r| ==> r[i] != r[j]
    ensures forall s :: s in r <==> HasSource(articles, s)
    decreases |articles|
  {
    if articles == [] then []
    else
      var init := articles[..|articles| - 1];
      var a := articles[|articles| - 1];
      var before := Sources(init);
      assert articles == init + [a];
      assert forall s :: HasSource(articles, s) <==> HasSource(init, s) || a.source == s by {
        forall s ensures HasSource(articles, s) <==> HasSource(init, s) || a.source == s {
          HasSourceSnoc(init, a, s);
        }
      }
      if a.source in before then before else before + [a.source]
  }

  /** Each source comes before every later one in the articles: a source
      listed earlier appears before any article of a source listed later. */
  lemma {:induction false} SourcesInFirstAppearanceOrder(articles: seq<Article>)
    ensures forall i, j, k :: 0 <= i < j < |Sources(articles)| && 0 <= k < |articles| && articles[k].source == Sources(articles)[j] ==>
              HasSource(articles[..k], Sources(articles)[i])
    decreases |articles|
  {
    if articles != [] {
      var init := articles[..|articles| - 1];
      var a := articles[|articles| - 1];
      assert articles == init + [a];
      SourcesInFirstAppearanceOrder(init);
      var S := Sources(articles);
      var S0 := Sources(init);
      assert S == (if a.source in S0 then S0 else S0 + [a.source]);
      forall i, j, k | 0 <= i < j < |S| && 0 <= k < |articles| && articles[k].source == S[j]
        ensures HasSource(articles[..k], S[i])
      {
        assert S[i] == S0[i];
        if j < |S0| && k < |init| {
          assert S[j] == S0[j] && init[k] == articles[k];
          assert init[..k] == articles[..k];
        } else {
          if j >= |S0| && k < |init| {
            assert false;
          }
          assert S0[i] in S0;
          var ki :| 0 <= ki < |init| && init[ki].source == S0[i];
          assert articles[..k][ki] == init[ki];
        }
      }
    }
  }

  function FromSource(source: string): Article -> bool {
    (a: Article) => a.source == source
  }

  /** The articles of one source, in their original order. */
  function Group(articles: seq<Article>, source: string): seq<Article> {
    Filter(articles, FromSource(source))
  }

  /** A source with no article has an empty group. */
  lemma GroupOfAbsentSource(articles: seq<Article>, source: string)
    requires source !in Sources(articles)
    ensures Group(articles, source) == []
  {
    FilterNone(articles, FromSource(source));
  }

  /** `order` and `groups` are what the grouping loop holds after `prefix`:
      the sources in first-appearance order, each mapped to its articles. */
  ghost predicate Grouped(prefix: seq<Article>, order: seq<string>, groups: map<string, seq<Article>>) {
    && order == Sources(prefix)
    && (forall s :: s in groups <==> s in order)
    && (forall s :: s in groups ==> groups[s] == Group(prefix, s))
  }

  /** One step of the grouping loop keeps the sources in order of first
      appearance and each source's group. */
  lemma GroupingStep(prefix: seq<Article>, a: Article, order: seq<string>, groups: map<string, seq<Article>>,
                     order': seq<string>, started: map<string, seq<Article>>, groups': map<string, seq<Article>>)
    requires Grouped(prefix, order, groups)
    requires a.source in groups ==> order' == order && started == groups
    requires a.source !in groups ==> order' == order + [a.source] && started == groups[a.source := []]
    requires a.source in started && groups' == started[a.source := started[a.source] + [a]]
    ensures Grouped(prefix + [a], order', groups')
  {
    assert (prefix + [a])[..|prefix|] == prefix;
    if a.source !in groups {
      GroupOfAbsentSource(prefix, a.source);
    }
    forall s | s in groups' ensures groups'[s] == Group(prefix + [a], s) {
      FilterSnoc(prefix, a, FromSource(s));
    }
  }

  /** The sizes of the groups of `sources`, added up. */
  function GroupSizes(sources: seq<string>, articles: seq<Article>): nat
    decreases |sources|
  {
    if sources == [] then 0
    else GroupSizes(sources[..|sources| - 1], articles) + |Group(articles, sources[|sources| - 1])|
  }

  /** One more article adds one to the group sizes of any list of distinct
      sources that holds its source, and nothing otherwise. */
  lemma {:induction false} GroupSizesStep(sources: seq<string>, articles: seq<Article>, a: Article)
    requires forall i, j :: 0 <= i < j < |sources| ==> sources[i] != sources[j]
    ensures GroupSizes(sources, articles + [a]) == GroupSizes(sources, articles) + (if a.source in sources then 1 else 0)
    decreases |sources|
  {
    if sources != [] {
      var init := sources[..|sources| - 1];
      var s := sources[|sources| - 1];
      GroupSizesStep(init, articles, a);
      FilterSnoc(articles, a, FromSource(s));
      assert a.source in sources <==> a.source in init || a.source == s;
      if a.source == s {
        assert a.source !in init;
      }
    }
  }

  /** Every article lands in exactly one section: the section sizes add up
      to the number of articles. */
  lemma {:induction false} GroupsPartitionArticles(articles: seq<Article>)
    ensures GroupSizes(Sources(articles), articles) == |articles|
    decreases |articles|
  {
    if articles != [] {
      var init := articles[..|articles| - 1];
      var a := articles[|articles| - 1];
      assert articles == init + [a];
      GroupsPartitionArticles(init);
      var S0 := Sources(init);
      GroupSizesStep(S0, init, a);
      if a.source !in S0 {
        GroupOfAbsentSource(init, a.source);
        FilterSnoc(init, a, FromSource(a.source));
        assert Sources(articles) == S0 + [a.source];
        assert (S0 + [a.source])[..|S0|] == S0;
      }
    }
  }

  // ---------------------------------------------------------------------------
  // A model of str.format, for the report header
  // ---------------------------------------------------------------------------

  /** The name of a replacement field: the text before the first ':' or '!'
      (attribute and index access are not modelled). */
  function FieldName(field: string): string {
    if field == [] || field[0] == ':' || field[0] == '!' then []
    else [field[0]] + FieldName(field[1..])
  }

  function Prepend(s: string, rest: Option<string>): Option<string> {
    if rest.Some? then Some(s + rest.value) else None
  }

  lemma PrependTwice(a: string, b: string, rest: Option<string>)
    ensures Prepend(a, Prepend(b, rest)) == Prepend(a + b, rest)
  {
    if rest.Some? {
      assert a + (b + rest.value) == (a + b) + rest.value;
    }
  }

  lemma PrependEmpty(rest: Option<string>)
    ensures Prepend([], rest) == rest
  {
    if rest.Some? {
      assert [] + rest.value == rest.value;
    }
  }

  /** A name str.format reads back whole from "{name}". */
  predicate PlainName(n: string) {
    n != [] && '{' !in n && '}' !in n && ':' !in n && '!' !in n
  }

  /** A replacement field naming `name`. */
  function Field(name: string): string {
    "{" + name + "}"
  }

  /** template.format(**vars) with keyword arguments only: "{{" and "}}"
      stand for single braces, "{name}" and "{name:spec}" are replaced by the
      value of `name` (the spec is not applied), and None stands for the
      exception raised on an unknown name or a stray brace. */
  function Format(t: string, vars: map<string, string>): Option<string>
    decreases |t|
  {
    if t == [] then Some([])
    else if t[0] == '{' then
      if |t| >= 2 && t[1] == '{' then Prepend("{", Format(t[2..], vars))
      else if '}' !in t then None
      else
        var j := FirstIndex(t, '}');
        var name := FieldName(t[1..j]);
        if j >= 1 && name in vars then Prepend(vars[name], Format(t[j + 1..], vars)) else None
    else if t[0] == '}' then
      if |t| >= 2 && t[1] == '}' then Prepend("}", Format(t[2..], vars)) else None
    else Prepend([t[0]], Format(t[1..], vars))
  }

  /** Text with its braces doubled, so that str.format reproduces it. */
  function Escape(s: string): string {
    if s == [] then []
    else (if s[0] == '{' then "{{" else if s[0] == '}' then "}}" else [s[0]]) + Escape(s[1..])
  }

  /** Plain text before a field is copied. */
  lemma {:induction false} FormatCopiesPlainText(pre: string, rest: string, vars: map<string, string>)
    requires '{' !in pre && '}' !in pre
    ensures Format(pre + rest, vars) == Prepend(pre, Format(rest, vars))
    decreases |pre|
  {
    if pre != [] {
      var t := pre + rest;
      assert t[0] == pre[0] && pre[0] in pre;
      assert t[1..] == pre[1..] + rest;
      assert '{' !in pre[1..] && '}' !in pre[1..] by {
        forall i | 0 <= i < |pre[1..]| ensures pre[1..][i] in pre { assert pre[1..][i] == pre[i + 1]; }
      }
      FormatCopiesPlainText(pre[1..], rest, vars);
      assert Format(t, vars) == Prepend([pre[0]], Format(t[1..], vars));
      assert Format(t[1..], vars) == Prepend(pre[1..], Format(rest, vars));
      PrependTwice([pre[0]], pre[1..], Format(rest, vars));
      assert [pre[0]] + pre[1..] == pre;
      assert Format(t, vars) == Prepend([pre[0]] + pre[1..], Format(rest, vars));
    } else {
      PrependEmpty(Format(rest, vars));
      assert pre + rest == rest;
    }
  }

  lemma {:induction false} FieldNameOf(name: string, suffix: string)
    requires ':' !in name && '!' !in name
    requires suffix == [] || suffix[0] == ':'
    ensures FieldName(name + suffix) == name
    decreases |name|
  {
    if name != [] {
      assert (name + suffix)[1..] == name[1..] + suffix;
      FieldNameOf(name[1..], suffix);
      assert [name[0]] + name[1..] == name;
    }
  }

  /** A replacement field whose name is not given makes str.format raise,
      whatever follows it. */
  lemma FormatUnknownField(pre: string, name: string, spec: string, rest: string, vars: map<string, string>)
    requires '{' !in pre && '}' !in pre
    requires '{' !in name && '}' !in name && ':' !in name && '!' !in name && '}' !in spec
    requires name !in vars
    ensures Format(pre + "{" + name + ":" + spec + "}" + rest, vars) == None
  {
    var field := "{" + name + ":" + spec + "}" + rest;
    assert pre + "{" + name + ":" + spec + "}" + rest == pre + field;
    FormatCopiesPlainText(pre, field, vars);
    var j := 1 + |name| + 1 + |spec|;
    assert field[j] == '}';
    assert field[1] != '{';
    var i := FirstIndex(field, '}');
    assert i == j;
    assert field[1..j] == name + (":" + spec);
    FieldNameOf(name, ":" + spec);
  }

  /** A replacement field whose name is given is replaced by its value. */
  lemma FormatKnownField(name: string, rest: string, vars: map<string, string>)
    requires PlainName(name) && name in vars
    ensures Format(Field(name) + rest, vars) == Prepend(vars[name], Format(rest, vars))
  {
    var t := Field(name) + rest;
    assert t[1] == name[0];
    assert t[|name| + 1] == '}';
    var i := FirstIndex(t, '}');
    assert i == |name| + 1;
    assert t[1..i] == name + [];
    FieldNameOf(name, []);
    assert t[i + 1..] == rest;
  }

  /** Escaped text is reproduced by str.format. */
  lemma {:induction false} FormatEscaped(s: string, rest: string, vars: map<string, string>)
    ensures Format(Escape(s) + rest, vars) == Prepend(s, Format(rest, vars))
    decreases |s|
  {
    if s != [] {
      var head := if s[0] == '{' then "{{" else if s[0] == '}' then "}}" else [s[0]];
      assert Escape(s) + rest == head + (Escape(s[1..]) + rest);
      FormatEscaped(s[1..], rest, vars);
      var t := head + (Escape(s[1..]) + rest);
      if s[0] == '{' || s[0] == '}' {
        assert t[2..] == Escape(s[1..]) + rest;
        assert Format(t, vars) == Prepend([s[0]], Format(t[2..], vars));
      } else {
        assert t[1..] == Escape(s[1..]) + rest;
        assert Format(t, vars) == Prepend([s[0]], Format(t[1..], vars));
      }
      PrependTwice([s[0]], s[1..], Format(rest, vars));
      assert [s[0]] + s[1..] == s;
    } else {
      PrependEmpty(Format(rest, vars));
      assert Escape(s) + rest == rest;
    }
  }

  /** Escaped text alone renders as itself. */
  lemma FormatEscapedAlone(s: string, vars: map<string, string>)
    ensures Format(Escape(s), vars) == Some(s)
  {
    FormatEscaped(s, [], vars);
    assert Escape(s) + [] == Escape(s);
    assert s + [] == s;
  }

  /** Escaped text followed by a known field renders as the text and the
      field's value. */
  lemma FormatEscapedThenField(s: string, name: string, rest: string, vars: map<string, string>)
    requires PlainName(name) && name in vars
    ensures Format(Escape(s) + (Field(name) + rest), vars) == Prepend(s + vars[name], Format(rest, vars))
  {
    FormatEscaped(s, Field(name) + rest, vars);
    FormatKnownField(name, rest, vars);
    PrependTwice(s, vars[name], Format(rest, vars));
  }

  /** A template of escaped text around two fields renders the text with the
      two values filled in. */
  lemma FormatTwoFields(a: string, b: string, c: string, n1: string, n2: string, vars: map<string, string>)
    requires PlainName(n1) && n1 in vars
    requires PlainName(n2) && n2 in vars
    ensures Format(Escape(a) + Field(n1) + Escape(b) + Field(n2) + Escape(c), vars)
         == Some(a + vars[n1] + b + vars[n2] + c)
  {
    var ea, f1, eb, f2, ec := Escape(a), Field(n1), Escape(b), Field(n2), Escape(c);
    Regroup5(ea, f1, eb, f2, ec);
    FormatEscapedAlone(c, vars);
    FormatEscapedThenField(b, n2, ec, vars);
    FormatEscapedThenField(a, n1, eb + (f2 + ec), vars);
    Regroup5(a, vars[n1], b, vars[n2], c);
  }

  // ---------------------------------------------------------------------------
  // format_email_report
  // ---------------------------------------------------------------------------

  const NoNewsPage: string :=
    "<html><body><h2>No relevant news found</h2><p>No injury or depth chart news was found in the configured feeds.</p></body></html>"

  /** The header's text, cut where the first style rule's braces are. */
  const HeadOpen: string :=
    "\n        <html>" + "\n        <head>" + "\n            <style>" + "\n                body "
  const BodyRuleName: string := " font-family"
  const BodyRuleSpec: string := " Arial, sans-serif;" + " line-height: 1.6;" + " color: #333; "
  const StyleRest: string :=
    "\n                h1 { color: #2c3e50; }"
    + "\n                h2 { color: #34495e; border-bottom: 2px solid #3498db; padding-bottom: 5px; }"
    + "\n                .article { margin-bottom: 20px; padding: 10px; background-color: #f9f9f9; border-left: 4px solid #3498db; }"
    + "\n                .article-title { font-size: 18px; font-weight: bold; margin-bottom: 5px; }"
    + "\n                .article-meta { font-size: 12px; color: #7f8c8d; margin-bottom: 10px; }"
    + "\n                .article-summary { margin-bottom: 10px; }"
    + "\n                a { color: #3498db; text-decoration: none; }"
    + "\n                a:hover { text-decoration: underline; }"
    + "\n            </style>\n        </head>\n        <body>"
    + "\n            <h1>College Football News Report</h1>"
    + "\n            <p><strong>Focus:</strong> Injuries & Depth Chart Changes</p>"
    + "\n            <p><strong>Generated:</strong> "
  const HeaderMiddle: string := "</p>\n            <p><strong>Articles Found:</strong> "
  const HeaderAfter: string := "</p>\n            <hr>\n        "

  /** The header text up to the timestamp, style rules included. */
  function HeaderBefore(): string {
    HeadOpen + "{" + BodyRuleName + ":" + BodyRuleSpec + "}" + StyleRest
  }

  /** The values passed to format(). */
  function HeaderVars(timestamp: string, count: nat): map<string, string> {
    map["timestamp" := timestamp, "count" := NatToString(count)]
  }

  /** The header template as the source writes it: the style rules' braces
      are single, so str.format reads them as replacement fields. */
  function ReportTemplateAsWritten(): string {
    HeadOpen + "{" + BodyRuleName + ":" + BodyRuleSpec + "}"
    + (StyleRest + "{timestamp}" + HeaderMiddle + "{count}" + HeaderAfter)
  }

  predicate BraceFree(s: string) {
    forall i :: 0 <= i < |s| ==> s[i] != '{' && s[i] != '}'
  }

  lemma BraceFreeConcat(a: string, b: string)
    requires BraceFree(a) && BraceFree(b)
    ensures BraceFree(a + b)
  {
    forall i | |a| <= i < |a + b| ensures (a + b)[i] != '{' && (a + b)[i] != '}' {
      assert (a + b)[i] == b[i - |a|];
    }
  }

  lemma HeadOpenBraceFree()
    ensures '{' !in HeadOpen && '}' !in HeadOpen
  {
    var a, b, c, d := "\n        <html>", "\n        <head>", "\n            <style>", "\n                body ";
    assert BraceFree(a) && BraceFree(b) && BraceFree(c) && BraceFree(d);
    BraceFreeConcat(a, b);
    BraceFreeConcat(a + b, c);
    BraceFreeConcat(a + b + c, d);
  }

  lemma BodyRuleSpecBraceFree()
    ensures '}' !in BodyRuleSpec
  {
    var a, b, c := " Arial, sans-serif;", " line-height: 1.6;", " color: #333; ";
    assert BraceFree(a) && BraceFree(b) && BraceFree(c);
    BraceFreeConcat(a, b);
    BraceFreeConcat(a + b, c);
  }

  /** Formatting the header as written raises (KeyError: ' font-family')
      whatever the timestamp and count. */
  lemma ReportTemplateRaises(timestamp: string, count: nat)
    ensures Format(ReportTemplateAsWritten(), HeaderVars(timestamp, count)) == None
  {
    HeadOpenBraceFree();
    assert '{' !in BodyRuleName && '}' !in BodyRuleName;
    assert ':' !in BodyRuleName && '!' !in BodyRuleName;
    BodyRuleSpecBraceFree();
    assert BodyRuleName !in HeaderVars(timestamp, count);
    FormatUnknownField(HeadOpen, BodyRuleName, BodyRuleSpec,
                       StyleRest + "{timestamp}" + HeaderMiddle + "{count}" + HeaderAfter,
                       HeaderVars(timestamp, count));
  }

  /** The header the report evidently means: the style rules verbatim with
      the timestamp and the article count filled in. */
  function ReportHeader(timestamp: string, count: nat): string {
    HeaderBefore() + timestamp + HeaderMiddle + NatToString(count) + HeaderAfter
  }

  /** The template with the style braces doubled. */
  function ReportTemplate(): string {
    Escape(HeaderBefore()) + Field("timestamp") + Escape(HeaderMiddle) + Field("count") + Escape(HeaderAfter)
  }

  lemma HeaderFieldNamesArePlain()
    ensures PlainName("timestamp") && PlainName("count")
  {
  }

  /** With the braces doubled, formatting renders exactly ReportHeader. */
  lemma ReportTemplateRenders(timestamp: string, count: nat)
    ensures Format(ReportTemplate(), HeaderVars(timestamp, count)) == Some(ReportHeader(timestamp, count))
  {
    var vars := HeaderVars(timestamp, count);
    HeaderFieldNamesArePlain();
    assert vars["timestamp"] == timestamp && vars["count"] == NatToString(count);
    FormatTwoFields(HeaderBefore(), HeaderMiddle, HeaderAfter, "timestamp", "count", vars);
  }

  const Footer: string := "\n        </body>\n        </html>\n        "

  /** article['summary'][:500] followed by "..." (always appended). */
  function SummaryShown(summary: string): (shown: string)
    ensures |shown| == (if |summary| < 500 then |summary| else 500) + 3
    ensures shown[..|shown| - 3] == summary[..|shown| - 3] && shown[|shown| - 3..] == "..."
  {
    Take(summary, 500) + "..."
  }

  const BlockOpen: string := "\n                <div class=\"article\">\n                    <div class=\"article-title\">"
  const BlockPublished: string :=
    "</div>\n                    <div class=\"article-meta\">\n                        <strong>Published:</strong> "
  const BlockSource: string := " | \n                        <strong>Source:</strong> "
  const BlockSummary: string := "\n                    </div>\n                    <div class=\"article-summary\">"
  const BlockLink: string := "</div>\n                    <div><a href=\""
  const BlockClose: string := "\" target=\"_blank\">Read full article</a></div>\n                </div>\n                "

  /** The block of one article. */
  function ArticleBlock(n: nat, a: Article): string {
    BlockOpen + a.title + BlockPublished + a.published + BlockSource + a.source
    + BlockSummary + SummaryShown(a.summary) + BlockLink + a.link + BlockClose
  }

  /** The heading of a source's section, with its article count. */
  function SectionHeading(source: string, count: nat): string {
    "<h2>" + source + " (" + NatToString(count) + " articles)</h2>"
  }

  /** A source's section: the heading and the blocks of its articles. */
  function SectionHtml(source: string, group: seq<Article>): string {
    SectionHeading(source, |group|) + Blocks(group, 0, ArticleBlock)
  }

  function SectionFor(articles: seq<Article>): (nat, string) -> string {
    (n: nat, s: string) => SectionHtml(s, Group(articles, s))
  }

  /** The whole report: the fixed page without articles, otherwise the
      header, one section per source in order of first appearance, and the
      closing tags. */
  function ReportHtml(articles: seq<Article>, timestamp: string): string {
    if articles == [] then NoNewsPage
    else ReportHeader(timestamp, |articles|) + Blocks(Sources(articles), 0, SectionFor(articles)) + Footer
  }

  // ---------------------------------------------------------------------------
  // NewsAggregator
  // ---------------------------------------------------------------------------

  class NewsAggregator {
    /** The articles of the last aggregation. */
    var articles: seq<Article>

    constructor()
      ensures articles == []
    {
      articles := [];
    }

    /** fetch_feed over the entries feedparser returned for the feed. */
    method FetchFeed(feed: FeedInfo, entries: seq<Entry>, maxArticles: int, cutoff: int,
                     parseDate: string -> Option<int>) returns (relevant: seq<Article>)
      ensures relevant == FeedArticles(feed, entries, maxArticles, cutoff, parseDate)
    {
      var shown := Take(entries, maxArticles);
      ghost var keep := Keeps(feed.keywords, cutoff, parseDate);
      relevant := [];
      for i := 0 to |shown|
        invariant relevant == ToArticles(Filter(shown[..i], keep), feed.name)
      {
        var entry := shown[i];
        FetchStep(shown, i, keep, feed.name);
        var kept := KeepsEntry(feed.keywords, entry, cutoff, parseDate);
        assert kept == keep(entry);
        if kept {
          relevant := relevant + [ToArticle(entry, feed.name)];
        }
      }
      assert shown[..|shown|] == shown;
    }

    /** The test fetch_feed applies to one entry: a keyword occurs in the
        lower-cased title and summary, and the entry is not older than the
        cutoff. */
    static method KeepsEntry(keywords: Option<seq<string>>, entry: Entry, cutoff: int,
                             parseDate: string -> Option<int>) returns (kept: bool)
      ensures kept == Relevant(entry, keywords, cutoff, parseDate)
    {
      if keywords.None? {
        return false;
      }
      var content := Lower(GetOr(entry, "title", "")) + " " + Lower(SummaryOr(entry, ""));
      assert content == SearchText(entry);
      var words := keywords.value;
      if !(exists k :: 0 <= k < |words| && Contains(content, Lower(words[k]))) {
        return false;
      }
      var tooOld := "published" in entry && parseDate(entry["published"]).Some?
                    && parseDate(entry["published"]).value < cutoff;
      kept := !tooOld;
    }

    /** aggregate_news: the feeds' articles concatenated in feed order;
        `parse` stands for feedparser.parse on a feed's URL. */
    method AggregateNews(feeds: seq<FeedInfo>, parse: string -> seq<Entry>, maxArticles: int, cutoff: int,
                         parseDate: string -> Option<int>) returns (allArticles: seq<Article>)
      modifies this
      ensures allArticles == AllArticles(feeds, parse, maxArticles, cutoff, parseDate)
      ensures articles == allArticles
    {
      allArticles := [];
      for i := 0 to |feeds|
        invariant allArticles == AllArticles(feeds[..i], parse, maxArticles, cutoff, parseDate)
      {
        assert feeds[..i + 1][..i] == feeds[..i];
        var found := FetchFeed(feeds[i], parse(feeds[i].url), maxArticles, cutoff, parseDate);
        allArticles := allArticles + found;
      }
      assert feeds[..|feeds|] == feeds;
      articles := allArticles;
    }

    /** The grouping loop of format_email_report: the sources in order of
        first appearance and each source's list of articles. */
    static method GroupBySource(articles: seq<Article>) returns (order: seq<string>, groups: map<string, seq<Article>>)
      ensures order == Sources(articles)
      ensures forall s :: s in groups <==> s in order
      ensures forall s :: s in groups ==> groups[s] == Group(articles, s)
    {
      order := [];
      groups := map[];
      for i := 0 to |articles|
        invariant Grouped(articles[..i], order, groups)
      {
        var article := articles[i];
        var source := article.source;
        ghost var order0, groups0 := order, groups;
        if source !in groups {
          order := order + [source];
          groups := groups[source := []];
        }
        ghost var started := groups;
        groups := groups[source := groups[source] + [article]];
        assert articles[..i + 1] == articles[..i] + [article];
        GroupingStep(articles[..i], article, order0, groups0, order, started, groups);
      }
      assert articles[..|articles|] == articles;
    }

    /** One section: the heading, then one block per article. */
    static method WriteSection(source: string, group: seq<Article>) returns (html: string)
      ensures html == SectionHtml(source, group)
    {
      var blocks := "";
      for k := 0 to |group|
        invariant blocks == Blocks(group[..k], 0, ArticleBlock)
      {
        BlocksPrefixStep(group, k, 0, ArticleBlock);
        blocks := blocks + ArticleBlock(k, group[k]);
      }
      assert group[..|group|] == group;
      html := SectionHeading(source, |group|) + blocks;
    }

    /** The loop of format_email_report over the sources. */
    static method WriteSections(articles: seq<Article>, order: seq<string>, groups: map<string, seq<Article>>)
      returns (sections: string)
      requires forall s :: s in order ==> s in groups && groups[s] == Group(articles, s)
      ensures sections == Blocks(order, 0, SectionFor(articles))
    {
      sections := "";
      for j := 0 to |order|
        invariant sections == Blocks(order[..j], 0, SectionFor(articles))
      {
        var source := order[j];
        assert source in order;
        BlocksPrefixStep(order, j, 0, SectionFor(articles));
        assert SectionFor(articles)(j, source) == SectionHtml(source, groups[source]);
        var section := WriteSection(source, groups[source]);
        sections := sections + section;
      }
      assert order[..|order|] == order;
    }

    /** format_email_report, with the header rendered as ReportHeader (see
        ReportTemplateRaises for the header as the source formats it). */
    method FormatEmailReport(timestamp: string) returns (html: string)
      ensures html == ReportHtml(articles, timestamp)
    {
      if articles == [] {
        return NoNewsPage;
      }
      var order, groups := GroupBySource(articles);
      var sections := WriteSections(articles, order, groups);
      html := ReportHeader(timestamp, |articles|) + sections + Footer;
    }

    /** send_email_report: nothing is connected when the sender, password or
        recipient is empty; otherwise `session` tells whether the SMTP
        exchange succeeded. */
    method SendEmailReport(sender: string, password: string, recipient: string, session: bool)
      returns (sent: bool, connected: bool)
      ensures connected <==> sender != "" && password != "" && recipient != ""
      ensures sent <==> connected && session
    {
      if sender == "" || password == "" {
        return false, false;
      }
      if recipient == "" {
        return false, false;
      }
      connected := true;
      sent := session;
    }
  }
}
