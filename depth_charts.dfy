/** depth_chart_scraper.py: the team-link scraper for the one whitelisted
    Ourlads landing page. Its parser pairs each team name buffered from a
    `team-name` div with the next depth-chart link; the scraper fetches the
    page with retries, feeds it to the parser, drops repeated slugs, and
    exports the result as CSV. */
module DepthChartScraping {
  import opened Base
  import opened HtmlEvents
  import Fetching

  /** The only URL the scraper may fetch. */
  const AllowedUrl: string := "https://www.ourlads.com/ncaa-football-depth-charts/"

  /** SCRAPER_CONFIG['max_retries']. */
  const MaxRetries: int := 3

  /** One parsed team: its display name and its URL slug. */
  datatype TeamEntry = TeamEntry(team: string, slug: string)

  // ---------------------------------------------------------------------------
  // Slug extraction: re.search(r's=([^&]+)', href).group(1)
  // ---------------------------------------------------------------------------

  /** A match of `s=([^&]+)` may start at `i`. */
  predicate SlugStartsAt(href: string, i: int) {
    0 <= i && i + 2 < |href| && href[i] == 's' && href[i + 1] == '=' && href[i + 2] != '&'
  }

  /** The end of the run of non-'&' characters that starts at `from`. */
  function RunEnd(s: string, from: nat): (e: nat)
    requires from <= |s|
    ensures from <= e <= |s|
    ensures forall k :: from <= k < e ==> s[k] != '&'
    ensures e == |s| || s[e] == '&'
    decreases |s| - from
  {
    if from == |s| || s[from] == '&' then from else RunEnd(s, from + 1)
  }

  /** The leftmost match start at or after `from`. */
  function FirstSlugStart(href: string, from: nat): (r: Option<nat>)
    requires from <= |href|
    ensures r.None? <==> forall i :: from <= i ==> !SlugStartsAt(href, i)
    ensures r.Some? ==> from <= r.value && SlugStartsAt(href, r.value)
    ensures r.Some? ==> forall i :: from <= i < r.value ==> !SlugStartsAt(href, i)
    decreases |href| - from
  {
    if from + 2 >= |href| then None
    else if SlugStartsAt(href, from) then Some(from)
    else FirstSlugStart(href, from + 1)
  }

  /** The slug of a link: the leftmost `s=` followed by a maximal non-empty run
      of characters other than '&', as the regular-expression search finds it. */
  function ExtractSlug(href: string): (r: Option<string>)
    ensures r.Some? ==> r.value != [] && '&' !in r.value
  {
    match FirstSlugStart(href, 0)
    case None => None
    case Some(i) =>
      var e := RunEnd(href, i + 2);
      Some(href[i + 2..e])
  }

  /** `slug` is what the search reports for a match starting at `i`: no
      earlier match start, and the maximal run of non-'&' characters after
      "s=". */
  predicate LeftmostSlug(href: string, i: int, slug: string) {
    && SlugStartsAt(href, i)
    && (forall j :: 0 <= j < i ==> !SlugStartsAt(href, j))
    && i + 2 + |slug| <= |href|
    && href[i + 2..i + 2 + |slug|] == slug
    && (i + 2 + |slug| == |href| || href[i + 2 + |slug|] == '&')
  }

  /** ExtractSlug finds a slug exactly when the pattern matches somewhere,
      and then it is the maximal run after the leftmost match start. */
  lemma ExtractSlugIsLeftmostMatch(href: string)
    ensures ExtractSlug(href).None? <==> forall i :: !SlugStartsAt(href, i)
    ensures ExtractSlug(href).Some? ==> exists i :: LeftmostSlug(href, i, ExtractSlug(href).value)
  {
    match FirstSlugStart(href, 0)
    case None =>
      assert ExtractSlug(href) == None;
    case Some(i) =>
      var e := RunEnd(href, i + 2);
      var slug := href[i + 2..e];
      assert ExtractSlug(href) == Some(slug);
      assert i + 2 + |slug| == e;
      assert LeftmostSlug(href, i, slug);
  }

  // ---------------------------------------------------------------------------
  // DepthChartParser
  // ---------------------------------------------------------------------------

  /** The parser's fields (the debug flag only controls logging). */
  datatype LinkState = LinkState(
    teams: seq<TeamEntry>,
    currentLink: Option<string>,
    pendingTeamName: Option<string>,
    inTeamName: bool,
    tagCount: nat,
    textCount: nat)

  /** The state of a newly constructed parser. */
  const Fresh: LinkState := LinkState([], None, None, false, 0, 0)

  /** The state a handler leaves, and whether it raised a TypeError (a
      value-less `href` or `class` attribute looked up with `in`). */
  datatype Step = Step(state: LinkState, raised: bool)

  predicate IsDepthChartHref(href: string) {
    Contains(href, "depth-chart.aspx") && Contains(href, "s=")
  }

  predicate IsTeamNameClass(cls: string) {
    Contains(cls, "team-name") || Contains(cls, "mm-team-name")
  }

  /** A link carrying `slug` was seen: remember it, and pair it with the
      buffered team name if there is one. */
  function PairWithLink(st: LinkState, slug: string): LinkState {
    var linked := st.(currentLink := Some(slug));
    if Truthy(st.pendingTeamName) then
      linked.(teams := st.teams + [TeamEntry(st.pendingTeamName.value, slug)], pendingTeamName := None)
    else linked
  }

  /** The anchor half of handle_starttag: a depth-chart link's slug becomes
      the current link and is paired with the pending name. */
  function FollowLink(st: LinkState, tag: string, href: Option<Option<string>>): LinkState {
    if tag == "a" && href.Some? && href.value.Some? && IsDepthChartHref(href.value.value)
       && ExtractSlug(href.value.value).Some?
    then PairWithLink(st, ExtractSlug(href.value.value).value)
    else st
  }

  /** handle_starttag. */
  function OnStartTag(st: LinkState, tag: string, attrs: seq<Attr>): Step {
    var counted := st.(tagCount := st.tagCount + 1);
    var href := LastValue(attrs, "href");
    if tag == "a" && href == Some(None) then Step(counted, true)
    else
      var linked := FollowLink(counted, tag, href);
      var cls := LastValue(attrs, "class");
      if tag == "div" && cls == Some(None) then Step(linked, true)
      else if tag == "div" && cls.Some? && IsTeamNameClass(cls.value.value) then
        Step(linked.(inTeamName := true), false)
      else Step(linked, false)
  }

  /** handle_data: blank text is ignored; other text is counted and, inside a
      team-name div, buffered as the pending team name (once per div). */
  function OnData(st: LinkState, data: string): LinkState {
    var text := Strip(data);
    if text == "" then st
    else if st.inTeamName then
      st.(textCount := st.textCount + 1, pendingTeamName := Some(text), inTeamName := false)
    else st.(textCount := st.textCount + 1)
  }

  /** handle_endtag: a closing div ends the team-name context; the buffered
      name stays pending. */
  function OnEndTag(st: LinkState, tag: string): LinkState {
    if tag == "div" then st.(inTeamName := false) else st
  }

  function OnEvent(st: LinkState, e: Event): Step {
    match e
    case Start(tag, attrs) => OnStartTag(st, tag, attrs)
    case Data(text) => Step(OnData(st, text), false)
    case End(tag) => Step(OnEndTag(st, tag), false)
  }

  /** parser.feed: the handlers run in document order until one raises. */
  function Run(st: LinkState, events: seq<Event>): Step
    decreases |events|
  {
    if events == [] then Step(st, false)
    else
      var step := OnEvent(st, events[0]);
      if step.raised then step else Run(step.state, events[1..])
  }

  class DepthChartParser {
    var teams: seq<TeamEntry>
    var currentLink: Option<string>
    var pendingTeamName: Option<string>
    var inTeamName: bool
    var tagCount: nat
    var textCount: nat

    function State(): LinkState
      reads this
    {
      LinkState(teams, currentLink, pendingTeamName, inTeamName, tagCount, textCount)
    }

    constructor()
      ensures State() == Fresh
    {
      teams := [];
      currentLink := None;
      pendingTeamName := None;
      inTeamName := false;
      tagCount := 0;
      textCount := 0;
    }

    method HandleStartTag(tag: string, attrs: seq<Attr>) returns (raised: bool)
      modifies this
      ensures Step(State(), raised) == OnStartTag(old(State()), tag, attrs)
    {
      tagCount := tagCount + 1;
      ghost var counted := State();
      assert counted == old(State()).(tagCount := old(State()).tagCount + 1);
      var href := LastValue(attrs, "href");
      if tag == "a" && href == Some(None) {
        return true;
      }
      FollowLinkIn(tag, href);
      ghost var linked := State();
      assert linked == FollowLink(counted, tag, href);
      raised := false;
      var cls := LastValue(attrs, "class");
      if tag == "div" && cls.Some? {
        if cls.value.None? {
          return true;
        }
        if IsTeamNameClass(cls.value.value) {
          inTeamName := true;
          assert State() == linked.(inTeamName := true);
        }
      }
    }

    /** The anchor half of handle_starttag, for an `href` that does not raise. */
    method FollowLinkIn(tag: string, href: Option<Option<string>>)
      requires !(tag == "a" && href == Some(None))
      modifies this
      ensures State() == FollowLink(old(State()), tag, href)
    {
      if tag == "a" && href.Some? {
        var h := href.value.value;
        if IsDepthChartHref(h) {
          var slug := ExtractSlug(h);
          if slug.Some? {
            currentLink := slug;
            if pendingTeamName.Some? && pendingTeamName.value != "" {
              teams := teams + [TeamEntry(pendingTeamName.value, slug.value)];
              pendingTeamName := None;
            }
          }
        }
      }
    }

    method HandleData(data: string)
      modifies this
      ensures State() == OnData(old(State()), data)
    {
      var text := Strip(data);
      if text == "" {
        return;
      }
      textCount := textCount + 1;
      if inTeamName {
        pendingTeamName := Some(text);
        inTeamName := false;
      }
    }

    method HandleEndTag(tag: string)
      modifies this
      ensures State() == OnEndTag(old(State()), tag)
    {
      if tag == "div" {
        inTeamName := false;
      }
    }

    /** Feeds the event stream; `ok` is false when a handler raised. */
    method Feed(events: seq<Event>) returns (ok: bool)
      modifies this
      ensures Step(State(), !ok) == Run(old(State()), events)
    {
      var i := 0;
      while i < |events|
        invariant 0 <= i <= |events|
        invariant Run(old(State()), events) == Run(State(), events[i..])
      {
        ghost var st := State();
        assert events[i..][1..] == events[i + 1..] && events[i..][0] == events[i];
        assert Run(st, events[i..]) == (if OnEvent(st, events[i]).raised then OnEvent(st, events[i])
                                         else Run(OnEvent(st, events[i]).state, events[i + 1..]));
        var raised := false;
        match events[i] {
          case Start(tag, attrs) => raised := HandleStartTag(tag, attrs);
          case Data(text) => HandleData(text);
          case End(tag) => HandleEndTag(tag);
        }
        assert Step(State(), raised) == OnEvent(st, events[i]);
        if raised {
          return false;
        }
        i := i + 1;
      }
      return true;
    }
  }

  // ---------------------------------------------------------------------------
  // What the parser promises
  // ---------------------------------------------------------------------------

  /** Every stored team has a name and a slug. */
  predicate AllComplete(teams: seq<TeamEntry>) {
    forall k :: 0 <= k < |teams| ==> teams[k].team != "" && teams[k].slug != ""
  }

  /** One start tag stores at most one team: the buffered name paired with the
      slug of this very link, after which nothing is pending. Earlier teams are
      kept as they were. */
  lemma StartTagPairsAtMostOnce(st: LinkState, tag: string, attrs: seq<Attr>)
    ensures var s := OnStartTag(st, tag, attrs).state;
      && s.teams[..|st.teams|] == st.teams
      && |st.teams| <= |s.teams| <= |st.teams| + 1
      && (|s.teams| == |st.teams| + 1 ==>
            && tag == "a" && Truthy(st.pendingTeamName)
            && LastValue(attrs, "href").Some? && LastValue(attrs, "href").value.Some?
            && s.teams[|st.teams|] == TeamEntry(st.pendingTeamName.value,
                                                ExtractSlug(LastValue(attrs, "href").value.value).value)
            && s.pendingTeamName.None?)
  {
  }

  /** Text inside a team-name div is buffered only once: the first non-blank
      text becomes the pending name and closes the context, so later text of
      the same div leaves the pending name alone. */
  lemma TeamNameBufferedOnce(st: LinkState, first: string, later: string)
    requires st.inTeamName && Strip(first) != ""
    ensures OnData(st, first).pendingTeamName == Some(Strip(first))
    ensures OnData(OnData(st, first), later).pendingTeamName == Some(Strip(first))
  {
  }

  /** A name that finds no link before the next team-name div is replaced by
      that div's text. */
  lemma PendingNameOverwritten(st: LinkState, name: string)
    requires st.inTeamName && Strip(name) != ""
    ensures OnData(st, name).pendingTeamName == Some(Strip(name))
    ensures OnData(st, name).teams == st.teams
  {
  }

  /** Closing the div leaves the buffered name pending for the next link. */
  lemma EndTagKeepsPending(st: LinkState, tag: string)
    ensures OnEndTag(st, tag).pendingTeamName == st.pendingTeamName
    ensures OnEndTag(st, tag).teams == st.teams
    ensures !OnEndTag(st, "div").inTeamName
  {
  }

  /** A depth-chart link whose href holds a slug is followed: the handler does
      not raise, the slug becomes the current link, and a pending name is
      paired with it and cleared. Without a pending name the teams stay as
      they were. */
  lemma AnchorPairs(st: LinkState, attrs: seq<Attr>, h: string)
    requires LastValue(attrs, "href") == Some(Some(h))
    requires IsDepthChartHref(h) && ExtractSlug(h).Some?
    ensures var r := OnStartTag(st, "a", attrs);
      && !r.raised
      && r.state.currentLink == ExtractSlug(h)
      && r.state.inTeamName == st.inTeamName
      && (Truthy(st.pendingTeamName) ==>
            && r.state.teams == st.teams + [TeamEntry(st.pendingTeamName.value, ExtractSlug(h).value)]
            && r.state.pendingTeamName.None?)
      && (!Truthy(st.pendingTeamName) ==>
            r.state.teams == st.teams && r.state.pendingTeamName == st.pendingTeamName)
  {
  }

  /** Any other anchor with a valued or missing href only counts the tag. */
  lemma OtherAnchorIgnored(st: LinkState, attrs: seq<Attr>)
    requires LastValue(attrs, "href") != Some(None)
    requires LastValue(attrs, "href").Some? ==>
               !IsDepthChartHref(LastValue(attrs, "href").value.value)
               || ExtractSlug(LastValue(attrs, "href").value.value).None?
    ensures OnStartTag(st, "a", attrs) == Step(st.(tagCount := st.tagCount + 1), false)
  {
  }

  /** A div whose class names a team opens the team-name context, and changes
      nothing else but the tag count. */
  lemma TeamNameDivOpens(st: LinkState, attrs: seq<Attr>, cls: string)
    requires LastValue(attrs, "class") == Some(Some(cls)) && IsTeamNameClass(cls)
    ensures OnStartTag(st, "div", attrs) == Step(st.(tagCount := st.tagCount + 1, inTeamName := true), false)
  {
  }

  /** Feeding two streams one after the other is feeding their concatenation,
      unless the first one raises. */
  lemma {:induction false} RunConcat(st: LinkState, a: seq<Event>, b: seq<Event>)
    ensures Run(st, a + b) == if Run(st, a).raised then Run(st, a) else Run(Run(st, a).state, b)
    decreases |a|
  {
    if a == [] {
      assert a + b == b;
    } else {
      assert (a + b)[0] == a[0] && (a + b)[1..] == a[1..] + b;
      var step := OnEvent(st, a[0]);
      if !step.raised {
        RunConcat(step.state, a[1..], b);
      }
    }
  }

  /** The markup of one team on the landing page: a team-name div holding
      the name, then the team's depth-chart link. */
  function TeamMarkup(name: string, cls: string, href: string): seq<Event> {
    [Start("div", [("class", Some(cls))])] + ([Data(name)] + ([End("div")] + [Start("a", [("href", Some(href))])]))
  }

  /** A team's markup stores exactly that team: the stripped name with the
      link's slug, leaving no name pending. */
  lemma TeamMarkupPairs(st: LinkState, name: string, cls: string, href: string)
    requires IsTeamNameClass(cls) && Strip(name) != ""
    requires IsDepthChartHref(href) && ExtractSlug(href).Some?
    ensures var r := Run(st, TeamMarkup(name, cls, href));
      && !r.raised
      && r.state.teams == st.teams + [TeamEntry(Strip(name), ExtractSlug(href).value)]
      && r.state.pendingTeamName.None?
      && !r.state.inTeamName
  {
    var divAttrs: seq<Attr> := [("class", Some(cls))];
    var linkAttrs: seq<Attr> := [("href", Some(href))];
    var name1, link1 := Data(name), Start("a", linkAttrs);
    LastValueOfOne("class", Some(cls));
    LastValueOfOne("href", Some(href));
    TeamNameDivOpens(st, divAttrs, cls);
    var s1 := st.(tagCount := st.tagCount + 1, inTeamName := true);
    var s2 := s1.(textCount := s1.textCount + 1, pendingTeamName := Some(Strip(name)), inTeamName := false);
    AnchorPairs(s2, linkAttrs, href);
    assert OnEvent(st, Start("div", divAttrs)) == Step(s1, false);
    assert OnEvent(s1, name1) == Step(s2, false);
    assert OnEvent(s2, End("div")) == Step(s2, false);
    var r := OnEvent(s2, link1);
    assert !r.raised;
    RunCons(s2, link1, []);
    assert [link1] + [] == [link1];
    assert Run(s2, [link1]) == r;
    RunCons(s2, End("div"), [link1]);
    assert Run(s2, [End("div")] + [link1]) == r;
    RunCons(s1, name1, [End("div")] + [link1]);
    assert Run(s1, [name1] + ([End("div")] + [link1])) == r;
    RunCons(st, Start("div", divAttrs), [name1] + ([End("div")] + [link1]));
  }

  /** Feeding one event and then the rest. */
  lemma RunCons(st: LinkState, e: Event, rest: seq<Event>)
    ensures Run(st, [e] + rest) == if OnEvent(st, e).raised then OnEvent(st, e) else Run(OnEvent(st, e).state, rest)
  {
    assert ([e] + rest)[1..] == rest;
  }

  /** Two teams in a row are both paired, in document order. */
  lemma TwoTeamsParsed(n1: string, c1: string, h1: string, n2: string, c2: string, h2: string)
    requires IsTeamNameClass(c1) && Strip(n1) != "" && IsDepthChartHref(h1) && ExtractSlug(h1).Some?
    requires IsTeamNameClass(c2) && Strip(n2) != "" && IsDepthChartHref(h2) && ExtractSlug(h2).Some?
    ensures var r := Run(Fresh, TeamMarkup(n1, c1, h1) + TeamMarkup(n2, c2, h2));
      && !r.raised
      && r.state.teams == [TeamEntry(Strip(n1), ExtractSlug(h1).value), TeamEntry(Strip(n2), ExtractSlug(h2).value)]
  {
    var a, b := TeamMarkup(n1, c1, h1), TeamMarkup(n2, c2, h2);
    TeamMarkupPairs(Fresh, n1, c1, h1);
    TeamMarkupPairs(Run(Fresh, a).state, n2, c2, h2);
    RunConcat(Fresh, a, b);
  }

  /** Two teams in a row: the scrape keeps both, or only the first when
      their links carry the same slug. */
  lemma TwoTeamsScraped(n1: string, c1: string, h1: string, n2: string, c2: string, h2: string)
    requires IsTeamNameClass(c1) && Strip(n1) != "" && IsDepthChartHref(h1) && ExtractSlug(h1).Some?
    requires IsTeamNameClass(c2) && Strip(n2) != "" && IsDepthChartHref(h2) && ExtractSlug(h2).Some?
    ensures var t1 := TeamEntry(Strip(n1), ExtractSlug(h1).value);
      var t2 := TeamEntry(Strip(n2), ExtractSlug(h2).value);
      ScrapedTeams(TeamMarkup(n1, c1, h1) + TeamMarkup(n2, c2, h2)) == if t1.slug == t2.slug then [t1] else [t1, t2]
  {
    var t1 := TeamEntry(Strip(n1), ExtractSlug(h1).value);
    var t2 := TeamEntry(Strip(n2), ExtractSlug(h2).value);
    TwoTeamsParsed(n1, c1, h1, n2, c2, h2);
    ScrapedPair(TeamMarkup(n1, c1, h1) + TeamMarkup(n2, c2, h2), t1, t2);
  }

  /** One handler only appends teams, every one of them complete, and at
      most one for an anchor start tag. */
  lemma OnEventAppendsComplete(st: LinkState, e: Event)
    requires AllComplete(st.teams)
    ensures var s := OnEvent(st, e).state;
      && |st.teams| <= |s.teams|
      && s.teams[..|st.teams|] == st.teams
      && AllComplete(s.teams)
      && |s.teams| - |st.teams| <= (if e.Start? && e.tag == "a" then 1 else 0)
  {
    match e
    case Start(tag, attrs) =>
      StartTagAppendsComplete(st, tag, attrs);
    case Data(text) =>
      assert OnEvent(st, e).state.teams == st.teams;
    case End(tag) =>
      assert OnEvent(st, e).state.teams == st.teams;
  }

  /** A start tag only appends teams, each complete, and at most one, and
      only when the tag is an anchor. */
  lemma StartTagAppendsComplete(st: LinkState, tag: string, attrs: seq<Attr>)
    requires AllComplete(st.teams)
    ensures var s := OnStartTag(st, tag, attrs).state;
      && |st.teams| <= |s.teams|
      && s.teams[..|st.teams|] == st.teams
      && AllComplete(s.teams)
      && |s.teams| - |st.teams| <= (if tag == "a" then 1 else 0)
  {
    StartTagPairsAtMostOnce(st, tag, attrs);
    var s := OnStartTag(st, tag, attrs).state;
    if |s.teams| == |st.teams| + 1 {
      assert s.teams == st.teams + [s.teams[|st.teams|]];
      assert IsComplete(s.teams[|st.teams|]);
    }
  }

  /** Feeding only appends teams, every one of them complete, and never more
      than one per anchor start tag. */
  lemma {:induction false} RunAppendsCompleteTeams(st: LinkState, events: seq<Event>)
    requires AllComplete(st.teams)
    ensures var s := Run(st, events).state;
      && |st.teams| <= |s.teams|
      && s.teams[..|st.teams|] == st.teams
      && AllComplete(s.teams)
      && |s.teams| - |st.teams| <= CountStartsOf(events, "a")
    decreases |events|
  {
    if events != [] {
      var step := OnEvent(st, events[0]);
      OnEventAppendsComplete(st, events[0]);
      if !step.raised {
        RunAppendsCompleteTeams(step.state, events[1..]);
        var s := Run(step.state, events[1..]).state;
        assert s.teams[..|st.teams|] == s.teams[..|step.state.teams|][..|st.teams|];
      }
    }
  }

  /** A handler that does not raise counts its own event. */
  lemma OnEventCounts(st: LinkState, e: Event)
    requires !OnEvent(st, e).raised
    ensures OnEvent(st, e).state.tagCount == st.tagCount + (if e.Start? then 1 else 0)
    ensures OnEvent(st, e).state.textCount == st.textCount + (if e.Data? && Strip(e.text) != "" then 1 else 0)
  {
  }

  /** When no handler raises, the counters count the start tags and the
      non-blank text nodes of the stream. */
  lemma {:induction false} RunCounts(st: LinkState, events: seq<Event>)
    requires !Run(st, events).raised
    ensures Run(st, events).state.tagCount == st.tagCount + CountStarts(events)
    ensures Run(st, events).state.textCount == st.textCount + CountTexts(events)
    decreases |events|
  {
    if events != [] {
      var step := OnEvent(st, events[0]);
      assert !step.raised;
      OnEventCounts(st, events[0]);
      RunCounts(step.state, events[1..]);
    }
  }

  // ---------------------------------------------------------------------------
  // Duplicate removal by slug
  // ---------------------------------------------------------------------------

  function SlugsOf(teams: seq<TeamEntry>): set<string> {
    set k | 0 <= k < |teams| :: teams[k].slug
  }

  /** Of two entries the second is kept only when its slug differs. */
  lemma FirstPerSlugOfTwo(t1: TeamEntry, t2: TeamEntry)
    ensures FirstPerSlug([t1, t2]) == if t1.slug == t2.slug then [t1] else [t1, t2]
  {
    assert [t1, t2][..1] == [t1] && [t1][..0] == [];
    assert SlugsOf([t1]) == {t1.slug} by {
      SlugsOfSnoc([], t1);
      assert [] + [t1] == [t1];
    }
    assert FirstPerSlug([t1]) == [t1];
  }

  /** No two entries share a slug. */
  predicate DistinctSlugs(teams: seq<TeamEntry>) {
    forall i, j :: 0 <= i < j < |teams| ==> teams[i].slug != teams[j].slug
  }

  /** Entry `i` is the first one with its slug. */
  predicate FirstOfSlug(teams: seq<TeamEntry>, i: int) {
    0 <= i < |teams| && forall j :: 0 <= j < i ==> teams[j].slug != teams[i].slug
  }

  lemma SlugsOfSnoc(teams: seq<TeamEntry>, e: TeamEntry)
    ensures SlugsOf(teams + [e]) == SlugsOf(teams) + {e.slug}
  {
    var t := teams + [e];
    forall s | s in SlugsOf(t) ensures s in SlugsOf(teams) + {e.slug} {
      var k :| 0 <= k < |t| && t[k].slug == s;
      if k < |teams| { assert teams[k].slug == s; }
    }
    forall s | s in SlugsOf(teams) ensures s in SlugsOf(t) {
      var k :| 0 <= k < |teams| && teams[k].slug == s;
      assert t[k].slug == s;
    }
    assert t[|teams|].slug == e.slug;
  }

  /** The entries that survive the seen-slugs loop: the first entry of every
      slug, in the original order. */
  function FirstPerSlug(teams: seq<TeamEntry>): (r: seq<TeamEntry>)
    ensures SlugsOf(r) == SlugsOf(teams)
    ensures DistinctSlugs(r)
    ensures |r| == |SlugsOf(teams)|
    decreases |teams|
  {
    if teams == [] then []
    else
      var init, e := teams[..|teams| - 1], teams[|teams| - 1];
      var kept := FirstPerSlug(init);
      assert teams == init + [e];
      SlugsOfSnoc(init, e);
      if e.slug in SlugsOf(kept) then kept
      else
        SlugsOfSnoc(kept, e);
        DistinctSlugsSnoc(kept, e);
        kept + [e]
  }

  lemma DistinctSlugsSnoc(teams: seq<TeamEntry>, e: TeamEntry)
    requires DistinctSlugs(teams) && e.slug !in SlugsOf(teams)
    ensures DistinctSlugs(teams + [e])
  {
    var t := teams + [e];
    forall i, j | 0 <= i < j < |t| ensures t[i].slug != t[j].slug {
      assert t[i] == teams[i];
      if j < |teams| {
        assert t[j] == teams[j];
      } else {
        assert teams[i].slug in SlugsOf(teams);
      }
    }
  }

  /** The survivors keep their original relative order. */
  lemma {:induction false} FirstPerSlugIsSubsequence(teams: seq<TeamEntry>)
    ensures IsSubsequence(FirstPerSlug(teams), teams)
    decreases |teams|
  {
    if teams != [] {
      var init, e := teams[..|teams| - 1], teams[|teams| - 1];
      assert teams == init + [e];
      FirstPerSlugIsSubsequence(init);
      if e.slug in SlugsOf(FirstPerSlug(init)) {
        SubsequenceExtend(FirstPerSlug(init), init, e);
      } else {
        SubsequenceSnoc(FirstPerSlug(init), init, e);
      }
    }
  }

  /** Appending an entry leaves the first-of-slug status of earlier entries
      unchanged, and the new one is first exactly when its slug is new. */
  lemma FirstOfSlugSnoc(init: seq<TeamEntry>, e: TeamEntry)
    ensures forall i :: 0 <= i < |init| ==> (FirstOfSlug(init + [e], i) <==> FirstOfSlug(init, i))
    ensures FirstOfSlug(init + [e], |init|) <==> e.slug !in SlugsOf(init)
  {
    var t := init + [e];
    assert forall i :: 0 <= i < |init| ==> t[i] == init[i];
    if e.slug in SlugsOf(init) {
      var j :| 0 <= j < |init| && init[j].slug == e.slug;
      assert t[j].slug == e.slug;
    }
  }

  /** Every survivor is the first entry of its slug. */
  lemma {:induction false} FirstPerSlugOnlyFirsts(teams: seq<TeamEntry>)
    ensures forall k :: 0 <= k < |FirstPerSlug(teams)| ==>
              exists i :: FirstOfSlug(teams, i) && teams[i] == FirstPerSlug(teams)[k]
    decreases |teams|
  {
    if teams != [] {
      var init, e := teams[..|teams| - 1], teams[|teams| - 1];
      assert teams == init + [e];
      FirstPerSlugOnlyFirsts(init);
      FirstOfSlugSnoc(init, e);
      var kept := FirstPerSlug(init);
      var r := FirstPerSlug(teams);
      forall k | 0 <= k < |r|
        ensures exists i :: FirstOfSlug(teams, i) && teams[i] == r[k]
      {
        if k < |kept| {
          assert r[k] == kept[k];
          var i :| FirstOfSlug(init, i) && init[i] == kept[k];
          assert teams[i] == init[i];
        } else {
          assert FirstOfSlug(teams, |init|) && teams[|init|] == r[k];
        }
      }
    } else {
      assert FirstPerSlug(teams) == [];
    }
  }

  /** The first entry of every slug survives. */
  lemma {:induction false} FirstPerSlugAllFirsts(teams: seq<TeamEntry>)
    ensures forall i :: FirstOfSlug(teams, i) ==> teams[i] in FirstPerSlug(teams)
    decreases |teams|
  {
    if teams != [] {
      var init, e := teams[..|teams| - 1], teams[|teams| - 1];
      assert teams == init + [e];
      FirstPerSlugAllFirsts(init);
      FirstOfSlugSnoc(init, e);
      forall i | FirstOfSlug(teams, i) ensures teams[i] in FirstPerSlug(teams) {
        if i < |init| {
          assert teams[i] == init[i];
        }
      }
    }
  }

  /** The seen-slugs loop of scrape_depth_chart. */
  method DedupBySlug(teams: seq<TeamEntry>) returns (unique: seq<TeamEntry>)
    ensures unique == FirstPerSlug(teams)
  {
    var seen: set<string> := {};
    unique := [];
    for i := 0 to |teams|
      invariant unique == FirstPerSlug(teams[..i])
      invariant seen == SlugsOf(unique)
    {
      assert teams[..i + 1] == teams[..i] + [teams[i]];
      assert teams[..i + 1][..i] == teams[..i];
      if teams[i].slug !in seen {
        SlugsOfSnoc(unique, teams[i]);
        unique := unique + [teams[i]];
        seen := seen + {teams[i].slug};
      }
    }
    assert teams[..|teams|] == teams;
  }

  // ---------------------------------------------------------------------------
  // DepthChartScraper
  // ---------------------------------------------------------------------------

  /** _verify_url: only the whitelisted URL passes. */
  function VerifyUrl(url: string): (ok: bool)
    ensures ok <==> url == AllowedUrl
  {
    url == AllowedUrl
  }

  predicate IsComplete(t: TeamEntry) {
    t.team != "" && t.slug != ""
  }

  /** The teams scrape_depth_chart returns for a fetched page's event stream:
      nothing if a handler raised or no team was found, otherwise the first
      entry per slug, without entries lacking a name or a slug. */
  function ScrapedTeams(events: seq<Event>): seq<TeamEntry> {
    var outcome := Run(Fresh, events);
    if outcome.raised || outcome.state.teams == [] then []
    else Filter(FirstPerSlug(outcome.state.teams), IsComplete)
  }

  /** A stream that parses without raising into two complete entries is
      scraped as both, or as the first when they share a slug. */
  lemma ScrapedPair(events: seq<Event>, t1: TeamEntry, t2: TeamEntry)
    requires !Run(Fresh, events).raised && Run(Fresh, events).state.teams == [t1, t2]
    requires IsComplete(t1) && IsComplete(t2)
    ensures ScrapedTeams(events) == if t1.slug == t2.slug then [t1] else [t1, t2]
  {
    FirstPerSlugOfTwo(t1, t2);
    FilterAll(FirstPerSlug([t1, t2]), IsComplete);
  }

  /** The whole scrape: URL default and whitelist, connection check, fetch
      with retries, and parsing of a non-empty page. */
  function Scrape(url: Option<string>, connectionOk: bool,
                  attempt: nat -> Fetching.Attempt, tokenize: string -> seq<Event>): seq<TeamEntry>
  {
    var target := if url.Some? then url.value else AllowedUrl;
    if !VerifyUrl(target) || !connectionOk then []
    else
      var page := Fetching.Retry(MaxRetries, attempt, 0).0;
      if page.None? || page.value == "" then [] else ScrapedTeams(tokenize(page.value))
  }

  /** The scraped teams have distinct slugs, a name and a slug each, appear
      in the parser's order, and are exactly one per distinct slug the parser
      stored; the validation filter never removes anything. */
  lemma ScrapedTeamsProperties(events: seq<Event>)
    ensures var r := ScrapedTeams(events);
      var outcome := Run(Fresh, events);
      && DistinctSlugs(r)
      && AllComplete(r)
      && (outcome.raised ==> r == [])
      && (!outcome.raised ==> r == FirstPerSlug(outcome.state.teams))
      && (!outcome.raised ==> IsSubsequence(r, outcome.state.teams))
      && (!outcome.raised ==> |r| == |SlugsOf(outcome.state.teams)|)
  {
    var outcome := Run(Fresh, events);
    RunAppendsCompleteTeams(Fresh, events);
    if !outcome.raised {
      var teams := outcome.state.teams;
      FirstPerSlugComplete(teams);
      FirstPerSlugIsSubsequence(teams);
      if teams == [] {
        assert FirstPerSlug(teams) == [];
      }
    }
  }

  /** The first entries per slug of complete entries are complete, so the
      completeness filter keeps them all. */
  lemma FirstPerSlugComplete(teams: seq<TeamEntry>)
    requires AllComplete(teams)
    ensures Filter(FirstPerSlug(teams), IsComplete) == FirstPerSlug(teams)
    ensures AllComplete(FirstPerSlug(teams))
  {
    var u := FirstPerSlug(teams);
    FirstPerSlugOnlyFirsts(teams);
    forall k | 0 <= k < |u| ensures IsComplete(u[k]) {
      var i :| FirstOfSlug(teams, i) && teams[i] == u[k];
      assert teams[i].team != "" && teams[i].slug != "";
    }
    FilterAll(u, IsComplete);
  }

  /** A URL other than the whitelisted one yields no teams, whatever the
      network does. */
  lemma DisallowedUrlYieldsNothing(url: string, connectionOk: bool,
                                   attempt: nat -> Fetching.Attempt, tokenize: string -> seq<Event>)
    requires url != AllowedUrl
    ensures Scrape(Some(url), connectionOk, attempt, tokenize) == []
  {
  }

  /** fetch_html: whitelist, connection check, then the retry loop. */
  method FetchHtml(url: string, connectionOk: bool, attempt: nat -> Fetching.Attempt)
    returns (content: Option<string>, attempts: nat)
    ensures !VerifyUrl(url) || !connectionOk ==> content.None? && attempts == 0
    ensures VerifyUrl(url) && connectionOk ==>
              (content, attempts) == Fetching.Retry(MaxRetries, attempt, 0)
              && Fetching.FetchOutcome(MaxRetries, attempt, content, attempts)
  {
    if !VerifyUrl(url) || !connectionOk {
      return None, 0;
    }
    content, attempts := Fetching.RetryFetch(MaxRetries, attempt);
  }

  /** Parsing half of scrape_depth_chart (the try block). */
  method ParseTeams(html: string, tokenize: string -> seq<Event>) returns (teams: seq<TeamEntry>)
    ensures teams == ScrapedTeams(tokenize(html))
  {
    var parser := new DepthChartParser();
    var ok := parser.Feed(tokenize(html));
    if !ok || |parser.teams| == 0 {
      return [];
    }
    var unique := DedupBySlug(parser.teams);
    teams := Filter(unique, IsComplete);
  }

  /** scrape_depth_chart; `url` None stands for the default argument. */
  method ScrapeDepthChart(url: Option<string>, connectionOk: bool,
                          attempt: nat -> Fetching.Attempt, tokenize: string -> seq<Event>)
    returns (teams: seq<TeamEntry>)
    ensures teams == Scrape(url, connectionOk, attempt, tokenize)
    ensures url.Some? && url.value != AllowedUrl ==> teams == []
    ensures DistinctSlugs(teams) && AllComplete(teams)
  {
    var target := if url.Some? then url.value else AllowedUrl;
    var html, _ := FetchHtml(target, connectionOk, attempt);
    if html.None? || html.value == "" {
      return [];
    }
    teams := ParseTeams(html.value, tokenize);
    ScrapedTeamsProperties(tokenize(html.value));
  }

  // ---------------------------------------------------------------------------
  // export_to_csv
  // ---------------------------------------------------------------------------

  /** A dictionary's items in insertion order. */
  type Dict = seq<(string, string)>

  /** An element of the list handed to export_to_csv. */
  datatype Entry = Record(fields: Dict) | NotARecord

  /** list(d.keys()): each key once, in first-insertion order. */
  function Keys(d: Dict): (r: seq<string>)
    ensures forall i, j :: 0 <= i < j < |r| ==> r[i] != r[j]
    ensures forall k :: k in r <==> exists i :: 0 <= i < |d| && d[i].0 == k
    decreases |d|
  {
    if d == [] then []
    else
      var init := Keys(d[..|d| - 1]);
      assert forall i :: 0 <= i < |d| - 1 ==> d[..|d| - 1][i] == d[i];
      if d[|d| - 1].0 in init then init else init + [d[|d| - 1].0]
  }

  /** A dictionary entry with a 'team' key passes validation. */
  predicate HasTeam(e: Entry) {
    e.Record? && LastValue(e.fields, "team").Some?
  }

  /** The CSV columns, chosen from the first valid entry. */
  function FieldNames(sample: Dict): seq<string> {
    if LastValue(sample, "slug").Some? then ["team", "slug"]
    else if LastValue(sample, "player").Some? && LastValue(sample, "position").Some? then
      ["team", "player", "position"]
    else Keys(sample)
  }

  /** DictWriter's row: each column's value, or '' when the key is missing;
      other keys are ignored. */
  function CsvRow(fieldnames: seq<string>, d: Dict): (row: seq<string>)
    ensures |row| == |fieldnames|
    ensures forall j :: 0 <= j < |fieldnames| ==>
              (LastValue(d, fieldnames[j]).Some? ==> row[j] == LastValue(d, fieldnames[j]).value)
              && (LastValue(d, fieldnames[j]).None? ==> row[j] == "")
  {
    seq(|fieldnames|, j requires 0 <= j < |fieldnames| =>
      match LastValue(d, fieldnames[j]) case Some(v) => v case None => "")
  }

  /** The file written for the validated entries. */
  function TableOf(valid: seq<Entry>): CsvTable
    requires valid != [] && forall k :: 0 <= k < |valid| ==> valid[k].Record?
  {
    var fieldnames := FieldNames(valid[0].fields);
    CsvTable(fieldnames, seq(|valid|, k requires 0 <= k < |valid| => CsvRow(fieldnames, valid[k].fields)))
  }

  /** export_to_csv: `written` is the table written to the file, None when
      the call returns False; `writeOk` is whether opening and writing the
      file succeeds. */
  method ExportToCsv(data: seq<Entry>, writeOk: bool) returns (written: Option<CsvTable>)
    ensures written.Some? <==> writeOk && exists i :: 0 <= i < |data| && HasTeam(data[i])
    ensures written.Some? ==> Filter(data, HasTeam) != []
                              && written.value == TableOf(Filter(data, HasTeam))
  {
    if data == [] {
      return None;
    }
    var valid: seq<Entry> := [];
    for i := 0 to |data|
      invariant valid == Filter(data[..i], HasTeam)
    {
      FilterPrefixStep(data, i, HasTeam);
      if HasTeam(data[i]) {
        valid := valid + [data[i]];
      }
    }
    assert data[..|data|] == data;
    FilterNonEmpty(data, HasTeam);
    if valid == [] {
      return None;
    }
    if !writeOk {
      return None;
    }
    written := Some(TableOf(valid));
  }

  /** The scraped team list, as the dictionaries the scraper returns. */
  function AsEntries(teams: seq<TeamEntry>): seq<Entry> {
    seq(|teams|, k requires 0 <= k < |teams| => Record([("team", teams[k].team), ("slug", teams[k].slug)]))
  }

  /** Exporting a scrape writes the team and slug columns, one row per team
      in scrape order. */
  lemma ExportOfScrape(teams: seq<TeamEntry>)
    requires teams != []
    ensures Filter(AsEntries(teams), HasTeam) == AsEntries(teams)
    ensures TableOf(AsEntries(teams)) ==
            CsvTable(["team", "slug"], seq(|teams|, k requires 0 <= k < |teams| => [teams[k].team, teams[k].slug]))
  {
    var es := AsEntries(teams);
    ScrapedRows(teams);
    FilterAll(es, HasTeam);
    TableOfRows(es, ["team", "slug"],
                seq(|teams|, k requires 0 <= k < |teams| => [teams[k].team, teams[k].slug]));
  }

  /** The table of entries whose first one names `header` and whose rows
      under it are `rows`. */
  lemma TableOfRows(es: seq<Entry>, header: seq<string>, rows: seq<seq<string>>)
    requires es != [] && forall k :: 0 <= k < |es| ==> es[k].Record?
    requires FieldNames(es[0].fields) == header && |rows| == |es|
    requires forall k :: 0 <= k < |es| ==> CsvRow(header, es[k].fields) == rows[k]
    ensures TableOf(es) == CsvTable(header, rows)
  {
    assert TableOf(es).rows == rows;
  }

  /** Every scraped dictionary has a team, and its row holds the team and
      the slug, under the header the first one gives. */
  lemma ScrapedRows(teams: seq<TeamEntry>)
    requires teams != []
    ensures FieldNames(AsEntries(teams)[0].fields) == ["team", "slug"]
    ensures forall k :: 0 <= k < |teams| ==>
              HasTeam(AsEntries(teams)[k]) && CsvRow(["team", "slug"], AsEntries(teams)[k].fields) == [teams[k].team, teams[k].slug]
  {
    var es := AsEntries(teams);
    forall k | 0 <= k < |teams|
      ensures HasTeam(es[k]) && CsvRow(["team", "slug"], es[k].fields) == [teams[k].team, teams[k].slug]
    {
      assert es[k].fields == [("team", teams[k].team), ("slug", teams[k].slug)];
      ScrapedRow(teams[k]);
    }
    assert es[0].fields == [("team", teams[0].team), ("slug", teams[0].slug)];
    ScrapedRow(teams[0]);
  }

  /** The row of one scraped team's dictionary. */
  lemma ScrapedRow(t: TeamEntry)
    ensures var d := [("team", t.team), ("slug", t.slug)];
      && LastValue(d, "team") == Some(t.team) && LastValue(d, "slug") == Some(t.slug)
      && FieldNames(d) == ["team", "slug"]
      && CsvRow(["team", "slug"], d) == [t.team, t.slug]
  {
    var d := [("team", t.team), ("slug", t.slug)];
    assert LastValue(d, "slug") == Some(t.slug);
    assert d[..1] == [("team", t.team)];
    assert LastValue(d, "team") == Some(t.team);
  }
}
