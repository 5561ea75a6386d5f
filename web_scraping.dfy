/** web_scraper.py: the Covers.com injury-report parser, the Ourlads
    depth-chart parser, and the WebScraper that caches depth charts, looks up
    a player's position and adds positions to news items. The values the
    module reads from WEB_SCRAPING_CONFIG and DEPTH_CHART_CONFIG (retry count,
    cache duration, enabled flag, URLs) are parameters here. */
module WebScraping {
  import opened Base
  import opened HtmlEvents
  import Fetching

  // ===========================================================================
  // InjuryReportParser
  // ===========================================================================

  /** The `current_item` dictionary; its only keys are these four. */
  datatype InjuryItem = InjuryItem(
    player: Option<string>,
    position: Option<string>,
    status: Option<string>,
    team: Option<string>)

  const NoItem: InjuryItem := InjuryItem(None, None, None, None)

  predicate IsSectionTag(tag: string) {
    tag == "tr" || tag == "div"
  }

  predicate IsFieldTag(tag: Option<string>) {
    tag.Some? && (tag.value == "td" || tag.value == "span" || tag.value == "div" || tag.value == "p")
  }

  /** The dictionary is non-empty. */
  predicate HasAnyField(it: InjuryItem) {
    it.player.Some? || it.position.Some? || it.status.Some? || it.team.Some?
  }

  /** The parser's fields. The four `in_*` flags of the source are never
      read or changed after construction and are not represented. */
  datatype InjuryState = InjuryState(
    injuries: seq<InjuryItem>,
    currentItem: InjuryItem,
    inInjurySection: bool,
    currentTag: Option<string>)

  const InjuryFresh: InjuryState := InjuryState([], NoItem, false, None)

  /** handle_starttag: a `tr` or `div` whose class mentions injury or player
      opens a section with an empty item. */
  function InjuryStart(st: InjuryState, tag: string, attrs: seq<Attr>): InjuryState {
    var tagged := st.(currentTag := Some(tag));
    if IsSectionTag(tag) && AnyClassContains(attrs, ["injury", "player"]) then
      tagged.(inInjurySection := true, currentItem := NoItem)
    else tagged
  }

  /** handle_endtag: closing a section stores the item if it has a player. */
  function InjuryEnd(st: InjuryState, tag: string): InjuryState {
    var closed :=
      if IsSectionTag(tag) && st.inInjurySection then
        var kept := if HasAnyField(st.currentItem) && st.currentItem.player.Some?
                    then st.injuries + [st.currentItem] else st.injuries;
        st.(injuries := kept, inInjurySection := false, currentItem := NoItem)
      else st;
    closed.(currentTag := None)
  }

  /** The text goes to the first field that is not yet truthy, in the order
      player, position, status, team. */
  function FillNext(it: InjuryItem, text: string): InjuryItem {
    if !Truthy(it.player) then it.(player := Some(text))
    else if !Truthy(it.position) then it.(position := Some(text))
    else if !Truthy(it.status) then it.(status := Some(text))
    else if !Truthy(it.team) then it.(team := Some(text))
    else it
  }

  /** handle_data. */
  function InjuryData(st: InjuryState, data: string): InjuryState {
    if !st.inInjurySection || Strip(data) == "" then st
    else if IsFieldTag(st.currentTag) then st.(currentItem := FillNext(st.currentItem, Strip(data)))
    else st
  }

  function InjuryStep(st: InjuryState, e: Event): InjuryState {
    match e
    case Start(tag, attrs) => InjuryStart(st, tag, attrs)
    case Data(text) => InjuryData(st, text)
    case End(tag) => InjuryEnd(st, tag)
  }

  function InjuryRun(st: InjuryState, events: seq<Event>): InjuryState
    decreases |events|
  {
    if events == [] then st else InjuryRun(InjuryStep(st, events[0]), events[1..])
  }

  /** Filled fields are non-empty, and filled without gaps: a later field is
      set only when every earlier one is. */
  predicate FilledInOrder(it: InjuryItem) {
    && (it.player.Some? ==> it.player.value != "")
    && (it.position.Some? ==> it.position.value != "" && it.player.Some?)
    && (it.status.Some? ==> it.status.value != "" && it.position.Some?)
    && (it.team.Some? ==> it.team.value != "" && it.status.Some?)
  }

  predicate InjuryInv(st: InjuryState) {
    && FilledInOrder(st.currentItem)
    && forall k :: 0 <= k < |st.injuries| ==> st.injuries[k].player.Some? && FilledInOrder(st.injuries[k])
  }

  /** Non-blank text fills exactly the first empty field and never
      overwrites a filled one. */
  lemma FillNextFillsFirstEmpty(it: InjuryItem, text: string)
    requires FilledInOrder(it) && text != ""
    ensures var r := FillNext(it, text);
      && FilledInOrder(r)
      && (it.player.Some? ==> r.player == it.player)
      && (it.position.Some? ==> r.position == it.position)
      && (it.status.Some? ==> r.status == it.status)
      && (it.team.Some? ==> r.team == it.team)
      && (it.player.None? ==> r == it.(player := Some(text)))
      && (it.player.Some? && it.position.None? ==> r == it.(position := Some(text)))
      && (it.position.Some? && it.status.None? ==> r == it.(status := Some(text)))
      && (it.status.Some? && it.team.None? ==> r == it.(team := Some(text)))
      && (it.team.Some? ==> r == it)
  {
  }

  /** A `tr` or `div` whose class mentions injury or player opens a section
      with an empty item; the stored injuries stay as they were. Any other
      start tag only records itself as the current tag. */
  lemma SectionOpens(st: InjuryState, tag: string, attrs: seq<Attr>)
    ensures IsSectionTag(tag) && AnyClassContains(attrs, ["injury", "player"]) ==>
              InjuryStart(st, tag, attrs) == InjuryState(st.injuries, NoItem, true, Some(tag))
    ensures !(IsSectionTag(tag) && AnyClassContains(attrs, ["injury", "player"])) ==>
              InjuryStart(st, tag, attrs) == st.(currentTag := Some(tag))
  {
  }

  /** Closing a `tr` or `div` inside a section stores the current item when it
      has a player, closes the section and starts a new empty item. Any other
      end tag only clears the current tag. */
  lemma SectionCloseStores(st: InjuryState, tag: string)
    ensures IsSectionTag(tag) && st.inInjurySection ==>
              InjuryEnd(st, tag) == InjuryState(
                st.injuries + (if st.currentItem.player.Some? then [st.currentItem] else []),
                NoItem, false, None)
    ensures !(IsSectionTag(tag) && st.inInjurySection) ==>
              InjuryEnd(st, tag) == st.(currentTag := None)
  {
  }

  /** Feeding two streams one after the other is feeding their concatenation. */
  lemma {:induction false} InjuryRunConcat(st: InjuryState, a: seq<Event>, b: seq<Event>)
    ensures InjuryRun(st, a + b) == InjuryRun(InjuryRun(st, a), b)
    decreases |a|
  {
    if a != [] {
      assert (a + b)[0] == a[0] && (a + b)[1..] == a[1..] + b;
      InjuryRunConcat(InjuryStep(st, a[0]), a[1..], b);
    } else {
      assert a + b == b;
    }
  }

  /** Feeding one event and then the rest. */
  lemma InjuryRunCons(st: InjuryState, e: Event, rest: seq<Event>)
    ensures InjuryRun(st, [e] + rest) == InjuryRun(InjuryStep(st, e), rest)
  {
    assert ([e] + rest)[1..] == rest;
  }

  /** One table cell holding `text`. */
  function Cell(text: string): seq<Event> {
    [Start("td", [])] + ([Data(text)] + [End("td")])
  }

  /** Inside a section, a cell's stripped text fills the item's next field. */
  lemma CellFills(st: InjuryState, text: string)
    requires st.inInjurySection && Strip(text) != ""
    ensures InjuryRun(st, Cell(text)) == st.(currentItem := FillNext(st.currentItem, Strip(text)), currentTag := None)
  {
    var s1 := st.(currentTag := Some("td"));
    var s2 := s1.(currentItem := FillNext(st.currentItem, Strip(text)));
    var s3 := s2.(currentTag := None);
    assert InjuryStep(st, Start("td", [])) == s1;
    assert InjuryStep(s1, Data(text)) == s2;
    assert InjuryStep(s2, End("td")) == s3;
    InjuryRunCons(st, Start("td", []), [Data(text)] + [End("td")]);
    InjuryRunCons(s1, Data(text), [End("td")]);
    InjuryRunCons(s2, End("td"), []);
    assert [End("td")] + [] == [End("td")];
  }

  /** One injury row with three cells. */
  function InjuryRow(attrs: seq<Attr>, name: string, position: string, status: string): seq<Event> {
    [Start("tr", attrs)] + (Cell(name) + Cell(position) + Cell(status) + [End("tr")])
  }

  /** The three cells of a row fill player, position and status in order. */
  lemma CellsFill(st: InjuryState, name: string, position: string, status: string)
    requires st.inInjurySection && st.currentItem == NoItem
    requires Strip(name) != "" && Strip(position) != "" && Strip(status) != ""
    ensures InjuryRun(st, Cell(name) + Cell(position) + Cell(status)) ==
              st.(currentItem := InjuryItem(Some(Strip(name)), Some(Strip(position)), Some(Strip(status)), None),
                  currentTag := None)
  {
    var it1 := InjuryItem(Some(Strip(name)), None, None, None);
    var it2 := it1.(position := Some(Strip(position)));
    var it3 := it2.(status := Some(Strip(status)));
    assert FillNext(NoItem, Strip(name)) == it1;
    assert FillNext(it1, Strip(position)) == it2;
    assert FillNext(it2, Strip(status)) == it3;
    var s1 := st.(currentItem := it1, currentTag := None);
    var s2 := st.(currentItem := it2, currentTag := None);
    CellFills(st, name);
    CellFills(s1, position);
    CellFills(s2, status);
    InjuryRunConcat(st, Cell(name), Cell(position));
    InjuryRunConcat(st, Cell(name) + Cell(position), Cell(status));
  }

  /** A marked row's three cells become the player, position and status of
      one stored injury, in that order. */
  lemma InjuryRowStored(st: InjuryState, attrs: seq<Attr>, name: string, position: string, status: string)
    requires AnyClassContains(attrs, ["injury", "player"])
    requires Strip(name) != "" && Strip(position) != "" && Strip(status) != ""
    ensures InjuryRun(st, InjuryRow(attrs, name, position, status)) ==
              InjuryState(st.injuries + [InjuryItem(Some(Strip(name)), Some(Strip(position)), Some(Strip(status)), None)],
                          NoItem, false, None)
  {
    var cells := Cell(name) + Cell(position) + Cell(status);
    var s0 := InjuryState(st.injuries, NoItem, true, Some("tr"));
    RowOpens(st, attrs, cells + [End("tr")]);
    CellsFill(s0, name, position, status);
    InjuryRunConcat(s0, cells, [End("tr")]);
    RowCloses(InjuryRun(s0, cells));
  }

  /** A marked row's start tag opens a section with an empty item. */
  lemma RowOpens(st: InjuryState, attrs: seq<Attr>, rest: seq<Event>)
    requires AnyClassContains(attrs, ["injury", "player"])
    ensures InjuryRun(st, [Start("tr", attrs)] + rest) == InjuryRun(InjuryState(st.injuries, NoItem, true, Some("tr")), rest)
  {
    SectionOpens(st, "tr", attrs);
    InjuryRunCons(st, Start("tr", attrs), rest);
  }

  /** A row's end tag inside a section stores the item if it has a player. */
  lemma RowCloses(st: InjuryState)
    requires st.inInjurySection
    ensures InjuryRun(st, [End("tr")]) ==
              InjuryState(st.injuries + (if st.currentItem.player.Some? then [st.currentItem] else []), NoItem, false, None)
  {
    SectionCloseStores(st, "tr");
    InjuryRunCons(st, End("tr"), []);
    assert [End("tr")] + [] == [End("tr")];
  }

  /** Every handler keeps the invariant: stored injuries have a player, and
      items are filled in order. */
  lemma InjuryStepKeepsInv(st: InjuryState, e: Event)
    requires InjuryInv(st)
    ensures InjuryInv(InjuryStep(st, e))
    ensures e.End? ==> InjuryStep(st, e).currentTag.None?
    ensures st.injuries <= InjuryStep(st, e).injuries
  {
    if e.Data? && st.inInjurySection && Strip(e.text) != "" && IsFieldTag(st.currentTag) {
      FillNextFillsFirstEmpty(st.currentItem, Strip(e.text));
    }
  }

  /** Over a whole stream: the injury list only grows, and every stored
      injury has a player and fields filled in order. */
  lemma {:induction false} InjuryRunKeepsInv(st: InjuryState, events: seq<Event>)
    requires InjuryInv(st)
    ensures InjuryInv(InjuryRun(st, events))
    ensures st.injuries <= InjuryRun(st, events).injuries
    ensures events != [] && events[|events| - 1].End? ==> InjuryRun(st, events).currentTag.None?
    decreases |events|
  {
    if events != [] {
      InjuryStepKeepsInv(st, events[0]);
      InjuryRunKeepsInv(InjuryStep(st, events[0]), events[1..]);
      if |events| == 1 {
        assert InjuryRun(st, events) == InjuryStep(st, events[0]);
      } else {
        assert events[1..][|events[1..]| - 1] == events[|events| - 1];
      }
    }
  }

  class InjuryReportParser {
    var injuries: seq<InjuryItem>
    var currentItem: InjuryItem
    var inInjurySection: bool
    var currentTag: Option<string>

    function State(): InjuryState
      reads this
    {
      InjuryState(injuries, currentItem, inInjurySection, currentTag)
    }

    constructor()
      ensures State() == InjuryFresh
    {
      injuries := [];
      currentItem := NoItem;
      inInjurySection := false;
      currentTag := None;
    }

    method HandleStartTag(tag: string, attrs: seq<Attr>)
      modifies this
      ensures State() == InjuryStart(old(State()), tag, attrs)
    {
      currentTag := Some(tag);
      if IsSectionTag(tag) && AnyClassContains(attrs, ["injury", "player"]) {
        inInjurySection := true;
        currentItem := NoItem;
      }
    }

    method HandleEndTag(tag: string)
      modifies this
      ensures State() == InjuryEnd(old(State()), tag)
    {
      if IsSectionTag(tag) && inInjurySection {
        if HasAnyField(currentItem) && currentItem.player.Some? {
          injuries := injuries + [currentItem];
        }
        inInjurySection := false;
        currentItem := NoItem;
      }
      currentTag := None;
    }

    method HandleData(data: string)
      modifies this
      ensures State() == InjuryData(old(State()), data)
    {
      if !inInjurySection || Strip(data) == "" {
        return;
      }
      var text := Strip(data);
      if IsFieldTag(currentTag) {
        if !Truthy(currentItem.player) {
          currentItem := currentItem.(player := Some(text));
        } else if !Truthy(currentItem.position) {
          currentItem := currentItem.(position := Some(text));
        } else if !Truthy(currentItem.status) {
          currentItem := currentItem.(status := Some(text));
        } else if !Truthy(currentItem.team) {
          currentItem := currentItem.(team := Some(text));
        }
      }
    }

    method Feed(events: seq<Event>)
      modifies this
      ensures State() == InjuryRun(old(State()), events)
    {
      var i := 0;
      while i < |events|
        invariant 0 <= i <= |events|
        invariant InjuryRun(old(State()), events) == InjuryRun(State(), events[i..])
      {
        assert events[i..][1..] == events[i + 1..];
        match events[i] {
          case Start(tag, attrs) => HandleStartTag(tag, attrs);
          case Data(text) => HandleData(text);
          case End(tag) => HandleEndTag(tag);
        }
        i := i + 1;
      }
    }
  }

  // ===========================================================================
  // DepthChartParser
  // ===========================================================================

  /** position -> players, in insertion order. */
  type Positions = seq<(string, seq<string>)>
  /** team -> positions, in insertion order. */
  type Chart = seq<(string, Positions)>

  /** The players listed under `pos` (an empty list when there is none). */
  function PlayersIn(ps: Positions, pos: string): seq<string> {
    if ps == [] then []
    else if ps[0].0 == pos then ps[0].1
    else PlayersIn(ps[1..], pos)
  }

  /** The positions listed under `team`. */
  function PositionsOf(chart: Chart, team: string): Positions {
    if chart == [] then []
    else if chart[0].0 == team then chart[0].1
    else PositionsOf(chart[1..], team)
  }

  /** depth_chart[team][pos].append(player), creating missing levels. */
  function AddToPositions(ps: Positions, pos: string, player: string): Positions {
    if ps == [] then [(pos, [player])]
    else if ps[0].0 == pos then [(pos, ps[0].1 + [player])] + ps[1..]
    else [ps[0]] + AddToPositions(ps[1..], pos, player)
  }

  function AddPlayer(chart: Chart, team: string, pos: string, player: string): Chart {
    if chart == [] then [(team, AddToPositions([], pos, player))]
    else if chart[0].0 == team then [(team, AddToPositions(chart[0].1, pos, player))] + chart[1..]
    else [chart[0]] + AddPlayer(chart[1..], team, pos, player)
  }

  lemma {:induction false} AddToPositionsAppends(ps: Positions, pos: string, player: string, other: string)
    ensures PlayersIn(AddToPositions(ps, pos, player), pos) == PlayersIn(ps, pos) + [player]
    ensures other != pos ==> PlayersIn(AddToPositions(ps, pos, player), other) == PlayersIn(ps, other)
    decreases |ps|
  {
    if ps != [] && ps[0].0 != pos {
      AddToPositionsAppends(ps[1..], pos, player, other);
    }
  }

  /** Appending a player extends exactly that team's list for that position,
      at the end; every other list is unchanged. */
  lemma {:induction false} AddPlayerAppends(chart: Chart, team: string, pos: string, player: string,
                                            otherTeam: string, otherPos: string)
    ensures PlayersIn(PositionsOf(AddPlayer(chart, team, pos, player), team), pos)
            == PlayersIn(PositionsOf(chart, team), pos) + [player]
    ensures (otherTeam, otherPos) != (team, pos) ==>
              PlayersIn(PositionsOf(AddPlayer(chart, team, pos, player), otherTeam), otherPos)
              == PlayersIn(PositionsOf(chart, otherTeam), otherPos)
    decreases |chart|
  {
    if chart == [] {
      AddToPositionsAppends([], pos, player, otherPos);
    } else if chart[0].0 == team {
      AddToPositionsAppends(chart[0].1, pos, player, otherPos);
    } else {
      AddPlayerAppends(chart[1..], team, pos, player, otherTeam, otherPos);
    }
  }

  /** The parser's fields (`in_player_name` is never used and is not represented). */
  datatype ChartState = ChartState(depthChart: Chart, currentTeam: Option<string>, currentPosition: Option<string>)

  const ChartFresh: ChartState := ChartState([], None, None)

  /** Text taken for a position code such as QB or WR. */
  predicate IsPositionCode(s: string) {
    IsUpper(s) && |s| <= 4
  }

  /** handle_starttag: a team heading resets the current team to None. */
  function ChartStart(st: ChartState, tag: string, attrs: seq<Attr>): ChartState {
    if (tag == "h2" || tag == "h3") && AnyClassContains(attrs, ["team"]) then st.(currentTeam := None)
    else st
  }

  /** handle_data: under a current team, a position code becomes the current
      position and other text is a player listed under it. */
  function ChartData(st: ChartState, data: string): ChartState {
    var text := Strip(data);
    if text == "" then st
    else if Truthy(st.currentTeam) then
      if IsPositionCode(text) then st.(currentPosition := Some(text))
      else if Truthy(st.currentPosition) then
        st.(depthChart := AddPlayer(st.depthChart, st.currentTeam.value, st.currentPosition.value, text))
      else st
    else st
  }

  function ChartStep(st: ChartState, e: Event): ChartState {
    match e
    case Start(tag, attrs) => ChartStart(st, tag, attrs)
    case Data(text) => ChartData(st, text)
    case End(_) => st
  }

  function ChartRun(st: ChartState, events: seq<Event>): ChartState
    decreases |events|
  {
    if events == [] then st else ChartRun(ChartStep(st, events[0]), events[1..])
  }

  /** Nothing ever sets a current team, so no player is ever recorded: from a
      state without a team, the depth chart is left as it is for every input. */
  lemma {:induction false} ChartRunNeverRecords(st: ChartState, events: seq<Event>)
    requires st.currentTeam.None?
    ensures ChartRun(st, events).currentTeam.None?
    ensures ChartRun(st, events).depthChart == st.depthChart
    decreases |events|
  {
    if events != [] {
      ChartRunNeverRecords(ChartStep(st, events[0]), events[1..]);
    }
  }

  class DepthChartParser {
    var depthChart: Chart
    var currentTeam: Option<string>
    var currentPosition: Option<string>

    function State(): ChartState
      reads this
    {
      ChartState(depthChart, currentTeam, currentPosition)
    }

    constructor()
      ensures State() == ChartFresh
    {
      depthChart := [];
      currentTeam := None;
      currentPosition := None;
    }

    method HandleStartTag(tag: string, attrs: seq<Attr>)
      modifies this
      ensures State() == ChartStart(old(State()), tag, attrs)
    {
      if (tag == "h2" || tag == "h3") && AnyClassContains(attrs, ["team"]) {
        currentTeam := None;
      }
    }

    method HandleData(data: string)
      modifies this
      ensures State() == ChartData(old(State()), data)
    {
      var text := Strip(data);
      if text == "" {
        return;
      }
      if Truthy(currentTeam) {
        if IsPositionCode(text) {
          currentPosition := Some(text);
        } else if Truthy(currentPosition) {
          depthChart := AddPlayer(depthChart, currentTeam.value, currentPosition.value, text);
        }
      }
    }

    method Feed(events: seq<Event>)
      modifies this
      ensures State() == ChartRun(old(State()), events)
    {
      var i := 0;
      while i < |events|
        invariant 0 <= i <= |events|
        invariant ChartRun(old(State()), events) == ChartRun(State(), events[i..])
      {
        assert events[i..][1..] == events[i + 1..];
        match events[i] {
          case Start(tag, attrs) => HandleStartTag(tag, attrs);
          case Data(text) => HandleData(text);
          case End(_) =>
        }
        i := i + 1;
      }
    }
  }

  // ===========================================================================
  // WebScraper
  // ===========================================================================

  /** The cache fields of a WebScraper. */
  datatype CacheState = CacheState(cache: Chart, cacheTime: int)

  /** What fetch_depth_chart returns and the cache it leaves. */
  datatype Lookup = Lookup(state: CacheState, chart: Chart)

  /** The depth chart parsed from a page; None when the HTML library raises
      (`tokenize` returns None). */
  function ParsedChart(html: string, tokenize: string -> Option<seq<Event>>): Option<Chart> {
    match tokenize(html)
    case None => None
    case Some(events) => Some(ChartRun(ChartFresh, events).depthChart)
  }

  /** fetch_depth_chart's cache policy at time `now`; `page` is what
      fetch_html returned. */
  function DepthChartLookup(st: CacheState, now: int, cacheDuration: int, page: Option<string>,
                            tokenize: string -> Option<seq<Event>>): Lookup
  {
    var fallback := if st.cache != [] then st.cache else [];
    if now - st.cacheTime < cacheDuration && st.cache != [] then Lookup(st, st.cache)
    else if page.None? || page.value == "" then Lookup(st, fallback)
    else match ParsedChart(page.value, tokenize)
      case None => Lookup(st, fallback)
      case Some(c) => Lookup(CacheState(c, now), c)
  }

  /** The policy: a fresh non-empty cache is returned without looking at the
      page; otherwise a missing or empty page, or one the library cannot
      parse, returns the cache (empty if there is none) and changes nothing,
      and a parsed page replaces the cache, stamped `now`, and is returned. */
  lemma DepthChartLookupPolicy(st: CacheState, now: int, cacheDuration: int, page: Option<string>,
                               tokenize: string -> Option<seq<Event>>)
    ensures var r := DepthChartLookup(st, now, cacheDuration, page, tokenize);
      var current := now - st.cacheTime < cacheDuration && st.cache != [];
      && (current ==> r == Lookup(st, st.cache))
      && (!current && (page.None? || page == Some("")) ==> r == Lookup(st, st.cache))
      && (!current && page.Some? && page.value != "" && ParsedChart(page.value, tokenize).None? ==>
            r == Lookup(st, st.cache))
      && (!current && page.Some? && page.value != "" && ParsedChart(page.value, tokenize).Some? ==>
            r == Lookup(CacheState(ParsedChart(page.value, tokenize).value, now), ParsedChart(page.value, tokenize).value))
      && (r.state == st ==> r.chart == st.cache || ParsedChart(page.value, tokenize) == Some(r.chart))
      && (r.state != st ==> r.state == CacheState(r.chart, now)
                            && page.Some? && ParsedChart(page.value, tokenize) == Some(r.chart))
  {
  }

  /** Looking up again at the same time with the same page changes nothing
      more. */
  lemma DepthChartLookupIdempotent(st: CacheState, now: int, cacheDuration: int, page: Option<string>,
                                   tokenize: string -> Option<seq<Event>>)
    ensures var r := DepthChartLookup(st, now, cacheDuration, page, tokenize);
      DepthChartLookup(r.state, now, cacheDuration, page, tokenize) == r
  {
  }

  /** Because the parser never records a player, an empty cache stays empty
      and every lookup returns an empty chart. */
  lemma CacheStaysEmpty(st: CacheState, now: int, cacheDuration: int, page: Option<string>,
                        tokenize: string -> Option<seq<Event>>)
    requires st.cache == []
    ensures DepthChartLookup(st, now, cacheDuration, page, tokenize).state.cache == []
    ensures DepthChartLookup(st, now, cacheDuration, page, tokenize).chart == []
  {
    if page.Some? && tokenize(page.value).Some? {
      ChartRunNeverRecords(ChartFresh, tokenize(page.value).value);
    }
  }

  /** The player matches a listed name when either contains the other,
      ignoring case. */
  predicate NameMatches(query: string, player: string) {
    Contains(Lower(query), Lower(player)) || Contains(Lower(player), Lower(query))
  }

  /** A team is searched unless a non-empty team filter is not part of its name. */
  predicate TeamSelected(team: Option<string>, teamName: string) {
    !Truthy(team) || Contains(Lower(teamName), Lower(team.value))
  }

  predicate AnyMatch(players: seq<string>, query: string) {
    exists k :: 0 <= k < |players| && NameMatches(query, players[k])
  }

  /** The first position, in order, whose players include a match. */
  function PositionIn(ps: Positions, query: string): Option<string> {
    if ps == [] then None
    else if AnyMatch(ps[0].1, query) then Some(ps[0].0)
    else PositionIn(ps[1..], query)
  }

  /** get_player_position's answer for a chart: the first match over the
      selected teams, in chart order. */
  function PositionOf(chart: Chart, query: string, team: Option<string>): Option<string> {
    if chart == [] then None
    else if TeamSelected(team, chart[0].0) && PositionIn(chart[0].1, query).Some? then
      PositionIn(chart[0].1, query)
    else PositionOf(chart[1..], query, team)
  }

  /** A position is found iff some position lists a matching player; the
      one found is the first such position. */
  lemma {:induction false} PositionInFindsFirst(ps: Positions, query: string)
    ensures PositionIn(ps, query).None? <==> forall j :: 0 <= j < |ps| ==> !AnyMatch(ps[j].1, query)
    ensures PositionIn(ps, query).Some? ==>
              exists j :: 0 <= j < |ps| && ps[j].0 == PositionIn(ps, query).value && AnyMatch(ps[j].1, query)
                          && forall j' :: 0 <= j' < j ==> !AnyMatch(ps[j'].1, query)
    decreases |ps|
  {
    if ps != [] && !AnyMatch(ps[0].1, query) {
      PositionInFindsFirst(ps[1..], query);
      assert forall j :: 0 < j < |ps| ==> ps[1..][j - 1] == ps[j];
      if PositionIn(ps, query).Some? {
        var j :| 0 <= j < |ps[1..]| && ps[1..][j].0 == PositionIn(ps, query).value && AnyMatch(ps[1..][j].1, query)
                 && forall j' :: 0 <= j' < j ==> !AnyMatch(ps[1..][j'].1, query);
        assert ps[j + 1].0 == PositionIn(ps, query).value && AnyMatch(ps[j + 1].1, query);
      }
    }
  }

  /** No position is found iff no selected team lists a matching player;
      otherwise the answer is that of the first selected team with a match. */
  lemma {:induction false} PositionOfFindsFirst(chart: Chart, query: string, team: Option<string>)
    ensures PositionOf(chart, query, team).None? <==>
              forall i :: 0 <= i < |chart| && TeamSelected(team, chart[i].0) ==> PositionIn(chart[i].1, query).None?
    ensures PositionOf(chart, query, team).Some? ==>
              exists i :: 0 <= i < |chart| && TeamSelected(team, chart[i].0)
                          && PositionIn(chart[i].1, query) == PositionOf(chart, query, team)
                          && forall i' :: 0 <= i' < i && TeamSelected(team, chart[i'].0) ==> PositionIn(chart[i'].1, query).None?
    decreases |chart|
  {
    if chart != [] && !(TeamSelected(team, chart[0].0) && PositionIn(chart[0].1, query).Some?) {
      PositionOfFindsFirst(chart[1..], query, team);
      assert forall i :: 0 < i < |chart| ==> chart[1..][i - 1] == chart[i];
      if PositionOf(chart, query, team).Some? {
        var i :| 0 <= i < |chart[1..]| && TeamSelected(team, chart[1..][i].0)
                 && PositionIn(chart[1..][i].1, query) == PositionOf(chart, query, team)
                 && forall i' :: 0 <= i' < i && TeamSelected(team, chart[1..][i'].0) ==> PositionIn(chart[1..][i'].1, query).None?;
        assert chart[i + 1] == chart[1..][i];
      }
    }
  }

  /** What enrich_items_with_positions does to one item, given the chart. */
  function EnrichItem(item: Item, chart: Chart): Item {
    if "player" in item && "position" in item then item
    else if "player" in item && item["player"] != "Unknown" then
      var position := PositionOf(chart, item["player"], Get(item, "team"));
      if Truthy(position) && !Truthy(Get(item, "position")) then item["position" := position.value]
      else item
    else item
  }

  /** Enrichment only ever adds a `position` key: to an item that has a
      player other than 'Unknown' and no position, when the lookup finds one.
      Every other key and value is kept. */
  lemma EnrichItemOnlyAddsPosition(item: Item, chart: Chart)
    ensures var r := EnrichItem(item, chart);
      && item.Keys <= r.Keys <= item.Keys + {"position"}
      && (forall k :: k in item ==> r[k] == item[k])
      && (r != item ==> && "player" in item && item["player"] != "Unknown" && "position" !in item
                        && r == item["position" := PositionOf(chart, item["player"], Get(item, "team")).value])
  {
  }

  /** With an empty chart (the only chart this parser produces) items are
      never changed. */
  lemma EnrichWithEmptyChart(item: Item)
    ensures EnrichItem(item, []) == item
  {
  }

  /** An item with a player other than 'Unknown' and no position gains the
      position the lookup finds, when it finds a non-empty one; otherwise it
      is kept as it is. */
  lemma EnrichItemAddsFoundPosition(item: Item, chart: Chart)
    requires "player" in item && item["player"] != "Unknown" && "position" !in item
    ensures var found := PositionOf(chart, item["player"], Get(item, "team"));
      && (Truthy(found) ==> EnrichItem(item, chart) == item["position" := found.value])
      && (!Truthy(found) ==> EnrichItem(item, chart) == item)
  {
  }

  /** The loop body looks the position up only for an item with a player
      other than 'Unknown' that lacks the player or the position key. */
  predicate NeedsLookup(item: Item) {
    !("player" in item && "position" in item) && "player" in item && item["player"] != "Unknown"
  }

  /** `after` is `before` with at most a `position` key added, and only when
      `before` needed a lookup. */
  predicate OnlyAddsPosition(before: Item, after: Item) {
    && before.Keys <= after.Keys <= before.Keys + {"position"}
    && (forall k :: k in before ==> k in after && after[k] == before[k])
    && (after != before ==> NeedsLookup(before) && "position" !in before)
  }

  /** The enrichment loop's state: the cache, the items it has produced, and
      how many lookups it has made. */
  datatype Enriched = Enriched(cache: CacheState, items: seq<Item>, lookups: nat)

  /** One pass of the loop body. An item that needs a position makes the
      next lookup, which reads the clock (`clock(lookups)`) and, when the
      cache is stale, fetches the page (`pages(lookups)`). */
  function EnrichStep(cache: CacheState, lookups: nat, item: Item, cacheDuration: int,
                      clock: nat -> int, pages: nat -> Option<string>,
                      tokenize: string -> Option<seq<Event>>): Enriched
  {
    if NeedsLookup(item) then
      var r := DepthChartLookup(cache, clock(lookups), cacheDuration, pages(lookups), tokenize);
      Enriched(r.state, [EnrichItem(item, r.chart)], lookups + 1)
    else Enriched(cache, [item], lookups)
  }

  /** The loop over a list of items, one step per item in order. */
  function EnrichRun(cache: CacheState, lookups: nat, items: seq<Item>, cacheDuration: int,
                     clock: nat -> int, pages: nat -> Option<string>,
                     tokenize: string -> Option<seq<Event>>): Enriched
    decreases |items|
  {
    if items == [] then Enriched(cache, [], lookups)
    else
      var prev := EnrichRun(cache, lookups, items[..|items| - 1], cacheDuration, clock, pages, tokenize);
      var step := EnrichStep(prev.cache, prev.lookups, items[|items| - 1], cacheDuration, clock, pages, tokenize);
      Enriched(step.cache, prev.items + step.items, step.lookups)
  }

  /** One pass keeps or extends its item as enrichment allows. */
  lemma EnrichStepOnlyAddsPosition(cache: CacheState, lookups: nat, item: Item, cacheDuration: int,
                                   clock: nat -> int, pages: nat -> Option<string>,
                                   tokenize: string -> Option<seq<Event>>)
    ensures var r := EnrichStep(cache, lookups, item, cacheDuration, clock, pages, tokenize);
      && |r.items| == 1
      && OnlyAddsPosition(item, r.items[0])
      && (NeedsLookup(item) ==> r.lookups == lookups + 1)
      && (!NeedsLookup(item) ==> r == Enriched(cache, [item], lookups))
  {
    if NeedsLookup(item) {
      var r := DepthChartLookup(cache, clock(lookups), cacheDuration, pages(lookups), tokenize);
      EnrichItemOnlyAddsPosition(item, r.chart);
    }
  }

  /** The loop yields one item per input item, each the input with at most a
      position added; items that need no lookup come out unchanged, and each
      lookup is counted once. */
  lemma {:induction false} EnrichRunOnlyAddsPositions(cache: CacheState, lookups: nat, items: seq<Item>,
                                                      cacheDuration: int, clock: nat -> int,
                                                      pages: nat -> Option<string>,
                                                      tokenize: string -> Option<seq<Event>>)
    ensures var r := EnrichRun(cache, lookups, items, cacheDuration, clock, pages, tokenize);
      && |r.items| == |items|
      && lookups <= r.lookups <= lookups + |items|
      && forall k :: 0 <= k < |items| ==>
           OnlyAddsPosition(items[k], r.items[k]) && (!NeedsLookup(items[k]) ==> r.items[k] == items[k])
    decreases |items|
  {
    if items != [] {
      var init := items[..|items| - 1];
      EnrichRunOnlyAddsPositions(cache, lookups, init, cacheDuration, clock, pages, tokenize);
      var prev := EnrichRun(cache, lookups, init, cacheDuration, clock, pages, tokenize);
      EnrichStepOnlyAddsPosition(prev.cache, prev.lookups, items[|items| - 1], cacheDuration, clock, pages, tokenize);
    }
  }

  /** Starting from an empty cache the loop changes no item and leaves the
      cache empty, whatever the clock and the pages. */
  lemma {:induction false} EnrichRunWithEmptyCache(cache: CacheState, lookups: nat, items: seq<Item>,
                                                   cacheDuration: int, clock: nat -> int,
                                                   pages: nat -> Option<string>,
                                                   tokenize: string -> Option<seq<Event>>)
    requires cache.cache == []
    ensures var r := EnrichRun(cache, lookups, items, cacheDuration, clock, pages, tokenize);
      r.items == items && r.cache.cache == []
    decreases |items|
  {
    if items != [] {
      var init, last := items[..|items| - 1], items[|items| - 1];
      EnrichRunWithEmptyCache(cache, lookups, init, cacheDuration, clock, pages, tokenize);
      var prev := EnrichRun(cache, lookups, init, cacheDuration, clock, pages, tokenize);
      var step := EnrichStep(prev.cache, prev.lookups, last, cacheDuration, clock, pages, tokenize);
      EnrichStepWithEmptyCache(prev.cache, prev.lookups, last, cacheDuration, clock, pages, tokenize);
      var r := EnrichRun(cache, lookups, items, cacheDuration, clock, pages, tokenize);
      assert r.items == prev.items + step.items && r.cache == step.cache;
      assert items == init + [last];
    }
  }

  /** One pass from an empty cache keeps its item and the cache empty. */
  lemma EnrichStepWithEmptyCache(cache: CacheState, lookups: nat, item: Item, cacheDuration: int,
                                 clock: nat -> int, pages: nat -> Option<string>,
                                 tokenize: string -> Option<seq<Event>>)
    requires cache.cache == []
    ensures var r := EnrichStep(cache, lookups, item, cacheDuration, clock, pages, tokenize);
      r.items == [item] && r.cache.cache == []
  {
    if NeedsLookup(item) {
      CacheStaysEmpty(cache, clock(lookups), cacheDuration, pages(lookups), tokenize);
      EnrichWithEmptyChart(item);
    }
  }

  /** When the cache is settled for a clock reading and a page that never
      change, every item is enriched against the same chart and the cache
      stays as it is. */
  lemma {:induction false} EnrichRunSettled(cache: CacheState, lookups: nat, items: seq<Item>,
                                            cacheDuration: int, now: int, page: Option<string>,
                                            tokenize: string -> Option<seq<Event>>, chart: Chart)
    requires DepthChartLookup(cache, now, cacheDuration, page, tokenize) == Lookup(cache, chart)
    ensures var r := EnrichRun(cache, lookups, items, cacheDuration, _ => now, _ => page, tokenize);
      && r.cache == cache
      && |r.items| == |items|
      && forall k :: 0 <= k < |items| ==> r.items[k] == EnrichItem(items[k], chart)
    decreases |items|
  {
    if items != [] {
      var init := items[..|items| - 1];
      EnrichRunSettled(cache, lookups, init, cacheDuration, now, page, tokenize, chart);
    }
  }

  /** With a clock and a page that never change, the first lookup settles the
      cache, so the whole pass enriches every item against the chart that
      first lookup returned. */
  lemma EnrichRunSameClock(cache: CacheState, items: seq<Item>, cacheDuration: int, now: int,
                           page: Option<string>, tokenize: string -> Option<seq<Event>>)
    ensures var first := DepthChartLookup(cache, now, cacheDuration, page, tokenize);
      var r := EnrichRun(first.state, 1, items, cacheDuration, _ => now, _ => page, tokenize);
      && r.cache == first.state
      && |r.items| == |items|
      && forall k :: 0 <= k < |items| ==> r.items[k] == EnrichItem(items[k], first.chart)
  {
    var first := DepthChartLookup(cache, now, cacheDuration, page, tokenize);
    DepthChartLookupIdempotent(cache, now, cacheDuration, page, tokenize);
    EnrichRunSettled(first.state, 1, items, cacheDuration, now, page, tokenize, first.chart);
  }

  class WebScraper {
    var depthChartCache: Chart
    var depthChartCacheTime: int

    function Cache(): CacheState
      reads this
    {
      CacheState(depthChartCache, depthChartCacheTime)
    }

    constructor()
      ensures Cache() == CacheState([], 0)
    {
      depthChartCache := [];
      depthChartCacheTime := 0;
    }

    /** fetch_html: the shared retry loop with the configured retry count. */
    method FetchHtml(maxRetries: int, attempt: nat -> Fetching.Attempt) returns (content: Option<string>)
      ensures exists attempts: nat :: Fetching.FetchOutcome(maxRetries, attempt, content, attempts)
      ensures content == Fetching.Retry(maxRetries, attempt, 0).0
    {
      var attempts;
      content, attempts := Fetching.RetryFetch(maxRetries, attempt);
    }

    /** scrape_covers_injuries: the page fetched from `url` by fetch_html,
        then its parsed injuries as news items; none when the fetch fails or
        the HTML library raises. */
    method ScrapeCoversInjuries(url: string, maxRetries: int, attempt: nat -> Fetching.Attempt,
                                tokenize: string -> Option<seq<Event>>, timestamp: string)
      returns (items: seq<Item>)
      ensures items == CoversItems(url, Fetching.Retry(maxRetries, attempt, 0).0, tokenize, timestamp)
    {
      var page := FetchHtml(maxRetries, attempt);
      if page.None? || page.value == "" {
        return [];
      }
      var events := tokenize(page.value);
      if events.None? {
        return [];
      }
      var parser := new InjuryReportParser();
      parser.Feed(events.value);
      var injuries := parser.injuries;
      items := [];
      for i := 0 to |injuries|
        invariant |items| == i
        invariant forall k :: 0 <= k < i ==> items[k] == InjuryReportItem(injuries[k], url, timestamp)
      {
        items := items + [InjuryReportItem(injuries[i], url, timestamp)];
      }
    }

    /** fetch_depth_chart. */
    method FetchDepthChart(now: int, cacheDuration: int, page: Option<string>,
                           tokenize: string -> Option<seq<Event>>)
      returns (chart: Chart)
      modifies this
      ensures Lookup(Cache(), chart) == DepthChartLookup(old(Cache()), now, cacheDuration, page, tokenize)
    {
      if now - depthChartCacheTime < cacheDuration && depthChartCache != [] {
        return depthChartCache;
      }
      if page.None? || page.value == "" {
        if depthChartCache != [] {
          return depthChartCache;
        }
        return [];
      }
      var events := tokenize(page.value);
      if events.None? {
        if depthChartCache != [] {
          return depthChartCache;
        }
        return [];
      }
      var parser := new DepthChartParser();
      parser.Feed(events.value);
      depthChartCache := parser.depthChart;
      depthChartCacheTime := now;
      chart := parser.depthChart;
    }

    /** The innermost loop of get_player_position: does some listed player match? */
    static method MatchAmong(players: seq<string>, query: string) returns (found: bool)
      ensures found <==> AnyMatch(players, query)
    {
      for k := 0 to |players|
        invariant forall k' :: 0 <= k' < k ==> !NameMatches(query, players[k'])
      {
        var player := players[k];
        if Contains(Lower(query), Lower(player)) || Contains(Lower(player), Lower(query)) {
          return true;
        }
      }
      return false;
    }

    /** The middle loop: the first position of a team with a matching player. */
    static method FindInPositions(positions: Positions, query: string) returns (position: Option<string>)
      ensures position == PositionIn(positions, query)
    {
      for j := 0 to |positions|
        invariant PositionIn(positions, query) == PositionIn(positions[j..], query)
      {
        assert positions[j..][1..] == positions[j + 1..];
        var found := MatchAmong(positions[j].1, query);
        if found {
          return Some(positions[j].0);
        }
      }
      return None;
    }

    /** The outer loop of get_player_position over a chart's teams. */
    static method FindPosition(chart: Chart, query: string, team: Option<string>) returns (position: Option<string>)
      ensures position == PositionOf(chart, query, team)
    {
      for i := 0 to |chart|
        invariant PositionOf(chart, query, team) == PositionOf(chart[i..], query, team)
      {
        assert chart[i..][1..] == chart[i + 1..];
        var teamName := chart[i].0;
        if Truthy(team) && !Contains(Lower(teamName), Lower(team.value)) {
          continue;
        }
        position := FindInPositions(chart[i].1, query);
        if position.Some? {
          return;
        }
      }
      return None;
    }

    /** get_player_position: look the chart up (possibly fetching), then search it. */
    method GetPlayerPosition(query: string, team: Option<string>, now: int, cacheDuration: int,
                             page: Option<string>, tokenize: string -> Option<seq<Event>>)
      returns (position: Option<string>)
      modifies this
      ensures var r := DepthChartLookup(old(Cache()), now, cacheDuration, page, tokenize);
        Cache() == r.state && position == PositionOf(r.chart, query, team)
    {
      var chart := FetchDepthChart(now, cacheDuration, page, tokenize);
      position := FindPosition(chart, query, team);
    }

    /** The body of the enrichment loop for one item; `lookups` counts the
        lookups made so far in this pass. */
    method EnrichOne(item: Item, lookups: nat, cacheDuration: int, clock: nat -> int,
                     pages: nat -> Option<string>, tokenize: string -> Option<seq<Event>>)
      returns (enriched: Item, made: nat)
      modifies this
      ensures Enriched(Cache(), [enriched], made) ==
                EnrichStep(old(Cache()), lookups, item, cacheDuration, clock, pages, tokenize)
    {
      enriched, made := item, lookups;
      if !("player" in item) || !("position" in item) {
        if "player" in item && item["player"] != "Unknown" {
          var position := GetPlayerPosition(item["player"], Get(item, "team"), clock(lookups), cacheDuration,
                                            pages(lookups), tokenize);
          made := lookups + 1;
          if Truthy(position) && !Truthy(Get(item, "position")) {
            enriched := item["position" := position.value];
          }
        }
      }
    }

    /** enrich_items_with_positions, updating the item dictionaries in place.
        The first lookup reads clock value 0 and page 0; each later lookup
        reads its own. */
    method EnrichItemsWithPositions(items: array<Item>, enabled: bool, cacheDuration: int,
                                    clock: nat -> int, pages: nat -> Option<string>,
                                    tokenize: string -> Option<seq<Event>>)
      modifies this, items
      ensures !enabled ==> items[..] == old(items[..]) && Cache() == old(Cache())
      ensures enabled ==>
        var first := DepthChartLookup(old(Cache()), clock(0), cacheDuration, pages(0), tokenize);
        var r := EnrichRun(first.state, 1, old(items[..]), cacheDuration, clock, pages, tokenize);
        Cache() == r.cache && items[..] == r.items
    {
      if !enabled {
        return;
      }
      var _ := FetchDepthChart(clock(0), cacheDuration, pages(0), tokenize);
      ghost var start := Cache();
      var lookups: nat := 1;
      for i := 0 to items.Length
        invariant var r := EnrichRun(start, 1, old(items[..])[..i], cacheDuration, clock, pages, tokenize);
          Cache() == r.cache && items[..i] == r.items && lookups == r.lookups
        invariant items[i..] == old(items[..])[i..]
      {
        assert old(items[..])[..i + 1][..i] == old(items[..])[..i];
        assert items[i] == old(items[..])[i];
        var enriched;
        enriched, lookups := EnrichOne(items[i], lookups, cacheDuration, clock, pages, tokenize);
        items[i] := enriched;
        assert items[..i + 1] == items[..i] + [enriched];
      }
      assert old(items[..])[..items.Length] == old(items[..]);
    }
  }

  /** The news item scrape_covers_injuries builds from one injury. */
  function InjuryReportItem(inj: InjuryItem, url: string, timestamp: string): (item: Item)
    ensures item.Keys == {"title", "description", "feed_name", "team", "player", "position",
                          "status", "pubDate", "link"}
  {
    map[
      "title" := OrElse(inj.player, "Unknown Player") + " - " + OrElse(inj.status, "Status Unknown"),
      "description" := "Position: " + OrElse(inj.position, "N/A") + ", Status: " + OrElse(inj.status, "N/A"),
      "feed_name" := "Covers.com Injury Report",
      "team" := OrElse(inj.team, "Unknown"),
      "player" := OrElse(inj.player, "Unknown"),
      "position" := OrElse(inj.position, "N/A"),
      "status" := OrElse(inj.status, "N/A"),
      "pubDate" := timestamp,
      "link" := url
    ]
  }

  /** injury.get(key, default): the field's value, or the default when the
      parser never set it. */
  function OrElse(field: Option<string>, default: string): (r: string)
    ensures field.Some? ==> r == field.value
    ensures field.None? ==> r == default
  {
    if field.Some? then field.value else default
  }

  /** Each field of the item: the injury's value when the parser set it, else
      the field's default, "Unknown" for the team and the player and "N/A"
      for the position and the status; the feed name is fixed, and the link
      and date are the page's URL and the scrape time. */
  lemma InjuryReportItemFields(inj: InjuryItem, url: string, timestamp: string)
    ensures var item := InjuryReportItem(inj, url, timestamp);
      && item["feed_name"] == "Covers.com Injury Report"
      && item["link"] == url && item["pubDate"] == timestamp
      && item["player"] == OrElse(inj.player, "Unknown")
      && item["position"] == OrElse(inj.position, "N/A")
      && item["status"] == OrElse(inj.status, "N/A")
      && item["team"] == OrElse(inj.team, "Unknown")
      && item["title"] == OrElse(inj.player, "Unknown Player") + " - " + OrElse(inj.status, "Status Unknown")
      && item["description"] == "Position: " + item["position"] + ", Status: " + item["status"]
  {
  }

  /** The title names the player, or "Unknown Player", then the status, or
      "Status Unknown"; the description gives the position and then the
      status. */
  lemma InjuryReportItemText(inj: InjuryItem, url: string, timestamp: string)
    ensures var item := InjuryReportItem(inj, url, timestamp);
      && StartsWith(item["title"], OrElse(inj.player, "Unknown Player") + " - ")
      && EndsWith(item["title"], " - " + OrElse(inj.status, "Status Unknown"))
      && StartsWith(item["description"], "Position: " + item["position"] + ", Status: ")
      && EndsWith(item["description"], ", Status: " + item["status"])
  {
    InjuryReportItemFields(inj, url, timestamp);
    var item := InjuryReportItem(inj, url, timestamp);
    Around(OrElse(inj.player, "Unknown Player"), " - ", OrElse(inj.status, "Status Unknown"));
    Around("Position: " + item["position"], ", Status: ", item["status"]);
  }

  /** The items scrape_covers_injuries returns. */
  function CoversItems(url: string, page: Option<string>, tokenize: string -> Option<seq<Event>>,
                       timestamp: string): seq<Item>
  {
    if page.None? || page.value == "" || tokenize(page.value).None? then []
    else
      var injuries := InjuryRun(InjuryFresh, tokenize(page.value).value).injuries;
      seq(|injuries|, k requires 0 <= k < |injuries| => InjuryReportItem(injuries[k], url, timestamp))
  }

  /** One news item per stored injury, each naming that injury's player. */
  lemma CoversItemsNamePlayers(url: string, page: Option<string>, tokenize: string -> Option<seq<Event>>,
                               timestamp: string)
    requires page.Some? && page.value != "" && tokenize(page.value).Some?
    ensures var injuries := InjuryRun(InjuryFresh, tokenize(page.value).value).injuries;
      var items := CoversItems(url, page, tokenize, timestamp);
      && |items| == |injuries|
      && forall k :: 0 <= k < |items| ==> injuries[k].player.Some? && items[k]["player"] == injuries[k].player.value
  {
    var injuries := InjuryRun(InjuryFresh, tokenize(page.value).value).injuries;
    InjuryRunKeepsInv(InjuryFresh, tokenize(page.value).value);
    forall k | 0 <= k < |injuries| {
      InjuryReportItemFields(injuries[k], url, timestamp);
    }
  }
}
