/** config.py: the module-level RSS feed list and the helpers that edit and
    query it, plus the refresh interval chosen by feed priority. The global
    list becomes the field of a FeedConfig object. */
module Config {
  import opened Base

  /** One entry of RSS_FEEDS. */
  datatype Feed = Feed(url: string, name: string, enabled: bool, priority: int)

  /** The list RSS_FEEDS starts with. */
  const DefaultFeeds: seq<Feed> :=
    [Feed("https://rss.app/feeds/3j65xfmG9wfdJGvl.xml", "Custom RSS Feed", true, 1)]

  /** FEED_REFRESH_INTERVALS, in seconds. */
  const DefaultInterval: int := 3600
  const HighPriorityInterval: int := 1800
  const LowPriorityInterval: int := 7200

  /** The feeds whose URL differs from `url`, in order: every copy of such a
      feed is kept, and no copy of a feed with that URL. */
  function WithoutUrl(feeds: seq<Feed>, url: string): (r: seq<Feed>)
    ensures forall i :: 0 <= i < |r| ==> r[i].url != url && r[i] in feeds
    ensures forall i :: 0 <= i < |feeds| && feeds[i].url != url ==> feeds[i] in r
    ensures IsSubsequence(r, feeds)
    ensures forall f :: multiset(r)[f] == if f.url != url then multiset(feeds)[f] else 0
  {
    var keep := (f: Feed) => f.url != url;
    FilterIsSubsequence(feeds, keep);
    forall f ensures multiset(Filter(feeds, keep))[f] == if f.url != url then multiset(feeds)[f] else 0 {
      FilterCounts(feeds, keep, f);
    }
    Filter(feeds, keep)
  }

  predicate HasUrl(feeds: seq<Feed>, url: string) {
    exists i :: 0 <= i < |feeds| && feeds[i].url == url
  }

  /** get_refresh_interval: 1 is high priority, 3 low, anything else the default. */
  function RefreshInterval(priority: int): (seconds: int)
    ensures seconds == HighPriorityInterval <==> priority == 1
    ensures seconds == LowPriorityInterval <==> priority == 3
    ensures seconds == DefaultInterval <==> priority != 1 && priority != 3
  {
    var priorityMap := map[1 := HighPriorityInterval, 2 := DefaultInterval, 3 := LowPriorityInterval];
    if priority in priorityMap then priorityMap[priority] else DefaultInterval
  }

  /** A higher priority (a smaller number among 1..3) never refreshes less often. */
  lemma RefreshIntervalMonotone(p: int, q: int)
    requires 1 <= p <= q <= 3
    ensures RefreshInterval(p) <= RefreshInterval(q)
  {
  }

  class FeedConfig {
    /** RSS_FEEDS. */
    var rssFeeds: seq<Feed>

    constructor()
      ensures rssFeeds == DefaultFeeds
    {
      rssFeeds := DefaultFeeds;
    }

    /** add_rss_feed, with its defaults enabled=True and priority=1. */
    method AddRssFeed(url: string, name: string, enabled: bool := true, priority: int := 1)
      modifies this
      ensures rssFeeds == old(rssFeeds) + [Feed(url, name, enabled, priority)]
    {
      rssFeeds := rssFeeds + [Feed(url, name, enabled, priority)];
    }

    /** remove_rss_feed: drops every feed with that URL; `removed` tells
        whether the list got shorter. */
    method RemoveRssFeed(url: string) returns (removed: bool)
      modifies this
      ensures rssFeeds == WithoutUrl(old(rssFeeds), url)
      ensures removed <==> HasUrl(old(rssFeeds), url)
    {
      var initialLength := |rssFeeds|;
      rssFeeds := WithoutUrl(rssFeeds, url);
      removed := |rssFeeds| < initialLength;
      RemovalShortensIffPresent(old(rssFeeds), url);
    }

    /** get_enabled_feeds: the feeds marked enabled, in order. */
    function EnabledFeeds(): (r: seq<Feed>)
      reads this
      ensures forall i :: 0 <= i < |r| ==> r[i].enabled && r[i] in rssFeeds
      ensures forall i :: 0 <= i < |rssFeeds| && rssFeeds[i].enabled ==> rssFeeds[i] in r
      ensures IsSubsequence(r, rssFeeds)
      ensures forall f :: multiset(r)[f] == if f.enabled then multiset(rssFeeds)[f] else 0
    {
      var keep := (f: Feed) => f.enabled;
      FilterIsSubsequence(rssFeeds, keep);
      forall f ensures multiset(Filter(rssFeeds, keep))[f] == if f.enabled then multiset(rssFeeds)[f] else 0 {
        FilterCounts(rssFeeds, keep, f);
      }
      Filter(rssFeeds, keep)
    }
  }

  /** Removal shortens the list exactly when some feed has the URL; without
      such a feed the list is returned unchanged. */
  lemma RemovalShortensIffPresent(feeds: seq<Feed>, url: string)
    ensures |WithoutUrl(feeds, url)| < |feeds| <==> HasUrl(feeds, url)
    ensures !HasUrl(feeds, url) ==> WithoutUrl(feeds, url) == feeds
  {
    var keep := (f: Feed) => f.url != url;
    FilterShortens(feeds, keep);
    if HasUrl(feeds, url) {
      var i :| 0 <= i < |feeds| && feeds[i].url == url;
      assert feeds[i] in feeds && !keep(feeds[i]);
    }
  }

  /** Removing a feed just added removes it again, together with any older
      feed of the same URL. */
  lemma {:induction false} AddThenRemove(feeds: seq<Feed>, f: Feed)
    ensures WithoutUrl(feeds + [f], f.url) == WithoutUrl(feeds, f.url)
    ensures !HasUrl(feeds, f.url) ==> WithoutUrl(feeds + [f], f.url) == feeds
  {
    FilterSnoc(feeds, f, (g: Feed) => g.url != f.url);
    RemovalShortensIffPresent(feeds, f.url);
  }

  /** Removing twice is removing once. */
  lemma RemoveIdempotent(feeds: seq<Feed>, url: string)
    ensures WithoutUrl(WithoutUrl(feeds, url), url) == WithoutUrl(feeds, url)
  {
    RemovalShortensIffPresent(WithoutUrl(feeds, url), url);
  }
}
