/** What the crawl of one channel guarantees (src/crawl.py), proved on the functions of `Crawl`. */
module CrawlProperties {
  import opened Wrappers
  import opened Markup
  import opened MessageParser
  import opened MessageParserProperties
  import opened ChannelParser
  import opened Crawl

  // ---------------------------------------------------------------------------
  // Requests.

  /** Without a cursor, and with an empty one, the crawl loads the main page; a cursor loads the
      page it names under https://t.me. */
  lemma FeedRequestShape(channel: string, cursor: Option<string>)
    ensures FeedRequest(channel, cursor).MainPage? <==> cursor.None? || cursor.value == ""
    ensures FeedRequest(channel, cursor).MainPage? ==> FeedRequest(channel, cursor).url == "https://t.me/s/" + channel
    ensures FeedRequest(channel, cursor).MorePage? ==> FeedRequest(channel, cursor).url == "https://t.me" + cursor.value
  {
  }

  /** The page after a loaded page: its `rel=prev` link when there is one (an empty one sends the
      crawl back to the main page, even when a "load more" anchor is there too), else its
      "load more" anchor, else the main page again. */
  lemma NextRequestOf(channel: string, page: Page)
    ensures page.prevHref.Some? && page.prevHref.value != "" ==>
      FeedRequest(channel, CursorOf(page)) == MorePage("https://t.me" + page.prevHref.value)
    ensures page.prevHref.None? && page.moreHref.Some? && page.moreHref.value != "" ==>
      FeedRequest(channel, CursorOf(page)) == MorePage("https://t.me" + page.moreHref.value)
    ensures FeedRequest(channel, CursorOf(page)).MainPage? <==>
      (page.prevHref.Some? && page.prevHref.value == "")
      || (page.prevHref.None? && (page.moreHref.None? || page.moreHref.value == ""))
    ensures FeedRequest(channel, CursorOf(page)).MainPage? ==>
      FeedRequest(channel, CursorOf(page)) == MainPage("https://t.me/s/" + channel)
  {
    FeedRequestShape(channel, CursorOf(page));
  }

  // ---------------------------------------------------------------------------
  // Album children.

  /** The posts of an album load exactly when every link is fetched and parsed; the i-th child is
      then the i-th post. */
  lemma {:induction false} ParseAllOk(web: Web, links: seq<string>)
    ensures ParseAll(web, links).Ok? <==>
      forall i :: 0 <= i < |links| ==> FetchPost(web, links[i]).Ok? && ParseMessage(FetchPost(web, links[i]).value).Ok?
    ensures ParseAll(web, links).Ok? ==>
      forall i :: 0 <= i < |links| ==> ParseAll(web, links).value[i] == ParseMessage(FetchPost(web, links[i]).value).value
  {
    if |links| > 0 {
      ParseAllOk(web, links[1..]);
      forall i | 1 <= i < |links| ensures links[1..][i - 1] == links[i] { }
    }
  }

  /** A message that is not an album is left as it is. An album keeps everything but its
      children, which are either all of its posts, in link order and with the parent's channel
      id, or none at all: one failing post empties the list. */
  lemma AlbumHandledShape(web: Web, m: RawMessage)
    ensures !m.album.isAlbum ==> AlbumHandled(web, m) == m
    ensures var r := AlbumHandled(web, m);
      && r.(album := m.album) == m
      && r.album.isAlbum == m.album.isAlbum && r.album.links == m.album.links
    ensures m.album.isAlbum ==>
      var kids := AlbumHandled(web, m).album.messages;
      if forall i :: 0 <= i < |m.album.links| ==>
           FetchPost(web, m.album.links[i]).Ok? && ParseMessage(FetchPost(web, m.album.links[i]).value).Ok?
      then |kids| == |m.album.links|
        && forall i :: 0 <= i < |kids| ==>
             kids[i] == ParseMessage(FetchPost(web, m.album.links[i]).value).value.(channelId := m.channelId)
      else kids == []
  {
    ParseAllOk(web, m.album.links);
  }

  // ---------------------------------------------------------------------------
  // Forwarded originals.

  /** A message that is not forwarded is left as it is. A forwarded one keeps everything but its
      header; the header's original is resolved exactly when the link is present and non-empty
      and its post is fetched and parsed, and is the empty dictionary otherwise, in which case
      the rest of the header is unchanged. */
  lemma ForwardHandledShape(web: Web, m: RawMessage)
    ensures m.forwarded.None? ==> ForwardHandled(web, m) == m
    ensures var r := ForwardHandled(web, m);
      && r.(forwarded := m.forwarded) == m
      && r.forwarded.Some? == m.forwarded.Some?
    ensures m.forwarded.Some? ==>
      var h, r := m.forwarded.value, ForwardHandled(web, m).forwarded.value;
      var fetched := Truthy(h.link) && FetchPost(web, h.link.value).Ok? && ParseMessage(FetchPost(web, h.link.value).value).Ok?;
      && (r.original.Resolved? <==> fetched)
      && (fetched ==>
            && r.original.message == ParseMessage(FetchPost(web, h.link.value).value).value
            && r.channelId == ChannelIdOf(FetchPost(web, h.link.value).value)
            && r.published == r.original.message.published)
      && (!fetched ==> r == h.(original := Empty))
  {
  }

  // ---------------------------------------------------------------------------
  // Pages.

  /** A record whose channel id, and each of whose album children's, is cleared. */
  predicate Cleared(m: RawMessage)
  {
    m.channelId.None? && forall j :: 0 <= j < |m.album.messages| ==> m.album.messages[j].channelId.None?
  }

  predicate ChannelIdsCleared(ms: seq<RawMessage>)
  {
    forall i :: 0 <= i < |ms| ==> Cleared(ms[i])
  }

  /** An album's children take the parent's channel id, and the album step keeps the parent's. */
  lemma AlbumHandledChannelIds(web: Web, m: RawMessage)
    ensures AlbumHandled(web, m).channelId == m.channelId
    ensures m.album.isAlbum ==> forall j :: 0 <= j < |AlbumHandled(web, m).album.messages| ==>
      AlbumHandled(web, m).album.messages[j].channelId == m.channelId
    ensures !m.album.isAlbum ==> AlbumHandled(web, m) == m
  {
  }

  /** The forwarded step touches neither the channel id nor the album. */
  lemma ForwardHandledKeeps(web: Web, a: RawMessage)
    ensures ForwardHandled(web, a).channelId == a.channelId && ForwardHandled(web, a).album == a.album
  {
  }

  /** Every record the crawl hands on has its channel id, and its children's, cleared. */
  lemma HandleMessageClears(web: Web, f: MessageFragment)
    requires HandleMessage(web, f).Ok?
    ensures Cleared(HandleMessage(web, f).value)
  {
    ParsedHasNoChildren(f);
    var m := ParseMessage(f).value.(channelId := None);
    AlbumHandledChannelIds(web, m);
    ForwardHandledKeeps(web, AlbumHandled(web, m));
    assert HandleMessage(web, f).value == ForwardHandled(web, AlbumHandled(web, m));
  }

  /** The records one page appends, one per message. */
  function Handled(web: Web, frags: seq<MessageFragment>): seq<RawMessage>
    requires forall i :: 0 <= i < |frags| ==> HandleMessage(web, frags[i]).Ok?
  {
    seq(|frags|, i requires 0 <= i < |frags| && HandleMessage(web, frags[i]).Ok? => HandleMessage(web, frags[i]).value)
  }

  /** A page raises exactly when one of its messages does. */
  lemma {:induction false} HandlePageOk(web: Web, frags: seq<MessageFragment>, acc: seq<RawMessage>)
    ensures HandlePage(web, frags, acc).Ok? <==> forall i :: 0 <= i < |frags| ==> HandleMessage(web, frags[i]).Ok?
  {
    if |frags| > 0 {
      forall i | 1 <= i < |frags| ensures frags[1..][i - 1] == frags[i] { }
      if HandleMessage(web, frags[0]).Ok? {
        HandlePageOk(web, frags[1..], acc + [HandleMessage(web, frags[0]).value]);
      }
    }
  }

  /** A page's messages are appended once each, in page order, after what was gathered before. */
  lemma {:induction false} HandlePageAppends(web: Web, frags: seq<MessageFragment>, acc: seq<RawMessage>)
    requires forall i :: 0 <= i < |frags| ==> HandleMessage(web, frags[i]).Ok?
    ensures HandlePage(web, frags, acc) == Ok(acc + Handled(web, frags))
  {
    if |frags| > 0 {
      forall i | 0 <= i < |frags| - 1 ensures HandleMessage(web, frags[1..][i]).Ok? {
        assert frags[1..][i] == frags[i + 1];
      }
      var m := HandleMessage(web, frags[0]).value;
      HandlePageAppends(web, frags[1..], acc + [m]);
      assert [m] + Handled(web, frags[1..]) == Handled(web, frags) by {
        forall i | 1 <= i < |frags| ensures Handled(web, frags[1..])[i - 1] == Handled(web, frags)[i] {
          assert frags[1..][i - 1] == frags[i];
        }
      }
      assert acc + [m] + Handled(web, frags[1..]) == acc + ([m] + Handled(web, frags[1..]));
    } else {
      assert acc + Handled(web, frags) == acc;
    }
  }

  lemma HandlePageClears(web: Web, frags: seq<MessageFragment>, acc: seq<RawMessage>)
    requires ChannelIdsCleared(acc) && HandlePage(web, frags, acc).Ok?
    ensures ChannelIdsCleared(HandlePage(web, frags, acc).value)
  {
    HandlePageOk(web, frags, acc);
    HandlePageAppends(web, frags, acc);
    var r := acc + Handled(web, frags);
    forall i | 0 <= i < |r|
      ensures Cleared(r[i])
    {
      if i >= |acc| {
        HandleMessageClears(web, frags[i - |acc|]);
        assert r[i] == HandleMessage(web, frags[i - |acc|]).value;
      }
    }
  }

  // ---------------------------------------------------------------------------
  // The whole crawl.

  /** What was gathered before is a prefix of what the crawl returns. */
  lemma {:induction false} HistoryKeepsPrefix(web: Web, channel: string, limit: int, pages: nat, msgs: seq<RawMessage>,
                                              cursor: Option<string>, publisher: Option<PublisherData>)
    requires HistoryFrom(web, channel, limit, pages, msgs, cursor, publisher).Ok?
    ensures msgs <= HistoryFrom(web, channel, limit, pages, msgs, cursor, publisher).value.messages
    decreases pages
  {
    if |msgs| < limit && pages > 0 && web.feed(FeedRequest(channel, cursor)).Some? {
      var page := web.feed(FeedRequest(channel, cursor)).value;
      var publisher' := if publisher.None? then PublisherOf(page).value else publisher;
      HandlePageOk(web, page.messages, msgs);
      HandlePageAppends(web, page.messages, msgs);
      var msgs' := HandlePage(web, page.messages, msgs).value;
      HistoryKeepsPrefix(web, channel, limit, pages - 1, msgs', CursorOf(page), publisher');
    }
  }

  /** A page that cannot be loaded, or whose parser cannot be built, ends the crawl with the
      messages gathered so far and the publisher known so far. */
  lemma HistoryFeedFailed(web: Web, channel: string, limit: int, pages: nat, msgs: seq<RawMessage>,
                          cursor: Option<string>, publisher: Option<PublisherData>)
    requires |msgs| < limit && pages > 0 && web.feed(FeedRequest(channel, cursor)).None?
    ensures HistoryFrom(web, channel, limit, pages, msgs, cursor, publisher) == Ok(History(msgs, publisher, FeedFailed))
  {
  }

  /** A loaded page propagates the exceptions raised outside the `try`: the first page's
      unreadable header, or a message that does not parse, makes the whole crawl raise. */
  lemma HistoryPageRaises(web: Web, channel: string, limit: int, pages: nat, msgs: seq<RawMessage>,
                          cursor: Option<string>, publisher: Option<PublisherData>)
    requires |msgs| < limit && pages > 0 && web.feed(FeedRequest(channel, cursor)).Some?
    requires var page := web.feed(FeedRequest(channel, cursor)).value;
      (publisher.None? && PublisherOf(page).Raised?)
      || (exists i :: 0 <= i < |page.messages| && HandleMessage(web, page.messages[i]).Raised?)
    ensures HistoryFrom(web, channel, limit, pages, msgs, cursor, publisher).Raised?
  {
    var page := web.feed(FeedRequest(channel, cursor)).value;
    if !(publisher.None? && PublisherOf(page).Raised?) {
      HandlePageOk(web, page.messages, msgs);
    }
  }

  /** Once known, the publisher is never replaced. */
  lemma {:induction false} HistoryKeepsPublisher(web: Web, channel: string, limit: int, pages: nat, msgs: seq<RawMessage>,
                                                 cursor: Option<string>, publisher: Option<PublisherData>)
    requires publisher.Some?
    requires HistoryFrom(web, channel, limit, pages, msgs, cursor, publisher).Ok?
    ensures HistoryFrom(web, channel, limit, pages, msgs, cursor, publisher).value.publisher == publisher
    decreases pages
  {
    if |msgs| < limit && pages > 0 && web.feed(FeedRequest(channel, cursor)).Some? {
      var page := web.feed(FeedRequest(channel, cursor)).value;
      var msgs' := HandlePage(web, page.messages, msgs).value;
      HistoryKeepsPublisher(web, channel, limit, pages - 1, msgs', CursorOf(page), publisher);
    }
  }

  /** The publisher is the header of the first loaded page that has one: once found it is the
      crawl's publisher. */
  lemma HistoryFirstPublisher(web: Web, channel: string, limit: int, pages: nat, msgs: seq<RawMessage>,
                              cursor: Option<string>, page: Page, p: PublisherData)
    requires |msgs| < limit && pages > 0 && web.feed(FeedRequest(channel, cursor)) == Some(page)
    requires PublisherOf(page) == Ok(Some(p))
    requires HistoryFrom(web, channel, limit, pages, msgs, cursor, None).Ok?
    ensures HistoryFrom(web, channel, limit, pages, msgs, cursor, None).value.publisher == Some(p)
  {
    HistoryKeepsPublisher(web, channel, limit, pages - 1, HandlePage(web, page.messages, msgs).value, CursorOf(page), Some(p));
  }

  /** A loaded page without a channel header leaves the publisher unknown, and the crawl goes on
      to the next page still looking for one. */
  lemma HistoryHeaderlessPage(web: Web, channel: string, limit: int, pages: nat, msgs: seq<RawMessage>,
                              cursor: Option<string>, page: Page)
    requires |msgs| < limit && pages > 0 && web.feed(FeedRequest(channel, cursor)) == Some(page)
    requires PublisherOf(page) == Ok(None) && HandlePage(web, page.messages, msgs).Ok?
    ensures HistoryFrom(web, channel, limit, pages, msgs, cursor, None)
         == HistoryFrom(web, channel, limit, pages - 1, HandlePage(web, page.messages, msgs).value, CursorOf(page), None)
  {
  }

  /** The crawl reports reaching the limit exactly when it has gathered at least `limit`
      messages. */
  lemma {:induction false} HistoryHalt(web: Web, channel: string, limit: int, pages: nat, msgs: seq<RawMessage>,
                                       cursor: Option<string>, publisher: Option<PublisherData>)
    requires HistoryFrom(web, channel, limit, pages, msgs, cursor, publisher).Ok?
    ensures var h := HistoryFrom(web, channel, limit, pages, msgs, cursor, publisher).value;
      h.halt == LimitReached <==> |h.messages| >= limit
    decreases pages
  {
    if |msgs| < limit && pages > 0 && web.feed(FeedRequest(channel, cursor)).Some? {
      var page := web.feed(FeedRequest(channel, cursor)).value;
      var publisher' := if publisher.None? then PublisherOf(page).value else publisher;
      var msgs' := HandlePage(web, page.messages, msgs).value;
      HistoryHalt(web, channel, limit, pages - 1, msgs', CursorOf(page), publisher');
    }
  }

  /** Since the limit is only checked between pages, the crawl can overshoot it, but by less than
      one page: with pages of at most `n` messages it returns fewer than `limit + n`. */
  lemma {:induction false} HistoryOvershoot(web: Web, channel: string, limit: int, pages: nat, msgs: seq<RawMessage>,
                                            cursor: Option<string>, publisher: Option<PublisherData>, n: nat)
    requires forall req :: web.feed(req).Some? ==> |web.feed(req).value.messages| <= n
    requires |msgs| < limit + n
    requires HistoryFrom(web, channel, limit, pages, msgs, cursor, publisher).Ok?
    ensures |HistoryFrom(web, channel, limit, pages, msgs, cursor, publisher).value.messages| < limit + n
    decreases pages
  {
    if |msgs| < limit && pages > 0 && web.feed(FeedRequest(channel, cursor)).Some? {
      var page := web.feed(FeedRequest(channel, cursor)).value;
      var publisher' := if publisher.None? then PublisherOf(page).value else publisher;
      HandlePageOk(web, page.messages, msgs);
      HandlePageAppends(web, page.messages, msgs);
      var msgs' := HandlePage(web, page.messages, msgs).value;
      HistoryOvershoot(web, channel, limit, pages - 1, msgs', CursorOf(page), publisher', n);
    }
  }

  /** Every message the crawl returns has no channel id, nor has any of its album children. */
  lemma {:induction false} HistoryClearsChannelIds(web: Web, channel: string, limit: int, pages: nat, msgs: seq<RawMessage>,
                                                   cursor: Option<string>, publisher: Option<PublisherData>)
    requires ChannelIdsCleared(msgs)
    requires HistoryFrom(web, channel, limit, pages, msgs, cursor, publisher).Ok?
    ensures ChannelIdsCleared(HistoryFrom(web, channel, limit, pages, msgs, cursor, publisher).value.messages)
    decreases pages
  {
    if |msgs| < limit && pages > 0 && web.feed(FeedRequest(channel, cursor)).Some? {
      var page := web.feed(FeedRequest(channel, cursor)).value;
      var publisher' := if publisher.None? then PublisherOf(page).value else publisher;
      HandlePageClears(web, page.messages, msgs);
      var msgs' := HandlePage(web, page.messages, msgs).value;
      HistoryClearsChannelIds(web, channel, limit, pages - 1, msgs', CursorOf(page), publisher');
    }
  }

  /** A main page without a cursor is loaded again and again: a channel whose main page has
      messages and no cursor is crawled until the limit, repeating that page. */
  lemma {:induction false} MainPageRepeats(web: Web, channel: string, limit: int, pages: nat, msgs: seq<RawMessage>,
                                           publisher: Option<PublisherData>, page: Page)
    requires web.feed(MainPage("https://t.me/s/" + channel)) == Some(page)
    requires CursorOf(page).None? && |page.messages| > 0 && PublisherOf(page).Ok?
    requires forall i :: 0 <= i < |page.messages| ==> HandleMessage(web, page.messages[i]).Ok?
    requires pages >= limit - |msgs|
    ensures HistoryFrom(web, channel, limit, pages, msgs, None, publisher).Ok?
    ensures HistoryFrom(web, channel, limit, pages, msgs, None, publisher).value.halt == LimitReached
    decreases pages
  {
    if |msgs| < limit {
      assert FeedRequest(channel, None) == MainPage("https://t.me/s/" + channel);
      var publisher' := if publisher.None? then PublisherOf(page).value else publisher;
      HandlePageAppends(web, page.messages, msgs);
      var msgs' := HandlePage(web, page.messages, msgs).value;
      MainPageRepeats(web, channel, limit, pages - 1, msgs', publisher', page);
    }
  }
}
