/** The crawl of one channel (src/crawl.py): pages of the feed are fetched newest first, each
    message is parsed, its album children and its forwarded original are fetched, and the cursor
    of each page names the next. The network is a parameter: `Web` answers each request with a
    page (or a post fragment), or with nothing when the request or the parser construction fails. */
module Crawl {
  import opened Wrappers
  import opened Markup
  import opened MessageParser
  import opened ChannelParser

  /** The two kinds of feed request: the channel's main page, or the "load more" page a cursor
      points to. */
  datatype Request = MainPage(url: string) | MorePage(url: string)

  datatype Web = Web(feed: Request -> Option<Page>, post: string -> Option<MessageFragment>)

  /** `load_channel_feed`: a non-empty cursor loads the page it points to; no cursor, or an
      empty one, loads the main page again. */
  function FeedRequest(channel: string, cursor: Option<string>): Request
  {
    if cursor.Some? && cursor.value != "" then MorePage("https://t.me" + cursor.value) else MainPage("https://t.me/s/" + channel)
  }

  /** `load_single_post`'s address for a post link. */
  function PostUrl(link: string): string { link + "?embed=1&single=1" }

  /** `load_single_post`: a failed request raises. */
  function FetchPost(web: Web, link: string): Result<MessageFragment>
  {
    if web.post(PostUrl(link)).None? then Raised else Ok(web.post(PostUrl(link)).value)
  }

  /** Fetching and parsing every link in turn: any failure raises. */
  function ParseAll(web: Web, links: seq<string>): (r: Result<seq<RawMessage>>)
    ensures r.Ok? ==> |r.value| == |links|
  {
    if |links| == 0 then Ok([])
    else
      var f :- FetchPost(web, links[0]);
      var m :- ParseMessage(f);
      var rest :- ParseAll(web, links[1..]);
      Ok([m] + rest)
  }

  /** Every child takes the parent's channel id. */
  function WithChannelId(ms: seq<RawMessage>, channelId: Option<string>): seq<RawMessage>
  {
    seq(|ms|, i requires 0 <= i < |ms| => ms[i].(channelId := channelId))
  }

  /** `handle_album_message` on a value: an album's children are its fetched posts, or none at
      all when any of them fails. */
  function AlbumHandled(web: Web, m: RawMessage): RawMessage
  {
    if !m.album.isAlbum then m
    else
      match ParseAll(web, m.album.links)
      case Raised => m.(album := m.album.(messages := []))
      case Ok(children) => m.(album := m.album.(messages := WithChannelId(children, m.channelId)))
  }

  /** A link Python treats as true: present and non-empty. */
  predicate Truthy(link: Option<string>) { link.Some? && link.value != "" }

  /** The forwarded original's fetch: the header is only completed when the post is fetched and
      parsed; otherwise it keeps the empty original. */
  function Resolve(web: Web, h: ForwardedHeader): ForwardedHeader
    requires h.link.Some?
  {
    match FetchPost(web, h.link.value)
    case Raised => h
    case Ok(f) =>
      match ParseMessage(f)
      case Raised => h
      case Ok(o) => h.(original := Resolved(o), channelId := ChannelIdOf(f), published := o.published)
  }

  /** `handle_forwarded_message` on a value. */
  function ForwardHandled(web: Web, m: RawMessage): RawMessage
  {
    if m.forwarded.None? then m
    else
      var h := m.forwarded.value.(original := Empty);
      m.(forwarded := Some(if Truthy(h.link) then Resolve(web, h) else h))
  }

  /** The handling of one message of a page: a parse failure raises out of the crawl. */
  function HandleMessage(web: Web, f: MessageFragment): Result<RawMessage>
  {
    var m :- ParseMessage(f);
    Ok(ForwardHandled(web, AlbumHandled(web, m.(channelId := None))))
  }

  /** The messages of one page appended to `acc`, in page order. */
  function HandlePage(web: Web, frags: seq<MessageFragment>, acc: seq<RawMessage>): Result<seq<RawMessage>>
  {
    if |frags| == 0 then Ok(acc)
    else
      var m :- HandleMessage(web, frags[0]);
      HandlePage(web, frags[1..], acc + [m])
  }

  /** Why the crawl stopped: the limit was reached, a feed page could not be loaded, or the
      page budget of the model ran out. */
  datatype Halt = LimitReached | FeedFailed | OutOfPages

  datatype History = History(messages: seq<RawMessage>, publisher: Option<PublisherData>, halt: Halt)

  /** `get_history` from a given state, with at most `pages` more page loads. The limit is only
      checked before each page; the publisher is taken from the first page that has a header. */
  function HistoryFrom(web: Web, channel: string, limit: int, pages: nat, msgs: seq<RawMessage>, cursor: Option<string>,
                       publisher: Option<PublisherData>): Result<History>
    decreases pages
  {
    if |msgs| >= limit then Ok(History(msgs, publisher, LimitReached))
    else if pages == 0 then Ok(History(msgs, publisher, OutOfPages))
    else
      match web.feed(FeedRequest(channel, cursor))
      case None => Ok(History(msgs, publisher, FeedFailed))
      case Some(page) =>
        var publisher' :- if publisher.None? then PublisherOf(page) else Ok(publisher);
        var msgs' :- HandlePage(web, page.messages, msgs);
        HistoryFrom(web, channel, limit, pages - 1, msgs', CursorOf(page), publisher')
  }

  // ---------------------------------------------------------------------------
  // The crawler's methods.

  /** `load_multiple_posts` followed by the parse of each post. */
  method LoadAndParse(web: Web, links: seq<string>) returns (r: Result<seq<RawMessage>>)
    ensures r == ParseAll(web, links)
  {
    var fragments: seq<MessageFragment> := [];
    var i := 0;
    while i < |links|
      invariant 0 <= i <= |links| && |fragments| == i
      invariant forall j :: 0 <= j < i ==> FetchPost(web, links[j]) == Ok(fragments[j])
    {
      var f := web.post(PostUrl(links[i]));
      if f.None? {
        ParseAllFetchFails(web, links, i);
        return Raised;
      }
      fragments := fragments + [f.value];
      i := i + 1;
    }
    var parsed: seq<RawMessage> := [];
    i := 0;
    while i < |fragments|
      invariant 0 <= i <= |fragments| && |parsed| == i
      invariant forall j :: 0 <= j < i ==> ParseMessage(fragments[j]) == Ok(parsed[j])
    {
      var m := Parse(fragments[i]);
      if m.Raised? {
        ParseAllParseFails(web, links, fragments, i);
        return Raised;
      }
      parsed := parsed + [m.value];
      i := i + 1;
    }
    ParseAllSucceeds(web, links, fragments, parsed);
    r := Ok(parsed);
  }

  /** `handle_album_message`. */
  method HandleAlbumMessage(web: Web, message: RawMessage) returns (r: RawMessage)
    ensures r == AlbumHandled(web, message)
  {
    r := message;
    if message.album.isAlbum {
      var loaded := LoadAndParse(web, message.album.links);
      if loaded.Raised? {
        r := message.(album := message.album.(messages := []));
        return;
      }
      var children := loaded.value;
      var i := 0;
      while i < |children|
        invariant 0 <= i <= |children| == |loaded.value|
        invariant forall j :: 0 <= j < i ==> children[j] == loaded.value[j].(channelId := message.channelId)
        invariant forall j :: i <= j < |children| ==> children[j] == loaded.value[j]
      {
        children := children[i := children[i].(channelId := message.channelId)];
        i := i + 1;
      }
      assert children == WithChannelId(loaded.value, message.channelId);
      r := message.(album := message.album.(messages := children));
    }
  }

  /** `handle_forwarded_message`. */
  method HandleForwardedMessage(web: Web, message: RawMessage) returns (r: RawMessage)
    ensures r == ForwardHandled(web, message)
  {
    r := message;
    if message.forwarded.Some? {
      var header := message.forwarded.value.(original := Empty);
      r := r.(forwarded := Some(header));
      if header.link.Some? && header.link.value != "" {
        var f := web.post(PostUrl(header.link.value));
        if f.None? {
          return;
        }
        var parsed := Parse(f.value);
        if parsed.Raised? {
          return;
        }
        header := header.(original := Resolved(parsed.value));
        header := header.(channelId := ChannelIdOf(f.value));
        header := header.(published := parsed.value.published);
        r := r.(forwarded := Some(header));
      }
    }
  }

  /** The loop of `get_history` over the messages of one page. */
  method HandlePageMessages(web: Web, frags: seq<MessageFragment>, start: seq<RawMessage>) returns (r: Result<seq<RawMessage>>)
    ensures r == HandlePage(web, frags, start)
  {
    var messages := start;
    var i := 0;
    while i < |frags|
      invariant 0 <= i <= |frags|
      invariant HandlePage(web, frags[i..], messages) == HandlePage(web, frags, start)
    {
      assert frags[i..][1..] == frags[i + 1..];
      var parsed := Parse(frags[i]);
      if parsed.Raised? {
        return Raised;
      }
      var message := parsed.value.(channelId := None);
      message := HandleAlbumMessage(web, message);
      message := HandleForwardedMessage(web, message);
      messages := messages + [message];
      i := i + 1;
    }
    r := Ok(messages);
  }

  /** `get_history(channel, limit)`, with at most `pages` page loads. */
  method GetHistory(web: Web, channel: string, limit: int, pages: nat) returns (r: Result<History>)
    ensures r == HistoryFrom(web, channel, limit, pages, [], None, None)
  {
    var messages: seq<RawMessage> := [];
    var cursor: Option<string> := None;
    var publisher: Option<PublisherData> := None;
    var left := pages;
    while |messages| < limit
      invariant HistoryFrom(web, channel, limit, left, messages, cursor, publisher)
        == HistoryFrom(web, channel, limit, pages, [], None, None)
      decreases left
    {
      if left == 0 {
        return Ok(History(messages, publisher, OutOfPages));
      }
      var page := web.feed(FeedRequest(channel, cursor));
      if page.None? {
        break;
      }
      if publisher.None? {
        var info := ExtractPublisherInfo(page.value);
        if info.Raised? {
          return Raised;
        }
        publisher := info.value;
      }
      var handled := HandlePageMessages(web, page.value.messages, messages);
      if handled.Raised? {
        return Raised;
      }
      messages := handled.value;
      cursor := CursorOf(page.value);
      left := left - 1;
    }
    if |messages| >= limit {
      r := Ok(History(messages, publisher, LimitReached));
    } else {
      r := Ok(History(messages, publisher, FeedFailed));
    }
  }

  // ---------------------------------------------------------------------------
  // Lemmas for the methods.

  lemma {:induction false} ParseAllFetchFails(web: Web, links: seq<string>, i: nat)
    requires i < |links| && FetchPost(web, links[i]).Raised?
    ensures ParseAll(web, links).Raised?
  {
    if i > 0 {
      assert links[1..][i - 1] == links[i];
      ParseAllFetchFails(web, links[1..], i - 1);
    }
  }

  lemma {:induction false} ParseAllParseFails(web: Web, links: seq<string>, fragments: seq<MessageFragment>, i: nat)
    requires i < |fragments| == |links|
    requires forall j :: 0 <= j < |links| ==> FetchPost(web, links[j]) == Ok(fragments[j])
    requires ParseMessage(fragments[i]).Raised?
    ensures ParseAll(web, links).Raised?
  {
    if i > 0 {
      if ParseMessage(fragments[0]).Ok? {
        forall j | 0 <= j < |links| - 1 ensures FetchPost(web, links[1..][j]) == Ok(fragments[1..][j]) {
          assert links[1..][j] == links[j + 1];
        }
        ParseAllParseFails(web, links[1..], fragments[1..], i - 1);
      }
    }
  }

  lemma {:induction false} ParseAllSucceeds(web: Web, links: seq<string>, fragments: seq<MessageFragment>, parsed: seq<RawMessage>)
    requires |links| == |fragments| == |parsed|
    requires forall j :: 0 <= j < |links| ==> FetchPost(web, links[j]) == Ok(fragments[j])
    requires forall j :: 0 <= j < |links| ==> ParseMessage(fragments[j]) == Ok(parsed[j])
    ensures ParseAll(web, links) == Ok(parsed)
  {
    if |links| > 0 {
      forall j | 0 <= j < |links| - 1
        ensures FetchPost(web, links[1..][j]) == Ok(fragments[1..][j])
        ensures ParseMessage(fragments[1..][j]) == Ok(parsed[1..][j])
      {
        assert links[1..][j] == links[j + 1];
      }
      ParseAllSucceeds(web, links[1..], fragments[1..], parsed[1..]);
      assert parsed == [parsed[0]] + parsed[1..];
    }
  }
}
