/** `CrawlerProcess.process` (src/__init__.py): the crawl of one channel, the dispatch of its
    items to `transform`, and the records handed to `save` in order. */
module Process {
  import opened Wrappers
  import opened Markup
  import opened ChannelParser
  import opened Models
  import opened Transform
  import opened Crawl
  import opened CrawlProperties

  // ---------------------------------------------------------------------------
  // The dispatch, on values.

  /** The records one history item yields: an album yields the record of its children, or
      nothing when it has none; any other item yields its own record. */
  function DispatchOne(item: RawMessage, publisher: Option<PublisherData>): (r: seq<Post>)
    ensures |r| <= 1
    ensures r == [] <==> item.kind.Album? && |item.album.messages| == 0
  {
    if item.kind.Album? then
      if |item.album.messages| > 0 then [TransformSpec(item.album.messages, publisher)] else []
    else [TransformSpec([item], publisher)]
  }

  /** The records the items yield, in item order. */
  function Dispatch(items: seq<RawMessage>, publisher: Option<PublisherData>): seq<Post>
  {
    if |items| == 0 then [] else DispatchOne(items[0], publisher) + Dispatch(items[1..], publisher)
  }

  /** An album item that has children. */
  predicate Kept(item: RawMessage)
  {
    !item.kind.Album? || |item.album.messages| > 0
  }

  /** The number of items that yield a record. */
  function KeptCount(items: seq<RawMessage>): nat
  {
    if |items| == 0 then 0 else (if Kept(items[0]) then 1 else 0) + KeptCount(items[1..])
  }

  // ---------------------------------------------------------------------------
  // Properties of the dispatch.

  /** The records of a split list are those of its parts, in the same order. */
  lemma {:induction false} DispatchAppend(a: seq<RawMessage>, b: seq<RawMessage>, publisher: Option<PublisherData>)
    ensures Dispatch(a + b, publisher) == Dispatch(a, publisher) + Dispatch(b, publisher)
  {
    if |a| == 0 {
      assert a + b == b;
    } else {
      assert (a + b)[1..] == a[1..] + b;
      DispatchAppend(a[1..], b, publisher);
    }
  }

  /** Exactly one record per item that has one: items without a record are the empty albums, so the
      number of records falls short of the number of items by the number of empty albums. */
  lemma {:induction false} DispatchCount(items: seq<RawMessage>, publisher: Option<PublisherData>)
    ensures |Dispatch(items, publisher)| == KeptCount(items) <= |items|
    ensures |Dispatch(items, publisher)| == |items| <==> forall i :: 0 <= i < |items| ==> Kept(items[i])
  {
    if |items| > 0 {
      DispatchCount(items[1..], publisher);
      forall i | 1 <= i < |items| ensures items[1..][i - 1] == items[i] { }
      assert Kept(items[0]) <==> |DispatchOne(items[0], publisher)| == 1;
    }
  }

  /** A non-album item's record is its own single-message record: its type and id are the item's. */
  lemma DispatchSingle(item: RawMessage, publisher: Option<PublisherData>)
    requires !item.kind.Album?
    ensures |DispatchOne(item, publisher)| == 1
    ensures var r := DispatchOne(item, publisher)[0];
      && r.postType == Some(TypeOfKind(item.kind)) && r.messageId == IdAsInt(item.id) && r.text == item.text
  {
    TransformSingle(item, publisher);
  }

  /** An album item with several children yields one ALBUM record holding one child per message. */
  lemma DispatchAlbum(item: RawMessage, publisher: Option<PublisherData>)
    requires item.kind.Album? && |item.album.messages| > 1
    ensures |DispatchOne(item, publisher)| == 1
    ensures var r := DispatchOne(item, publisher)[0];
      && r.postType == Some(ALBUM) && |r.albumMessages| == |item.album.messages|
      && forall i :: 0 <= i < |item.album.messages| ==> r.albumMessages[i] == AlbumMessage(item.album.messages[i])
  {
    TransformAlbumHeader(item.album.messages, publisher);
    TransformAlbumChildren(item.album.messages, publisher);
  }

  /** A record's publisher comes from the first message it is made of. */
  lemma TransformPublisher(objects: seq<RawMessage>, publisher: Option<PublisherData>)
    requires |objects| > 0
    ensures TransformSpec(objects, publisher).publisher == Some(PublisherRecordOf(objects[0], publisher))
  {
    if |objects| == 1 {
      TransformSingle(objects[0], publisher);
      assert objects == [objects[0]];
    } else {
      TransformAlbumHeader(objects, publisher);
    }
  }

  /** Items whose channel ids are cleared yield records whose publisher has no channel id. */
  lemma {:induction false} DispatchPublisherChannelIds(items: seq<RawMessage>, publisher: Option<PublisherData>)
    requires ChannelIdsCleared(items)
    ensures forall k :: 0 <= k < |Dispatch(items, publisher)| ==>
      Dispatch(items, publisher)[k].publisher.Some? && Dispatch(items, publisher)[k].publisher.value.channelId.None?
  {
    if |items| > 0 {
      var item := items[0];
      assert Cleared(item);
      if item.kind.Album? && |item.album.messages| > 0 {
        TransformPublisher(item.album.messages, publisher);
      } else if !item.kind.Album? {
        TransformPublisher([item], publisher);
      }
      assert ChannelIdsCleared(items[1..]) by {
        forall i | 0 <= i < |items[1..]| ensures Cleared(items[1..][i]) {
          assert items[1..][i] == items[i + 1];
        }
      }
      DispatchPublisherChannelIds(items[1..], publisher);
    }
  }

  /** Every record a crawl saves has a publisher without a channel id: the crawl clears the id of
      each message and its children before the records are made. */
  lemma SavedChannelIdsNone(web: Web, channel: string, limit: int, pages: nat)
    requires HistoryFrom(web, channel, limit, pages, [], None, None).Ok?
    ensures var h := HistoryFrom(web, channel, limit, pages, [], None, None).value;
      forall k :: 0 <= k < |Dispatch(h.messages, h.publisher)| ==>
        Dispatch(h.messages, h.publisher)[k].publisher.Some?
        && Dispatch(h.messages, h.publisher)[k].publisher.value.channelId.None?
  {
    HistoryClearsChannelIds(web, channel, limit, pages, [], None, None);
    var h := HistoryFrom(web, channel, limit, pages, [], None, None).value;
    DispatchPublisherChannelIds(h.messages, h.publisher);
  }

  // ---------------------------------------------------------------------------
  // The process.

  /** The output side of the process: the records handed to `save`, in order, and the value of the
      crawled-post counter. */
  class Crawler {
    var saved: seq<Post>
    var crawled: nat

    constructor ()
      ensures saved == [] && crawled == 0
    {
      saved := [];
      crawled := 0;
    }

    /** `save(value)`: the record with its children is handed on. */
    method Save(value: PostInfo)
      modifies this`saved
      ensures |saved| == |old(saved)| + 1 && saved[..|old(saved)|] == old(saved)
      ensures saved[|old(saved)|] == value.Record().(albumMessages := saved[|old(saved)|].albumMessages)
      ensures |saved[|old(saved)|].albumMessages| == |value.albumMessages|
      ensures forall i :: 0 <= i < |value.albumMessages| ==>
        saved[|old(saved)|].albumMessages[i] == value.albumMessages[i].Record()
    {
      var children: seq<Post> := [];
      var i := 0;
      while i < |value.albumMessages|
        invariant 0 <= i <= |value.albumMessages| && |children| == i
        invariant forall j :: 0 <= j < i ==> children[j] == value.albumMessages[j].Record()
      {
        children := children + [value.albumMessages[i].Record()];
        i := i + 1;
      }
      saved := saved + [value.Record().(albumMessages := children)];
    }

    /** Transforms one item's messages and saves the record. */
    method SaveTransformed(objects: seq<RawMessage>, publisher: Option<PublisherData>)
      requires |objects| > 0
      modifies this`saved
      ensures saved == old(saved) + [TransformSpec(objects, publisher)]
    {
      var value := TransformMessages(objects, publisher);
      ghost var spec := TransformSpec(objects, publisher);
      ghost var before := saved;
      Save(value);
      ghost var r := saved[|before|];
      assert r.albumMessages == spec.albumMessages;
      assert r == spec;
      assert saved == before + [r];
    }

    /** The body of `process`'s loop for one item. */
    method SaveItem(item: RawMessage, publisher: Option<PublisherData>)
      modifies this`saved
      ensures saved == old(saved) + DispatchOne(item, publisher)
    {
      if item.kind.Album? {
        if |item.album.messages| > 0 {
          SaveTransformed(item.album.messages, publisher);
        }
      } else {
        SaveTransformed([item], publisher);
      }
    }

    /** `process(channel)`: crawls the channel, adds the number of items to the counter, and saves
        one record per item that has one, in item order. A raising crawl changes nothing. */
    method Process(web: Web, channel: string, limit: int, pages: nat) returns (r: Result<()>)
      modifies this`saved, this`crawled
      ensures HistoryFrom(web, channel, limit, pages, [], None, None).Raised? ==>
        r.Raised? && saved == old(saved) && crawled == old(crawled)
      ensures HistoryFrom(web, channel, limit, pages, [], None, None).Ok? ==>
        var h := HistoryFrom(web, channel, limit, pages, [], None, None).value;
        && r.Ok?
        && crawled == old(crawled) + |h.messages|
        && saved == old(saved) + Dispatch(h.messages, h.publisher)
    {
      var history := GetHistory(web, channel, limit, pages);
      if history.Raised? {
        return Raised;
      }
      var items := history.value.messages;
      var publisher := history.value.publisher;
      crawled := crawled + |items|;
      var i := 0;
      while i < |items|
        invariant 0 <= i <= |items|
        invariant saved == old(saved) + Dispatch(items[..i], publisher)
        invariant crawled == old(crawled) + |items|
      {
        var item := items[i];
        SaveItem(item, publisher);
        assert items[..i + 1] == items[..i] + [item];
        DispatchAppend(items[..i], [item], publisher);
        assert Dispatch([item], publisher) == DispatchOne(item, publisher) + Dispatch([], publisher);
        i := i + 1;
      }
      assert items[..i] == items;
      r := Ok(());
    }
  }
}
