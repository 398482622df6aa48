/** `TelegramWebChannelParser` (src/telegram_web.py): the channel header and the pagination
    cursor of one feed page. */
module ChannelParser {
  import opened Wrappers
  import opened Strings
  import opened ParserHelpers
  import opened Markup

  /** The publisher dictionary: its counters are the `<type>_count` keys. */
  datatype PublisherData = PublisherData(
    avatarUrl: Option<string>,
    title: Option<string>,
    userName: Option<string>,
    counts: map<string, nat>,
    description: Option<string>)

  /** The five counters every publisher dictionary starts with, all 0. */
  const InitialCounts: map<string, nat> :=
    map["subscribers_count" := 0, "photos_count" := 0, "videos_count" := 0, "files_count" := 0, "links_count" := 0]

  /** The key a counter writes: its lower-cased type followed by `_count`. A counter without a
      type span raises. */
  function CounterKey(c: CounterFragment): Result<string>
  {
    if c.typeText.None? then Raised else Ok(Lower(c.typeText.value) + "_count")
  }

  /** The value a counter writes: its value span in shorthand; a missing span or an unreadable
      value raises. */
  function CounterValue(c: CounterFragment): Result<nat>
  {
    if c.valueText.None? then Raised else ShorthandToNumber(c.valueText.value)
  }

  /** The counters loop from `counts` on: each counter in turn stores its value under its key. */
  function Counters(cs: seq<CounterFragment>, counts: map<string, nat>): Result<map<string, nat>>
  {
    if |cs| == 0 then Ok(counts)
    else
      var key :- CounterKey(cs[0]);
      var value :- CounterValue(cs[0]);
      Counters(cs[1..], counts[key := value])
  }

  /** `extract_publisher_info`: `None` without the channel header. */
  function PublisherOf(page: Page): Result<Option<PublisherData>>
  {
    match page.channelInfo
    case None => Ok(None)
    case Some(info) =>
      var counts :- Counters(info.counters, InitialCounts);
      var userName := if info.username.Some? then Some(RemoveChars(info.username.value, {'@'})) else None;
      Ok(Some(PublisherData(info.avatarSrc, info.title, userName, counts, info.description)))
  }

  method ExtractPublisherInfo(page: Page) returns (r: Result<Option<PublisherData>>)
    ensures r == PublisherOf(page)
  {
    if page.channelInfo.None? {
      return Ok(None);
    }
    var info := page.channelInfo.value;
    var publisher := PublisherData(None, None, None, InitialCounts, None);
    if info.avatarSrc.Some? {
      publisher := publisher.(avatarUrl := info.avatarSrc);
    }
    if info.title.Some? {
      publisher := publisher.(title := info.title);
    }
    if info.username.Some? {
      publisher := publisher.(userName := Some(RemoveChars(info.username.value, {'@'})));
    }
    var i := 0;
    while i < |info.counters|
      invariant 0 <= i <= |info.counters|
      invariant Counters(info.counters[i..], publisher.counts) == Counters(info.counters, InitialCounts)
      invariant publisher.avatarUrl == info.avatarSrc && publisher.title == info.title
      invariant publisher.userName == (if info.username.Some? then Some(RemoveChars(info.username.value, {'@'})) else None)
      invariant publisher.description.None?
    {
      var counter := info.counters[i];
      assert info.counters[i..][1..] == info.counters[i + 1..];
      if counter.typeText.None? {
        return Raised;
      }
      var key := Lower(counter.typeText.value) + "_count";
      if counter.valueText.None? {
        return Raised;
      }
      var value := ShorthandToNumber(counter.valueText.value);
      if value.Raised? {
        return Raised;
      }
      publisher := publisher.(counts := publisher.counts[key := value.value]);
      i := i + 1;
    }
    publisher := publisher.(description := info.description);
    r := Ok(Some(publisher));
  }

  /** `extract_cursor`: the `rel=prev` link, else the "load more" anchor, else none. */
  function CursorOf(page: Page): Option<string>
  {
    if page.prevHref.Some? then page.prevHref else page.moreHref
  }

  // ---------------------------------------------------------------------------
  // Properties.

  /** The counters loop raises exactly when some counter lacks its type or value, or its value
      does not read as a number. */
  lemma {:induction false} CountersRaise(cs: seq<CounterFragment>, counts: map<string, nat>)
    ensures Counters(cs, counts).Raised? <==>
      exists i :: 0 <= i < |cs| && (CounterKey(cs[i]).Raised? || CounterValue(cs[i]).Raised?)
  {
    if |cs| > 0 && CounterKey(cs[0]).Ok? && CounterValue(cs[0]).Ok? {
      CountersRaise(cs[1..], counts[CounterKey(cs[0]).value := CounterValue(cs[0]).value]);
      if exists i :: 0 <= i < |cs| && (CounterKey(cs[i]).Raised? || CounterValue(cs[i]).Raised?) {
        var i :| 0 <= i < |cs| && (CounterKey(cs[i]).Raised? || CounterValue(cs[i]).Raised?);
        assert cs[1..][i - 1] == cs[i];
      }
    }
  }

  /** Every counter has its type and a readable value. */
  predicate Readable(cs: seq<CounterFragment>)
  {
    forall i :: 0 <= i < |cs| ==> CounterKey(cs[i]).Ok? && CounterValue(cs[i]).Ok?
  }

  lemma ReadableTail(cs: seq<CounterFragment>)
    requires |cs| > 0 && Readable(cs)
    ensures Readable(cs[1..])
  {
    forall i | 0 <= i < |cs| - 1 ensures CounterKey(cs[1..][i]).Ok? && CounterValue(cs[1..][i]).Ok? {
      assert cs[1..][i] == cs[i + 1];
    }
  }

  lemma ReadableCounters(cs: seq<CounterFragment>, counts: map<string, nat>)
    requires Readable(cs)
    ensures Counters(cs, counts).Ok?
  {
    CountersRaise(cs, counts);
  }

  /** The keys are the starting ones plus one per counter: unknown counter types add a key. */
  lemma {:induction false} CountersKeys(cs: seq<CounterFragment>, counts: map<string, nat>)
    requires Readable(cs)
    ensures Counters(cs, counts).Ok?
    ensures Counters(cs, counts).value.Keys == counts.Keys + set i | 0 <= i < |cs| :: CounterKey(cs[i]).value
  {
    ReadableCounters(cs, counts);
    if |cs| > 0 {
      var key, value := CounterKey(cs[0]).value, CounterValue(cs[0]).value;
      ReadableTail(cs);
      CountersKeys(cs[1..], counts[key := value]);
      var rest := set i | 0 <= i < |cs| - 1 :: CounterKey(cs[1..][i]).value;
      var all := set i | 0 <= i < |cs| :: CounterKey(cs[i]).value;
      assert all == {key} + rest by {
        forall k | k in all ensures k in {key} + rest {
          var i :| 0 <= i < |cs| && k == CounterKey(cs[i]).value;
          if i > 0 {
            assert cs[1..][i - 1] == cs[i];
          }
        }
        forall k | k in rest ensures k in all {
          var i :| 0 <= i < |cs| - 1 && k == CounterKey(cs[1..][i]).value;
          assert cs[1..][i] == cs[i + 1];
        }
      }
    }
  }

  /** A key no counter writes keeps its starting value. */
  lemma {:induction false} CountersUntouched(cs: seq<CounterFragment>, counts: map<string, nat>, k: string)
    requires Readable(cs) && k in counts
    requires forall i :: 0 <= i < |cs| ==> CounterKey(cs[i]).value != k
    ensures Counters(cs, counts).Ok?
    ensures k in Counters(cs, counts).value && Counters(cs, counts).value[k] == counts[k]
  {
    ReadableCounters(cs, counts);
    if |cs| > 0 {
      var key, value := CounterKey(cs[0]).value, CounterValue(cs[0]).value;
      assert key != k;
      ReadableTail(cs);
      forall i | 0 <= i < |cs| - 1 ensures CounterKey(cs[1..][i]).value != k {
        assert cs[1..][i] == cs[i + 1];
      }
      CountersUntouched(cs[1..], counts[key := value], k);
    }
  }

  /** The last counter of a type wins: its value is what the key holds. */
  lemma {:induction false} CountersLastWins(cs: seq<CounterFragment>, counts: map<string, nat>, j: nat)
    requires Readable(cs) && j < |cs|
    requires forall i :: j < i < |cs| ==> CounterKey(cs[i]).value != CounterKey(cs[j]).value
    ensures Counters(cs, counts).Ok?
    ensures CounterKey(cs[j]).value in Counters(cs, counts).value
    ensures Counters(cs, counts).value[CounterKey(cs[j]).value] == CounterValue(cs[j]).value
  {
    ReadableTail(cs);
    var key, value := CounterKey(cs[0]).value, CounterValue(cs[0]).value;
    CountersStep(cs, counts);
    if j == 0 {
      forall i | 0 <= i < |cs| - 1 ensures CounterKey(cs[1..][i]).value != key {
        assert cs[1..][i] == cs[i + 1];
      }
      CountersUntouched(cs[1..], counts[key := value], key);
    } else {
      forall i | j - 1 < i < |cs| - 1 ensures CounterKey(cs[1..][i]).value != CounterKey(cs[1..][j - 1]).value {
        assert cs[1..][i] == cs[i + 1];
      }
      assert cs[1..][j - 1] == cs[j];
      CountersLastWins(cs[1..], counts[key := value], j - 1);
    }
  }

  /** A readable first counter is written and the loop goes on with the rest. */
  lemma CountersStep(cs: seq<CounterFragment>, counts: map<string, nat>)
    requires |cs| > 0 && CounterKey(cs[0]).Ok? && CounterValue(cs[0]).Ok?
    ensures Counters(cs, counts) == Counters(cs[1..], counts[CounterKey(cs[0]).value := CounterValue(cs[0]).value])
  {
  }

  /** The publisher dictionary always holds the five starting counters, and its user name has no
      '@'; it copies the avatar, title and description. */
  lemma PublisherShape(page: Page)
    requires PublisherOf(page).Ok? && PublisherOf(page).value.Some?
    ensures var p := PublisherOf(page).value.value;
      && InitialCounts.Keys <= p.counts.Keys
      && (p.userName.Some? ==> '@' !in p.userName.value)
      && p.userName.Some? == page.channelInfo.value.username.Some?
      && p.avatarUrl == page.channelInfo.value.avatarSrc
      && p.title == page.channelInfo.value.title
      && p.description == page.channelInfo.value.description
  {
    CountersRaise(page.channelInfo.value.counters, InitialCounts);
    CountersKeys(page.channelInfo.value.counters, InitialCounts);
    var p := PublisherOf(page).value.value;
    if p.userName.Some? {
      var u := p.userName.value;
      assert forall i :: 0 <= i < |u| ==> u[i] != '@';
    }
  }
}
