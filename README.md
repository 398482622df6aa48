# telegram-web-crawler, modelled in Dafny

The crawler reads a list of public Telegram channel names. For each channel it walks the
channel's web preview, `https://t.me/s/<channel>`, page by page from the newest post. The
model covers five parts of that pipeline.

- Parsing. Every message of a page is parsed into a raw dictionary. The parse fills in the
  permalink's channel and id, the views, the text, the author and the reply target. It also
  records the album links and the forwarded-from header, then classifies the message as album,
  poll, audio, video, photo or text.
- Fetching album and forwarded posts. An album's child posts are fetched and parsed. A
  forwarded post's original is fetched and parsed too.
- Transforming. Each item is turned into an output record, a `PostInfo` with its publisher,
  forwarded, media and album parts.
- Saving. The records are saved in item order, and a counter of crawled posts is kept.

The model is organised by module:

| module | source | form |
|---|---|---|
| `Strings` | the Python built-ins the parsers use | functions and lemmas |
| `ParserHelpers` | `TelegramWebParserHelpers` | functions, a method for the duration loop, lemmas |
| `Markup` | the parsed markup the extractors look at, and the raw dictionaries | datatypes |
| `ChannelParser` | `extract_publisher_info`, `extract_cursor` | spec functions, a method, lemmas |
| `MessageParser`, `MessageParserProperties` | `parse` and every `extract_*` | a method per extractor, proved equal to a spec function; lemmas |
| `Models` | `MessageType`, `parse_text_hashtags`, the dataclasses and their `format_*` methods | classes with in-place methods, record datatypes, lemmas |
| `Transform` | `_get_message_type`, `get_album_messages`, `transform` | methods on `PostInfo` objects, proved against `TransformSpec` |
| `Crawl`, `CrawlProperties` | `get_history`, `handle_album_message`, `handle_forwarded_message` | methods proved equal to spec functions; lemmas |
| `Process` | `CrawlerProcess.process` | a class with the saved records and the counter |
| `FileInput` | `FileInputMixin` | a class with the entries and the index |

Several things that would otherwise be inputs are parameters of the model:

- The network is a parameter `Web`. It answers a feed request with a page and a post URL with
  a post fragment, or with nothing when the request or the parser construction fails.
- The page budget `pages` bounds the number of feed loads.
- The input file is given as its sequence of lines.

Several behaviours of the code are easy to mistake; the model follows the code:

- Album children. If any child fetch or child parse fails, the album's `messages` list becomes
  `[]`. The children that did succeed are dropped too.
- The limit. `limit` is checked only before a page is loaded. Each page is handled in full, so
  a crawl overshoots the limit by less than one page.
- A missing or empty cursor. It makes `get_history` load the main page again; the crawl does
  not stop. A channel whose main page has no cursor is crawled by repeating that page until
  the limit.
- Counter labels. A counter with an unknown label adds a new `<label>_count` key; it is not
  ignored.
- `ForwardedInfo.user_id` is always `None`. The forwarded header has a `user_name` key but no
  `user_id` key.
- The publisher's `channel_id` is always `None`. `get_history` clears every message's
  `channel_id`, and album children copy their parent's.
- A post that raises while it is parsed escapes `get_history`'s `try`. The whole channel is
  then lost, and `process` raises.

## Model

| member | source | states |
|---|---|---|
| `Strings.NatToStringRoundTrip` | src/models.py:95 | `str(n)` is a digit string that `int` reads back as `n` |
| `Strings.SplitPiecesHaveNoSeparator` | src/telegram_web.py:101 | no piece of `split(c)` contains `c` |
| `Strings.ParseDecimalPoint` | src/telegram_web.py:108 | `float("a.b")` for digit strings is the exact decimal of the digits `a+b` scaled by `len(b)` |
| `ParserHelpers.RefOfPath` | src/telegram_web.py:101-102 | decoding succeeds iff the path has two `/`-pieces and the last is a number |
| `ParserHelpers.ChannelAndMessageId` | src/telegram_web.py:97-102 | no contract of its own: `RefOfPath` states when it raises; `HttpsLinkRoundTrip` and `PermalinkRoundTrip` give its value |
| `ParserHelpers.RefOfPathRoundTrip` | src/telegram_web.py:99-102 | a path ending in `/<channel>/<id>` decodes to that channel and id |
| `ParserHelpers.HttpsUrlPath` | src/telegram_web.py:100 | the path `urlparse` gives for an `https://host/path` URL is the path with its last segment's `;params` cut |
| `ParserHelpers.NetlocOf` | src/telegram_web.py:100 | after `//`, the host runs up to the first `/`, `?` or `#`, and what follows is the path |
| `ParserHelpers.HttpsLinkRoundTrip` | src/telegram_web.py:99-102 | for any host without `/`, `?` or `#`, `https://<host>/<c>/<id>` decodes to `(c, id)` when c has no `/`, `?` or `#` |
| `ParserHelpers.PermalinkRoundTrip` | src/telegram_web.py:99-102 | `extract_channel_and_message_id` of the permalink `https://t.me/<c>/<id>` gives `(c, id)` |
| `ParserHelpers.ShorthandToNumber` | src/telegram_web.py:104-112 | no contract of its own: `ShorthandOfDigits`, `ShorthandThousands`, `ShorthandMillions` and the three examples give its value |
| `ParserHelpers.ShorthandOfDigits` | src/telegram_web.py:111-112 | a plain number reads as its decimal value |
| `ParserHelpers.ShorthandThousands` | src/telegram_web.py:106-108 | a `k`/`K` suffix scales the decimal by 1000 and truncates |
| `ParserHelpers.ShorthandMillions` | src/telegram_web.py:109-110 | an `m`/`M` suffix scales the decimal by 1000000 and truncates |
| `ParserHelpers.ShorthandExampleThousands` | src/telegram_web.py:105-110 | "1.2K" gives 1200 |
| `ParserHelpers.ShorthandExampleMillions` | src/telegram_web.py:109-110 | "3M" gives 3000000 |
| `ParserHelpers.ShorthandExamplePlain` | src/telegram_web.py:111-112 | "842" gives 842 |
| `ParserHelpers.SuffixRaises` | src/telegram_web.py:118-119 | an unreadable piece makes the whole duration raise |
| `ParserHelpers.ConvertDurationToSeconds` | src/telegram_web.py:115-121 | the right-to-left loop equals the sum of piece i times 60^i, raising on a non-number piece |
| `ParserHelpers.DurationPrefix` | src/telegram_web.py:118-120 | prefixing `h:` adds `h * 60^k`, where k is the number of pieces already there |
| `ParserHelpers.DurationExampleMinutes` | src/telegram_web.py:115-121 | "1:05" gives 65 |
| `ParserHelpers.DurationExampleTail` | src/telegram_web.py:115-121 | "02:03" splits into two pieces and gives 123 |
| `ParserHelpers.DurationExampleHours` | src/telegram_web.py:115-121 | "1:02:03" gives 3723 |
| `ChannelParser.ExtractPublisherInfo` | src/telegram_web.py:137-184 | the step-by-step extractor equals `PublisherOf`: `None` without the header, raising on an unreadable counter |
| `ChannelParser.CursorOf` | src/telegram_web.py:186-192 | no contract of its own: `CrawlProperties.NextRequestOf` states the next request it causes |
| `ChannelParser.CountersRaise` | src/telegram_web.py:164-168 | the counters raise iff some counter lacks its type or value, or its value is unreadable |
| `ChannelParser.ReadableCounters` | src/telegram_web.py:164-172 | readable counters never raise |
| `ChannelParser.CountersKeys` | src/telegram_web.py:164-172 | the keys are the initial five plus `<type>_count` for each counter: unknown types add keys |
| `ChannelParser.CountersUntouched` | src/telegram_web.py:138-172 | a key that no counter writes keeps its initial value |
| `ChannelParser.CountersLastWins` | src/telegram_web.py:164-172 | the last counter of a type decides that key's value |
| `ChannelParser.PublisherShape` | src/telegram_web.py:137-184 | the five counters are always present, the user name has no '@', and avatar, title and description are copied |
| `MessageParser.RunOf` | src/telegram_web.py:303 | the greedy `[0-9]+` run is a maximal prefix of run characters |
| `MessageParser.FirstCapture` | src/telegram_web.py:303-307 | a capture is a non-empty run of the group's characters |
| `MessageParser.OptionTexts` | src/telegram_web.py:400-403 | the option texts exist iff every option has its text element, and they then follow the options one to one |
| `MessageParser.ExtractPhotoInfo` | src/telegram_web.py:294-317 | equals `PhotoOf` |
| `MessageParser.ExtractVideoInfo` | src/telegram_web.py:319-358 | equals `VideoOf` |
| `MessageParser.ExtractAudioInfo` | src/telegram_web.py:360-379 | equals `AudioOf` |
| `MessageParser.ExtractPollInfo` | src/telegram_web.py:381-413 | equals `PollOf`: voters, question, the option texts in order, and the quiz flag |
| `MessageParser.ExtractForwardedFromInfo` | src/telegram_web.py:415-444 | equals `ForwardedOf` |
| `MessageParser.ExtractAlbumInfo` | src/telegram_web.py:283-292 | equals `AlbumOf` |
| `MessageParser.ExtractGenericInfo` | src/telegram_web.py:225-281 | equals `GenericOf` |
| `MessageParser.Parse` | src/telegram_web.py:204-223 | equals `ParseMessage` |
| `MessageParser.ChannelIdOf` | src/telegram_web.py:446-452 | no contract of its own: `MessageParserProperties.ChannelIdOfPeer` and `MessageParserProperties.ChannelIdMissing` state its result |
| `MessageParserProperties.ParseAlbumShortCircuit` | src/telegram_web.py:204-208 | an album returns typed `album` without running any detector |
| `MessageParserProperties.DetectorsFollowElements` | src/telegram_web.py:294-413 | each detector finds something iff its element is present |
| `MessageParserProperties.ParseKind` | src/telegram_web.py:204-223 | `parse` only adds the type; the type is the first of album, poll, audio, video, photo whose element is present, text otherwise, with the matching detector's dictionary |
| `MessageParserProperties.ParsedHasNoChildren` | src/telegram_web.py:268-292 | a parsed message has no album children and no channel id yet |
| `MessageParserProperties.PollBeatsLaterDetectors` | src/telegram_web.py:209-220 | once a poll is found, a video or photo that would raise is never looked at |
| `MessageParserProperties.PhotoRaises` | src/telegram_web.py:301-315 | a photo raises iff its style or its background URL is missing |
| `MessageParserProperties.VideoRaises` | src/telegram_web.py:347-350 | a video raises iff its duration text is present and unreadable |
| `MessageParserProperties.RunOfMaximal` | src/telegram_web.py:303 | a run followed by a non-run character is captured whole |
| `MessageParserProperties.FirstCaptureFound` | src/telegram_web.py:303 | a capture comes from an occurrence of the key |
| `MessageParserProperties.FirstCaptureAtStart` | src/telegram_web.py:303-304 | a key at the start followed by a maximal run captures that run |
| `MessageParserProperties.FirstCaptureAbsent` | src/telegram_web.py:303 | no key gives no match |
| `MessageParserProperties.LazyQuotedEnds` | src/telegram_web.py:312 | the lazy group ends at the first quote followed by a non-newline |
| `MessageParserProperties.BackgroundUrlOf` | src/telegram_web.py:312-313 | `background-image:url('U')` yields `U` |
| `MessageParserProperties.HeightIsFloor` | src/telegram_web.py:308 | the height is the floor of width·ratio/100 for the exact ratio |
| `MessageParserProperties.DimensionsWithoutWidth` | src/telegram_web.py:302-310 | no `width:` leaves both width and height unset |
| `MessageParserProperties.DimensionsWithoutRatio` | src/telegram_web.py:302-310 | a width without a ratio sets only the width |
| `MessageParserProperties.DimensionsOf` | src/telegram_web.py:302-308 | a width and a ratio set both |
| `MessageParserProperties.HeightExample` | src/telegram_web.py:308 | width 400 with ratio "75.0" gives height 300 |
| `MessageParserProperties.PhotoOfStyle` | src/telegram_web.py:294-315 | a photo with a background URL in its style yields that URL |
| `MessageParserProperties.StripSingleRemovesQuery` | src/telegram_web.py:291 | removing the appended `?single` gives back the bare link |
| `MessageParserProperties.StripSingleClean` | src/telegram_web.py:291 | a link with at most one '?' has no `?single` left |
| `MessageParserProperties.StripSingleSinglePass` | src/telegram_web.py:291 | the replace is one pass: "??singlesingle" keeps a `?single` |
| `MessageParserProperties.AlbumShape` | src/telegram_web.py:283-292 | an album iff the grouped wrapper is present, with one cleaned link per grouped anchor, in order |
| `MessageParserProperties.AlbumLinksClean` | src/telegram_web.py:290-291 | the album links hold no `?single` when their hrefs have at most one '?' |
| `MessageParserProperties.PermalinkWithQuery` | src/telegram_web.py:228-229 | a permalink decodes after its query is cut off |
| `MessageParserProperties.GenericFields` | src/telegram_web.py:225-281 | which field comes from which element, and the reply href becoming `link` |
| `MessageParserProperties.GenericOfPermalink` | src/telegram_web.py:226-229 | a date anchor with a query gives that channel and id |
| `MessageParserProperties.ForwardedFields` | src/telegram_web.py:415-444 | the name comes from the span, else the anchor; the header raises only when neither exists; decoding is best effort |
| `MessageParserProperties.ForwardedOfPermalink` | src/telegram_web.py:436-439 | a forward whose anchor is a permalink plus a query names that channel and message |
| `MessageParserProperties.ChannelIdOfPeer` | src/telegram_web.py:446-452 | `data-peer` "x<id>_rest" gives `<id>` |
| `MessageParserProperties.ChannelIdMissing` | src/telegram_web.py:446-452 | no `data-peer` gives `None` |
| `Models.WordRun` | src/models.py:25 | the `\w+` run is a maximal prefix of word characters |
| `Models.Hashtags` | src/models.py:25 | every tag is a non-empty run of word characters |
| `Models.HashtagsOf` | src/models.py:23-27 | no contract of its own: a missing text, on which `findall` raises and the handler returns `[]`, gives no tags; a present text gives `Hashtags` of it |
| `Models.WordRunMaximal` | src/models.py:25 | a word followed by a non-word character is captured whole |
| `Models.NoHashWordNoTags` | src/models.py:23-27 | the hashtags are empty iff no '#' is followed by a word character, so "C# is great" and "#!" give none |
| `Models.HashtagsRoundTrip` | src/models.py:23-27 | the text "#t1 #t2 … " yields exactly the tags t1, t2, … |
| `Models.AnswersFrom` | src/models.py:93-97 | one answer per option |
| `Models.AnswersNumbered` | src/models.py:93-97 | answer i is option `str(k+i)` with text `options[i]` |
| `Models.AnswerLabelsDistinct` | src/models.py:93-97 | answer labels are distinct and read back as their positions |
| `Models.PhotoInfo.constructor` | src/models.py:101-104 | every field is `None` |
| `Models.PhotoInfo.FormatPhotoInfo` | src/models.py:106-109 | width, height and url copied from the photo dictionary |
| `Models.VideoInfo.constructor` | src/models.py:113-118 | every field is `None` |
| `Models.VideoInfo.FormatVideoInfo` | src/models.py:120-126 | duration, width, height, url and thumb url copied |
| `Models.AudioInfo.constructor` | src/models.py:69-72 | every field is `None` |
| `Models.AudioInfo.FormatAudioInfo` | src/models.py:74-77 | title and performer copied; the duration is unchanged |
| `Models.PollInfo.constructor` | src/models.py:81-86 | `is_quiz` is `False`, there are no answers, the rest is `None` |
| `Models.PollInfo.FormatPollInfo` | src/models.py:88-97 | voters, question and quiz flag copied; numbered answers appended to the old ones; `poll_id` unchanged |
| `Models.PostInfo.constructor` | src/models.py:130-145 | the empty record |
| `Models.PostInfo.FormatPostInfo` | src/models.py:147-183 | views, date, link and publisher set; an album takes the timestamp and the given text, other posts take their own id and text; hashtags of that text; forwarded and reply fields only set, never cleared |
| `Transform.GetMessageType` | src/transform.py:6-25 | the type follows the kind, and only the matching info slot is replaced, by a fresh formatted object |
| `Transform.TypedRecord` | src/transform.py:6-25 | on a record without info objects, the result is `WithType` of the old value |
| `Transform.NewAlbumMessage` | src/transform.py:31-35 | a fresh child with the message's id, text, hashtags and type |
| `Transform.GetAlbumMessages` | src/transform.py:27-38 | one fresh child per message, in order |
| `Transform.FormattedRecord` | src/transform.py:41-49 | a fresh record holding `format_post_info`'s value |
| `Transform.TransformMessages` | src/transform.py:40-53 | the record and its children equal `TransformSpec` |
| `Transform.WithTypeSlot` | src/transform.py:6-25 | exactly the slot of the message's kind is filled |
| `Transform.TypeOfKindText` | src/transform.py:23-24 | albums, untyped and text messages all become TEXT |
| `Transform.WithTypePoll` | src/transform.py:19-22 | a poll's answers are numbered from 0 in option order |
| `Transform.FormatPostHeader` | src/models.py:152-183 | for a non-album post, `format_post_info` writes the message's own id, text, hashtags, link, views, date, publisher, forward and reply fields |
| `Transform.WithTypeKeepsHeader` | src/transform.py:6-25 | setting the type leaves id, text, hashtags, link, views, date, publisher, forward and reply fields and children alone |
| `Transform.TransformSingle` | src/transform.py:43-45 | one message gives a record of its own type, id, text, link, views, date, publisher, forward and reply fields, with no children |
| `Transform.TransformAlbumHeader` | src/transform.py:46-50 | several messages give an ALBUM record with the first message's timestamp, link, views, date, publisher, forward and reply fields, the joined text and no media slot |
| `Transform.AlbumMessageFields` | src/transform.py:30-36 | a child keeps its message's id, text and hashtags and takes its type; it has no publisher |
| `Transform.TransformAlbumChildren` | src/transform.py:51 | the children follow the messages one to one, in order |
| `Transform.JoinTextsAppend` | src/transform.py:47 | the joined text of a split list is the concatenation of the parts' texts |
| `Transform.JoinTextsWithoutText` | src/transform.py:47 | messages without text add nothing |
| `Transform.JoinTextsExample` | src/transform.py:47 | the texts "a", a missing or empty one, and "c" join to "ac" |
| `Crawl.WithChannelId` | src/crawl.py:50-51 | no contract of its own: `CrawlProperties.AlbumHandledChannelIds` states that every child takes the parent's channel id |
| `Crawl.FetchPost` | src/telegram_web.py:85-88 | no contract of its own: `Crawl.ParseAllFetchFails` and `CrawlProperties.ParseAllOk` state what a failed or successful fetch does to a load |
| `Crawl.ParseAll` | src/crawl.py:46-49 | a successful load gives one message per link |
| `Crawl.LoadAndParse` | src/crawl.py:46-49 | fetching all posts and then parsing each equals `ParseAll` |
| `Crawl.ParseAllFetchFails` | src/crawl.py:46-49 | a failed fetch makes the whole load raise |
| `Crawl.ParseAllParseFails` | src/crawl.py:46-49 | a failed parse makes the whole load raise |
| `Crawl.ParseAllSucceeds` | src/crawl.py:46-49 | all fetches and parses succeeding gives the parsed posts in order |
| `Crawl.HandleAlbumMessage` | src/crawl.py:43-56 | equals `AlbumHandled` |
| `Crawl.HandleForwardedMessage` | src/crawl.py:58-72 | equals `ForwardHandled` |
| `Crawl.Resolve` | src/crawl.py:62-68 | no contract of its own: `CrawlProperties.ForwardHandledShape` states what a resolved forward holds |
| `Crawl.HandlePageMessages` | src/crawl.py:29-36 | equals `HandlePage` |
| `Crawl.HandleMessage` | src/crawl.py:30-35 | no contract of its own: `CrawlProperties.HandleMessageClears`, `CrawlProperties.HandlePageOk` and `CrawlProperties.HandlePageAppends` state its properties |
| `Crawl.GetHistory` | src/crawl.py:11-41 | equals `HistoryFrom` from the empty state |
| `CrawlProperties.FeedRequestShape` | src/telegram_web.py:66-83 | without a cursor, or with an empty one, the main page is loaded; a cursor loads `https://t.me<cursor>` |
| `CrawlProperties.NextRequestOf` | src/telegram_web.py:186-192 | the page after a loaded one is its non-empty `rel=prev` link, else (with no `rel=prev` link) its non-empty "load more" link, else the main page again; an empty `rel=prev` href sends the crawl back to the main page even when a "load more" link exists |
| `CrawlProperties.ParseAllOk` | src/crawl.py:46-49 | the children load iff every post is fetched and parses, and then they are the parsed posts in order |
| `CrawlProperties.AlbumHandledShape` | src/crawl.py:43-56 | non-albums are unchanged; an album changes only its children, which are all its posts or none |
| `CrawlProperties.ForwardHandledShape` | src/crawl.py:58-72 | a forward gets an empty original; with a link it gets the parsed original, its channel id and its date; other messages are unchanged |
| `CrawlProperties.AlbumHandledChannelIds` | src/crawl.py:50-51 | children take the parent's channel id, and the parent's is kept |
| `CrawlProperties.ForwardHandledKeeps` | src/crawl.py:58-72 | the forwarded step keeps the channel id and the album |
| `CrawlProperties.HandleMessageClears` | src/crawl.py:31-35 | a handled message and its children carry no channel id |
| `CrawlProperties.HandlePageOk` | src/crawl.py:29-36 | a page raises iff one of its messages does |
| `CrawlProperties.HandlePageAppends` | src/crawl.py:29-36 | a page appends one handled message per fragment, in page order |
| `CrawlProperties.HandlePageClears` | src/crawl.py:29-36 | a page keeps every message's channel id cleared |
| `CrawlProperties.HistoryKeepsPrefix` | src/crawl.py:16-37 | what was gathered before is a prefix of the result |
| `CrawlProperties.HistoryFeedFailed` | src/crawl.py:18-24 | a page that cannot be loaded, or whose parser cannot be built, stops the crawl, which returns the messages and publisher it has so far |
| `CrawlProperties.HistoryPageRaises` | src/crawl.py:26-36 | once a page has loaded, an unreadable publisher header on the first page or a message that does not parse makes the whole crawl raise, since these run outside the `try` |
| `CrawlProperties.HistoryKeepsPublisher` | src/crawl.py:26-27 | a publisher once found is kept |
| `CrawlProperties.HistoryFirstPublisher` | src/crawl.py:26-27 | the first loaded page with a channel header supplies the crawl's publisher, which no later page replaces |
| `CrawlProperties.HistoryHeaderlessPage` | src/crawl.py:26-37 | a loaded page without a channel header leaves the publisher unknown, and the crawl goes on to the next page still looking for one |
| `CrawlProperties.HistoryHalt` | src/crawl.py:16 | the crawl stops for the limit iff it gathered at least `limit` messages |
| `CrawlProperties.HistoryOvershoot` | src/crawl.py:16-37 | with pages of at most n messages, the result has fewer than `limit + n` |
| `CrawlProperties.HistoryClearsChannelIds` | src/crawl.py:29-37 | every gathered message and child has its channel id cleared |
| `CrawlProperties.MainPageRepeats` | src/crawl.py:19-37 | a main page without a cursor is loaded again until the limit is reached |
| `Process.DispatchOne` | src/__init__.py:60-68 | at most one record per item, and none exactly for an album with no children |
| `Process.DispatchAppend` | src/__init__.py:60-68 | the records of a split list are the records of its parts, in order |
| `Process.DispatchCount` | src/__init__.py:59-68 | one record per item except empty albums, so the count is at most `len(items)`; it equals it iff no album is empty |
| `Process.DispatchSingle` | src/__init__.py:66-68 | a non-album item yields one record with its own type, id and text |
| `Process.DispatchAlbum` | src/__init__.py:61-65 | an album with several children yields one ALBUM record with one child per message |
| `Process.TransformPublisher` | src/transform.py:40-53 | a record's publisher comes from its first message |
| `Process.DispatchPublisherChannelIds` | src/__init__.py:60-68 | items with cleared channel ids yield records whose publisher has no channel id |
| `Process.SavedChannelIdsNone` | src/__init__.py:58-68 | every record a crawl saves has a publisher whose channel id is `None` |
| `Process.Crawler.constructor` | src/__init__.py:39-41 | nothing saved, counter 0 |
| `Process.Crawler.Save` | src/io.py:50-54 | appends the record with its children's records |
| `Process.Crawler.SaveTransformed` | src/__init__.py:63-68 | saves exactly `TransformSpec` of the messages |
| `Process.Crawler.SaveItem` | src/__init__.py:61-68 | saves the item's dispatched records |
| `Process.Crawler.Process` | src/__init__.py:55-68 | a raising crawl changes nothing; otherwise the counter grows by `len(items)` and the saved records grow by `Dispatch(items)`, in order |
| `FileInput.Normalise` | src/io.py:33 | no contract of its own: `NormaliseFilters`, `NormaliseKeepsClean` and `NormaliseIdempotent` state its properties |
| `FileInput.RemoveCharsTwice` | src/io.py:33 | removing one set of characters and then another is removing both |
| `FileInput.NormaliseFilters` | src/io.py:33 | the three replaces are one filter, and no newline, carriage return or space is left |
| `FileInput.NormaliseKeepsClean` | src/io.py:33 | a line without those characters is unchanged |
| `FileInput.NormaliseIdempotent` | src/io.py:33 | normalising twice is normalising once |
| `FileInput.FileReader.constructor` | src/io.py:30-34 | one normalised entry per line, index 0 |
| `FileInput.FileReader.Next` | src/io.py:36-39 | returns the entry at the index and advances it by one; past the end it raises and changes nothing |
| `FileInput.FileReader.Drain` | src/io.py:36-42 | calling `next` until `round_finished` returns the remaining entries in order and ends finished |
| `FileInput.ReadAll` | src/io.py:30-42 | a fresh reader hands out exactly the normalised lines, one per line, in file order |

## Left out

- Network code is left out: HTTP, proxies, retries, timeouts, and the thread pool of
  `load_multiple_posts`. Fetching is the `Web` parameter, and the parallel map is an
  order-preserving sequential map.
- The page budget `pages` is a model artefact. The source loops until the limit or a failed
  load; `OutOfPages` marks a crawl cut short by the budget.
- HTML parsing is left out, including BeautifulSoup and the `<br>` replacement. A fragment
  records the text or attribute of each element the extractors look up. An element that is
  found but lacks the attribute read from it (a `KeyError` in the source) is not modelled.
- `datetime.strptime` and `calendar.timegm` are left out. A timestamp is an opaque `Instant`
  holding its ISO text and epoch seconds. In the source, a `<time>` whose `datetime` does not
  match `%Y-%m-%dT%H:%M:%S%z` raises `ValueError` (src/telegram_web.py:240-243). For a top-level
  post that exception escapes `get_history`. In the model a present time always yields an
  `Instant`.
- Floating point is modelled as exact decimals. `float(...)` becomes an exact decimal and
  `int(...)` truncates it, which can differ from IEEE rounding on edge inputs.
- Only unsigned decimal literals are accepted by `int`/`float`. Signs, spaces, underscores and
  exponents are read as raising.
- `str.lower` is ASCII only.
- The `\w` class of `#(\w+)` is approximated by `IsWordChar`: ASCII alphanumerics and `_`, plus
  non-ASCII characters outside the common punctuation blocks. Non-ASCII symbols therefore
  count as word characters, emoji included (U+1F525, U+2705, U+00A9), although Python's `\w`
  matches none of them. So "#news🔥" gives the tag "news🔥" in the model and "news" in the
  source.
- `urlparse` is modelled only as far as the path component: scheme, netloc, query, fragment
  and `;params` of the last segment. `urlsplit`'s clean-up of the input is not modelled: it
  strips leading control and space characters and removes every tab, CR and LF anywhere.
  So a link such as `…/c/1\n2` decodes to id 12 in the source but raises in the model.
- The message's `publish_timestamp` and `replies` keys are not separate fields.
  `RawMessage.Timestamp()` gives the former.
- `parse` calls each detector twice. The model calls it once; the detectors are pure, so the
  result is the same.
- Album and forwarded handling are modelled on values. The source mutates the message dict,
  which no one else holds, so the model does not capture aliasing.
- `transform([])` raises `IndexError`. `TransformMessages` and `TransformSpec` require a
  non-empty list; `process` never passes an empty one.
- `Transform.TransformMessages`: its children are stated one by one, on top of the record's own
  value, rather than as a single `PostInfo` value.
- `MessageParserProperties.AlbumLinksClean` and `MessageParserProperties.StripSingleClean`
  assume links with at most one '?'. `replace` is a single pass, so in general a `?single`
  can survive (`StripSingleSinglePass`).
- `serialize` and the JSON output of `save` are left out. `Crawler.Save` records the record
  value, children included, that would be serialized.
- Logging, the Prometheus metrics server and counter registration are left out. The counter
  is the field `crawled`.
- Config and proxy setup are left out.
- The `run` loop's `KeyboardInterrupt` handling is left out. The input side of `run` is
  `FileReader.Drain`.
- Reading the input file (`open(...).readlines()`) is left out. The lines are a parameter.
