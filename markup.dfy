/** The parsed markup the extractors read, and the raw records they produce.

    A fragment is described by the elements the extractors look up: each `Option<string>` is the
    text (or the attribute the extractor reads) of the first matching element, `None` when there is
    no such element. Markup parsing itself, and `<br>` replacement, happen before this point. */
module Markup {
  import opened Wrappers

  /** The last `<time>` element's `datetime` attribute, already decoded: its ISO text and its UTC
      epoch seconds (the value `calendar.timegm` gives). */
  datatype Instant = Instant(iso: string, epoch: int)

  /** `div.tgme_widget_message_forwarded_from`: the name as a span or as an anchor, and the href of
      the first anchor inside the header. */
  datatype ForwardedFragment = ForwardedFragment(
    nameSpan: Option<string>,
    nameAnchor: Option<string>,
    firstAnchorHref: Option<string>)

  /** `div.tgme_widget_message_poll` and the poll elements: voters, question, the text element of
      each option (`None` when an option has none), and the poll type label. */
  datatype PollFragment = PollFragment(
    votersText: Option<string>,
    question: Option<string>,
    options: seq<Option<string>>,
    typeLabel: Option<string>)

  /** The audio document icon is present; document title and extra (performer) texts. */
  datatype AudioFragment = AudioFragment(title: Option<string>, extra: Option<string>)

  /** `div.tgme_widget_message_video_wrap`: its `style`; the `style` of the video thumb, the text
      of the duration `<time>`, and the `src` of the `<video>` element, each if present. */
  datatype VideoFragment = VideoFragment(
    style: Option<string>,
    thumbStyle: Option<string>,
    durationText: Option<string>,
    videoSrc: Option<string>)

  /** `a.tgme_widget_message_photo_wrap`: its `style`, and the `style` of the inner
      `div.tgme_widget_message_photo` (`None` when that div or its style is missing). */
  datatype PhotoFragment = PhotoFragment(style: Option<string>, wrapperStyle: Option<string>)

  /** One message fragment. */
  datatype MessageFragment = MessageFragment(
    dateHref: Option<string>,          // a.tgme_widget_message_date
    viewsText: Option<string>,         // span.tgme_widget_message_views
    lastTime: Option<Instant>,         // the last <time>
    text: Option<string>,              // div.tgme_widget_message_text
    author: Option<string>,            // span.tgme_widget_message_from_author
    replyHref: Option<string>,         // a.tgme_widget_message_reply
    groupedWrap: bool,                 // div.tgme_widget_message_grouped_wrap is present
    groupedHrefs: seq<string>,         // every a.grouped_media_wrap, in document order
    forwarded: Option<ForwardedFragment>,
    poll: Option<PollFragment>,
    audio: Option<AudioFragment>,
    video: Option<VideoFragment>,
    photo: Option<PhotoFragment>,
    dataPeer: Option<string>)          // data-peer of div.tgme_widget_message

  /** A `div.tgme_channel_info_counter`: its type and value spans. */
  datatype CounterFragment = CounterFragment(typeText: Option<string>, valueText: Option<string>)

  /** `div.tgme_channel_info` and what is looked up inside it. */
  datatype ChannelInfoFragment = ChannelInfoFragment(
    avatarSrc: Option<string>,
    title: Option<string>,
    username: Option<string>,
    counters: seq<CounterFragment>,
    description: Option<string>)

  /** One fetched feed page: channel header, the message wraps in document order, and the hrefs of
      `link[rel=prev]` and `a.tme_messages_more`. */
  datatype Page = Page(
    channelInfo: Option<ChannelInfoFragment>,
    messages: seq<MessageFragment>,
    prevHref: Option<string>,
    moreHref: Option<string>)

  // ---------------------------------------------------------------------------
  // The dictionaries the extractors build.

  datatype PhotoData = PhotoData(width: Option<nat>, height: Option<nat>, url: Option<string>)

  datatype VideoData = VideoData(
    duration: nat, width: Option<nat>, height: Option<nat>,
    fileName: Option<string>, url: Option<string>, thumbUrl: Option<string>)

  datatype AudioData = AudioData(
    duration: Option<nat>, title: Option<string>, performer: Option<string>,
    fileName: Option<string>, url: Option<string>)

  datatype PollData = PollData(voters: nat, question: Option<string>, options: seq<string>, isQuiz: Option<bool>)

  /** The `type` key with the one type-specific dictionary that goes with it. `Untyped` is the
      generic dictionary before `parse` assigns a type. */
  datatype Kind =
    | Untyped
    | Album
    | Poll(poll: PollData)
    | Audio(audio: AudioData)
    | Video(video: VideoData)
    | Photo(photo: PhotoData)
    | Text

  /** `album_info`: `messages` is filled in by the crawler (empty until then). */
  datatype AlbumInfo = AlbumInfo(isAlbum: bool, links: seq<string>, messages: seq<RawMessage>)

  /** The `message` key of a forwarded header: absent, `{}`, or the parsed original. */
  datatype Original = Unresolved | Empty | Resolved(message: RawMessage)

  datatype ForwardedHeader = ForwardedHeader(
    channel: Option<string>, userName: Option<string>, channelId: Option<string>,
    messageId: Option<nat>, link: Option<string>, published: Option<Instant>, original: Original)

  /** The dictionary `parse` returns; `channelId` is the key the crawler adds (`None` until then). */
  datatype RawMessage = RawMessage(
    channel: Option<string>,
    link: Option<string>,
    id: Option<nat>,
    views: nat,
    published: Option<Instant>,
    text: Option<string>,
    album: AlbumInfo,
    forwarded: Option<ForwardedHeader>,
    author: Option<string>,
    replyTo: Option<nat>,
    kind: Kind,
    channelId: Option<string>)
  {
    /** `publish_timestamp`. */
    function Timestamp(): Option<int>
    {
      match published
      case None => None
      case Some(t) => Some(t.epoch)
    }
  }
}
