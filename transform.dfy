/** The flattening of crawled messages into output records (src/transform.py): the media slot of
    a record is chosen by the message's type, and an album becomes one record with one child per
    message. */
module Transform {
  import opened Wrappers
  import opened Strings
  import opened Markup
  import opened ChannelParser
  import opened Models

  /** The enum value a message's type maps to; albums, text and untyped messages are TEXT. */
  function TypeOfKind(k: Kind): MessageType
  {
    match k
    case Video(_) => VIDEO
    case Photo(_) => PHOTO
    case Audio(_) => AUDIO
    case Poll(_) => POLL
    case _ => TEXT
  }

  function VideoRecordOf(d: VideoData): VideoRecord
  {
    VideoRecord(Some(d.duration), d.width, d.height, d.url, d.thumbUrl)
  }

  /** `_get_message_type` applied to the value `p`: it sets the type and fills one fresh info
      object for media messages. */
  function WithType(p: Post, obj: RawMessage): Post
  {
    match obj.kind
    case Video(d) => p.(postType := Some(VIDEO), video := Some(VideoRecordOf(d)))
    case Photo(d) => p.(postType := Some(PHOTO), photo := Some(PhotoRecord(d.width, d.height, d.url)))
    case Audio(d) => p.(postType := Some(AUDIO), audio := Some(AudioRecord(None, d.title, d.performer)))
    case Poll(d) => p.(postType := Some(POLL), poll := Some(PollRecord(None, Some(d.voters), d.question, d.isQuiz, Answers(d.options))))
    case _ => p.(postType := Some(TEXT))
  }

  /** The child record `get_album_messages` builds for one album message. */
  function AlbumMessage(obj: RawMessage): Post
  {
    WithType(EmptyPost.(messageId := IdAsInt(obj.id), text := obj.text, hashtags := HashtagsOf(obj.text)), obj)
  }

  /** The part of a message's text the album text takes: nothing for a missing text. */
  function TextPart(obj: RawMessage): string
  {
    if obj.text.Some? then obj.text.value else ""
  }

  /** `"".join(o['text'] for o in objects if o['text'])`. */
  function JoinTexts(objects: seq<RawMessage>): string
  {
    if |objects| == 0 then "" else TextPart(objects[0]) + JoinTexts(objects[1..])
  }

  /** `transform`: a single message becomes its own typed record; several become one album record
      that carries the first message's header, the joined text, and one child per message.
      An empty list raises `IndexError` in the source; no caller passes one. */
  function TransformSpec(objects: seq<RawMessage>, publisher: Option<PublisherData>): Post
    requires |objects| > 0
  {
    if |objects| == 1 then WithType(FormatPost(EmptyPost, objects[0], publisher, None, None), objects[0])
    else
      FormatPost(EmptyPost, objects[0], publisher, Some(ALBUM), Some(JoinTexts(objects)))
        .(postType := Some(ALBUM), albumMessages := seq(|objects|, i requires 0 <= i < |objects| => AlbumMessage(objects[i])))
  }

  /** `_get_message_type(obj, data)`. */
  method GetMessageType(obj: RawMessage, data: PostInfo)
    modifies data`postType, data`photoInfo, data`videoInfo, data`audioInfo, data`pollInfo
    ensures data.postType == Some(TypeOfKind(obj.kind))
    ensures if obj.kind.Video? then fresh(data.videoInfo) && data.videoInfo.Value() == VideoRecordOf(obj.kind.video)
            else data.videoInfo == old(data.videoInfo)
    ensures if obj.kind.Photo? then fresh(data.photoInfo) && data.photoInfo.Value() == PhotoRecord(obj.kind.photo.width, obj.kind.photo.height, obj.kind.photo.url)
            else data.photoInfo == old(data.photoInfo)
    ensures if obj.kind.Audio? then fresh(data.audioInfo) && data.audioInfo.Value() == AudioRecord(None, obj.kind.audio.title, obj.kind.audio.performer)
            else data.audioInfo == old(data.audioInfo)
    ensures if obj.kind.Poll? then fresh(data.pollInfo) && data.pollInfo.Value() == PollRecord(None, Some(obj.kind.poll.voters), obj.kind.poll.question, obj.kind.poll.isQuiz, Answers(obj.kind.poll.options))
            else data.pollInfo == old(data.pollInfo)
  {
    match obj.kind
    case Video(d) =>
      data.postType := Some(VIDEO);
      var info := new VideoInfo();
      info.FormatVideoInfo(d);
      data.videoInfo := info;
    case Photo(d) =>
      data.postType := Some(PHOTO);
      var info := new PhotoInfo();
      info.FormatPhotoInfo(d);
      data.photoInfo := info;
    case Audio(d) =>
      data.postType := Some(AUDIO);
      var info := new AudioInfo();
      info.FormatAudioInfo(d);
      data.audioInfo := info;
    case Poll(d) =>
      data.postType := Some(POLL);
      var info := new PollInfo();
      info.FormatPollInfo(d);
      data.pollInfo := info;
    case _ =>
      data.postType := Some(TEXT);
  }

  /** A fresh record after `_get_message_type` holds `WithType` of its value. */
  method TypedRecord(obj: RawMessage, data: PostInfo, ghost before: Post)
    requires data.photoInfo == null && data.videoInfo == null && data.audioInfo == null && data.pollInfo == null
    requires data.Record() == before
    modifies data`postType, data`photoInfo, data`videoInfo, data`audioInfo, data`pollInfo
    ensures data.Record() == WithType(before, obj)
  {
    GetMessageType(obj, data);
  }

  /** One step of `get_album_messages`: the child record of one message. */
  method NewAlbumMessage(obj: RawMessage) returns (child: PostInfo)
    ensures fresh(child)
    ensures child.Record() == AlbumMessage(obj) && child.albumMessages == []
  {
    child := new PostInfo();
    child.messageId := IdAsInt(obj.id);
    child.text := obj.text;
    child.hashtags := HashtagsOf(obj.text);
    TypedRecord(obj, child, EmptyPost.(messageId := IdAsInt(obj.id), text := obj.text, hashtags := HashtagsOf(obj.text)));
  }

  /** `get_album_messages`: one fresh child record per message, in order. */
  method GetAlbumMessages(objects: seq<RawMessage>) returns (children: seq<PostInfo>)
    ensures |children| == |objects|
    ensures forall i :: 0 <= i < |objects| ==> fresh(children[i])
    ensures forall i :: 0 <= i < |objects| ==> children[i].Record() == AlbumMessage(objects[i]) && children[i].albumMessages == []
  {
    children := [];
    var i := 0;
    while i < |objects|
      invariant 0 <= i <= |objects| && |children| == i
      invariant forall j :: 0 <= j < i ==> fresh(children[j])
      invariant forall j :: 0 <= j < i ==> children[j].Record() == AlbumMessage(objects[j]) && children[j].albumMessages == []
    {
      var child := NewAlbumMessage(objects[i]);
      children := children + [child];
      i := i + 1;
    }
  }

  /** A fresh record after `format_post_info`, before its type is set. */
  method FormattedRecord(obj: RawMessage, publisher: Option<PublisherData>, postType: Option<MessageType>,
                         text: Option<string>) returns (data: PostInfo)
    ensures fresh(data)
    ensures data.Record() == FormatPost(EmptyPost, obj, publisher, postType, text) && data.albumMessages == []
    ensures data.photoInfo == null && data.videoInfo == null && data.audioInfo == null && data.pollInfo == null
  {
    data := new PostInfo();
    data.FormatPostInfo(obj, publisher, postType, text);
  }

  /** `transform(objects, publisher)`. */
  method TransformMessages(objects: seq<RawMessage>, publisher: Option<PublisherData>) returns (data: PostInfo)
    requires |objects| > 0
    ensures fresh(data)
    ensures data.Record() == TransformSpec(objects, publisher).(albumMessages := [])
    ensures |data.albumMessages| == |TransformSpec(objects, publisher).albumMessages|
    ensures forall i :: 0 <= i < |data.albumMessages| ==>
      data.albumMessages[i].Record() == TransformSpec(objects, publisher).albumMessages[i]
  {
    if |objects| == 1 {
      data := FormattedRecord(objects[0], publisher, None, None);
      TypedRecord(objects[0], data, FormatPost(EmptyPost, objects[0], publisher, None, None));
    } else {
      var text := JoinTexts(objects);
      data := FormattedRecord(objects[0], publisher, Some(ALBUM), Some(text));
      data.postType := Some(ALBUM);
      var children := GetAlbumMessages(objects);
      data.albumMessages := children;
    }
  }

  // ---------------------------------------------------------------------------
  // Properties.

  /** `_get_message_type` fills exactly the slot of the message's type and leaves the rest. */
  lemma WithTypeSlot(p: Post, obj: RawMessage)
    ensures var q := WithType(p, obj);
      && q.postType == Some(TypeOfKind(obj.kind))
      && (q.video != p.video ==> obj.kind.Video?) && (obj.kind.Video? ==> q.video.Some?)
      && (q.photo != p.photo ==> obj.kind.Photo?) && (obj.kind.Photo? ==> q.photo.Some?)
      && (q.audio != p.audio ==> obj.kind.Audio?) && (obj.kind.Audio? ==> q.audio.Some?)
      && (q.poll != p.poll ==> obj.kind.Poll?) && (obj.kind.Poll? ==> q.poll.Some?)
      && q.(postType := p.postType, video := p.video, photo := p.photo, audio := p.audio, poll := p.poll) == p
  {
  }

  /** A message of any other type is TEXT: albums included. */
  lemma TypeOfKindText(k: Kind)
    ensures TypeOfKind(k) == TEXT <==> !(k.Video? || k.Photo? || k.Audio? || k.Poll?)
  {
  }

  /** A poll record lists one answer per option, numbered from "0". */
  lemma WithTypePoll(p: Post, obj: RawMessage)
    requires obj.kind.Poll?
    ensures var answers := WithType(p, obj).poll.value.answers;
      && |answers| == |obj.kind.poll.options|
      && forall i :: 0 <= i < |answers| ==> answers[i] == Answer(NatToString(i), obj.kind.poll.options[i])
  {
    AnswersNumbered(obj.kind.poll.options, 0);
  }

  /** A single message keeps its own id, text and hashtags, takes the type of its kind, and has
      no children. */
  lemma TransformSingle(obj: RawMessage, publisher: Option<PublisherData>)
    ensures var r := TransformSpec([obj], publisher);
      && r.postType == Some(TypeOfKind(obj.kind)) && r.postType != Some(ALBUM)
      && r.messageId == IdAsInt(obj.id) && r.text == obj.text && r.hashtags == HashtagsOf(obj.text)
      && r.link == obj.link && r.views == Some(obj.views) && r.publishDatetime == obj.published
      && r.publisher == Some(PublisherRecordOf(obj, publisher))
      && r.forwarded == (if obj.forwarded.Some? then Some(ForwardedRecordOf(obj.forwarded.value)) else None)
      && r.replyTo == obj.replyTo
      && r.albumMessages == []
  {
    var q := FormatPost(EmptyPost, obj, publisher, None, None);
    FormatPostHeader(obj, publisher);
    WithTypeKeepsHeader(q, obj);
  }

  /** The header a single message writes: its own id, text, link, views, date and publisher. */
  lemma FormatPostHeader(obj: RawMessage, publisher: Option<PublisherData>)
    ensures var q := FormatPost(EmptyPost, obj, publisher, None, None);
      && q.messageId == IdAsInt(obj.id) && q.text == obj.text && q.hashtags == HashtagsOf(obj.text)
      && q.link == obj.link && q.views == Some(obj.views) && q.publishDatetime == obj.published
      && q.publisher == Some(PublisherRecordOf(obj, publisher)) && q.albumMessages == []
      && q.forwarded == (if obj.forwarded.Some? then Some(ForwardedRecordOf(obj.forwarded.value)) else None)
      && q.replyTo == obj.replyTo
  {
  }

  /** `_get_message_type` leaves the header and the children alone. */
  lemma WithTypeKeepsHeader(p: Post, obj: RawMessage)
    ensures var q := WithType(p, obj);
      && q.postType == Some(TypeOfKind(obj.kind))
      && q.messageId == p.messageId && q.text == p.text && q.hashtags == p.hashtags
      && q.link == p.link && q.views == p.views && q.publishDatetime == p.publishDatetime
      && q.publisher == p.publisher && q.albumMessages == p.albumMessages
      && q.forwarded == p.forwarded && q.replyTo == p.replyTo
  {
  }

  /** Several messages give one ALBUM record: the first message supplies id (its timestamp),
      link, views, date, publisher, forward and reply fields; the text is the joined text; there
      is no media slot. */
  lemma TransformAlbumHeader(objects: seq<RawMessage>, publisher: Option<PublisherData>)
    requires |objects| > 1
    ensures var r := TransformSpec(objects, publisher);
      && r.postType == Some(ALBUM)
      && r.messageId == objects[0].Timestamp()
      && r.text == Some(JoinTexts(objects)) && r.hashtags == Hashtags(JoinTexts(objects))
      && r.link == objects[0].link && r.views == Some(objects[0].views)
      && r.publisher == Some(PublisherRecordOf(objects[0], publisher))
      && r.forwarded == (if objects[0].forwarded.Some? then Some(ForwardedRecordOf(objects[0].forwarded.value)) else None)
      && r.replyTo == objects[0].replyTo && r.publishDatetime == objects[0].published
      && r.photo.None? && r.video.None? && r.audio.None? && r.poll.None?
  {
  }

  /** A child record keeps its message's id and text, and takes the type of its kind. */
  lemma AlbumMessageFields(obj: RawMessage)
    ensures var c := AlbumMessage(obj);
      && c.messageId == IdAsInt(obj.id) && c.text == obj.text && c.hashtags == HashtagsOf(obj.text)
      && c.postType == Some(TypeOfKind(obj.kind)) && c.albumMessages == [] && c.publisher.None?
  {
  }

  /** The children of an album record follow the messages one to one, in order. */
  lemma TransformAlbumChildren(objects: seq<RawMessage>, publisher: Option<PublisherData>)
    requires |objects| > 1
    ensures var r := TransformSpec(objects, publisher);
      && |r.albumMessages| == |objects|
      && forall i :: 0 <= i < |objects| ==> r.albumMessages[i] == AlbumMessage(objects[i])
  {
  }

  /** The album text is the concatenation of the parts, so it splits over any split of the list. */
  lemma {:induction false} JoinTextsAppend(a: seq<RawMessage>, b: seq<RawMessage>)
    ensures JoinTexts(a + b) == JoinTexts(a) + JoinTexts(b)
  {
    if |a| == 0 {
      assert a + b == b;
    } else {
      assert (a + b)[1..] == a[1..] + b;
      JoinTextsAppend(a[1..], b);
    }
  }

  /** Messages without text add nothing to the album text. */
  lemma {:induction false} JoinTextsWithoutText(objects: seq<RawMessage>)
    requires forall i :: 0 <= i < |objects| ==> objects[i].text.None? || objects[i].text == Some("")
    ensures JoinTexts(objects) == ""
  {
    if |objects| > 0 {
      JoinTextsWithoutText(objects[1..]);
    }
  }

  /** Three messages with texts "a", a missing or empty one, and "c" give the album text "ac". */
  lemma JoinTextsExample(a: RawMessage, b: RawMessage, c: RawMessage)
    requires a.text == Some("a") && (b.text.None? || b.text == Some("")) && c.text == Some("c")
    ensures JoinTexts([a, b, c]) == "ac"
  {
    assert [a, b, c][1..] == [b, c];
    assert [b, c][1..] == [c];
    assert [c][1..] == [];
    assert JoinTexts([c]) == "c";
    assert JoinTexts([b, c]) == "c";
  }
}
