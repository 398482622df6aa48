/** The output records (src/models.py): the `MessageType` enum, the hashtag scanner, and the
    dataclasses `PostInfo`, `PhotoInfo`, `VideoInfo`, `AudioInfo`, `PollInfo` whose `format_*`
    methods fill their fields in place. `Post` and the `*Record` datatypes are the values the
    objects hold; `FormatPost` is what `format_post_info` does to that value. */
module Models {
  import opened Wrappers
  import opened Strings
  import opened Markup
  import opened ChannelParser

  datatype MessageType = VIDEO | PHOTO | AUDIO | POLL | TEXT | ALBUM

  // ---------------------------------------------------------------------------
  // Hashtags: `re.findall(r'#(\w+)', text)`.

  /** `\w`: ASCII letters, digits and '_', and every non-ASCII character except the no-break
      space, the general and CJK punctuation blocks, Arabic punctuation and the guillemets. */
  predicate IsWordChar(c: char)
  {
    if c < 128 as char then IsAsciiAlnum(c) || c == '_'
    else !(c == 0xA0 as char || c == 0xAB as char || c == 0xBB as char
           || (0x2000 as char <= c <= 0x206F as char) || (0x3000 as char <= c <= 0x303F as char)
           || c == 0x060C as char || c == 0x061B as char || c == 0x061F as char
           || (0x066A as char <= c <= 0x066D as char))
  }

  predicate IsAsciiAlnum(c: char) { IsDigit(c) || 'a' <= c <= 'z' || 'A' <= c <= 'Z' }

  /** The greedy run of word characters at the start of `s`. */
  function WordRun(s: string): (r: string)
    ensures IsPrefix(r, s)
    ensures forall i :: 0 <= i < |r| ==> IsWordChar(r[i])
    ensures |r| < |s| ==> !IsWordChar(s[|r|])
  {
    if |s| > 0 && IsWordChar(s[0]) then [s[0]] + WordRun(s[1..]) else ""
  }

  /** The hashtags of `s`, left to right: the scan resumes after each match. */
  function Hashtags(s: string): (tags: seq<string>)
    ensures forall i :: 0 <= i < |tags| ==> |tags[i]| > 0 && forall j :: 0 <= j < |tags[i]| ==> IsWordChar(tags[i][j])
    decreases |s|
  {
    if |s| == 0 then []
    else if s[0] == '#' && |WordRun(s[1..])| > 0 then [WordRun(s[1..])] + Hashtags(s[1 + |WordRun(s[1..])|..])
    else Hashtags(s[1..])
  }

  /** `parse_text_hashtags`: `findall` on `None` raises, and the handler returns `[]`. */
  function HashtagsOf(text: Option<string>): seq<string>
  {
    if text.None? then [] else Hashtags(text.value)
  }

  // ---------------------------------------------------------------------------
  // Record values.

  datatype PublisherRecord = PublisherRecord(
    link: string, channelId: Option<string>, author: Option<string>, title: Option<string>, username: Option<string>)

  datatype ForwardedRecord = ForwardedRecord(
    publishDatetime: Option<string>, userId: Option<string>, channelId: Option<string>, messageId: Option<nat>)

  datatype PhotoRecord = PhotoRecord(width: Option<nat>, height: Option<nat>, url: Option<string>)

  datatype VideoRecord = VideoRecord(
    duration: Option<nat>, width: Option<nat>, height: Option<nat>, url: Option<string>, thumbUrl: Option<string>)

  datatype AudioRecord = AudioRecord(duration: Option<nat>, title: Option<string>, performer: Option<string>)

  datatype Answer = Answer(option: string, text: string)

  datatype PollRecord = PollRecord(
    pollId: Option<nat>, totalVoters: Option<nat>, question: Option<string>, isQuiz: Option<bool>, answers: seq<Answer>)

  /** The value of a `PostInfo`; `messageId` holds either a message id or, for an album, a
      timestamp. */
  datatype Post = Post(
    postType: Option<MessageType>,
    messageId: Option<int>,
    text: Option<string>,
    hashtags: seq<string>,
    views: Option<nat>,
    publishDatetime: Option<Instant>,
    link: Option<string>,
    replyTo: Option<nat>,
    publisher: Option<PublisherRecord>,
    forwarded: Option<ForwardedRecord>,
    photo: Option<PhotoRecord>,
    video: Option<VideoRecord>,
    audio: Option<AudioRecord>,
    poll: Option<PollRecord>,
    albumMessages: seq<Post>)

  /** A freshly constructed `PostInfo()`. */
  const EmptyPost := Post(None, None, None, [], None, None, None, None, None, None, None, None, None, None, [])

  // ---------------------------------------------------------------------------
  // What the `format_*` methods do to a value.

  /** An f-string renders a missing channel as "None". */
  function ChannelText(channel: Option<string>): string
  {
    if channel.None? then "None" else channel.value
  }

  function IdAsInt(id: Option<nat>): Option<int>
  {
    if id.None? then None else Some(id.value as int)
  }

  /** The forwarded record built from the forwarded header: the header has no `user_id` key, so
      `get` yields `None` for it. */
  function ForwardedRecordOf(h: ForwardedHeader): ForwardedRecord
  {
    ForwardedRecord(if h.published.Some? then Some(h.published.value.iso) else None, None, h.channelId, h.messageId)
  }

  /** The publisher record: a link built from the channel name; title and user name only when
      a publisher dictionary is given, and then the user name is the message's channel. */
  function PublisherRecordOf(obj: RawMessage, publisher: Option<PublisherData>): PublisherRecord
  {
    PublisherRecord("https://t.me/" + ChannelText(obj.channel), obj.channelId, obj.author,
                    if publisher.Some? then publisher.value.title else None,
                    if publisher.Some? then obj.channel else None)
  }

  /** An album record takes the joined text it is given; any other record takes the message's. */
  function BodyOf(obj: RawMessage, postType: Option<MessageType>, text: Option<string>): Option<string>
  {
    if postType == Some(ALBUM) then text else obj.text
  }

  /** An album record is identified by its publication timestamp, any other by its message id. */
  function MessageIdOf(obj: RawMessage, postType: Option<MessageType>): Option<int>
  {
    if postType == Some(ALBUM) then obj.Timestamp() else IdAsInt(obj.id)
  }

  /** `format_post_info(obj, publisher, post_type, text)` applied to the value `p`: the forwarded
      record and the reply id are only ever set, never cleared. */
  function FormatPost(p: Post, obj: RawMessage, publisher: Option<PublisherData>, postType: Option<MessageType>,
                      text: Option<string>): Post
  {
    p.(views := Some(obj.views),
       publishDatetime := obj.published,
       link := obj.link,
       publisher := Some(PublisherRecordOf(obj, publisher)),
       messageId := MessageIdOf(obj, postType),
       text := BodyOf(obj, postType, text),
       hashtags := HashtagsOf(BodyOf(obj, postType, text)),
       forwarded := if obj.forwarded.Some? then Some(ForwardedRecordOf(obj.forwarded.value)) else p.forwarded,
       replyTo := if obj.replyTo.Some? then obj.replyTo else p.replyTo)
  }

  /** The answers `format_poll_info` appends: option `k + i` for the i-th text. */
  function AnswersFrom(options: seq<string>, k: nat): (r: seq<Answer>)
    ensures |r| == |options|
    decreases |options|
  {
    if |options| == 0 then [] else [Answer(NatToString(k), options[0])] + AnswersFrom(options[1..], k + 1)
  }

  function Answers(options: seq<string>): seq<Answer> { AnswersFrom(options, 0) }

  // ---------------------------------------------------------------------------
  // The dataclasses.

  class PhotoInfo {
    var width: Option<nat>
    var height: Option<nat>
    var url: Option<string>

    function Value(): PhotoRecord reads this { PhotoRecord(width, height, url) }

    constructor ()
      ensures Value() == PhotoRecord(None, None, None)
    {
      width, height, url := None, None, None;
    }

    /** `format_photo_info`: copies the photo dictionary. */
    method FormatPhotoInfo(d: PhotoData)
      modifies this
      ensures Value() == PhotoRecord(d.width, d.height, d.url)
    {
      width := d.width;
      height := d.height;
      url := d.url;
    }
  }

  class VideoInfo {
    var duration: Option<nat>
    var width: Option<nat>
    var height: Option<nat>
    var url: Option<string>
    var thumbUrl: Option<string>

    function Value(): VideoRecord reads this { VideoRecord(duration, width, height, url, thumbUrl) }

    constructor ()
      ensures Value() == VideoRecord(None, None, None, None, None)
    {
      duration, width, height, url, thumbUrl := None, None, None, None, None;
    }

    /** `format_video_info`: copies the video dictionary (its `file_name` has no field here). */
    method FormatVideoInfo(d: VideoData)
      modifies this
      ensures Value() == VideoRecord(Some(d.duration), d.width, d.height, d.url, d.thumbUrl)
    {
      duration := Some(d.duration);
      width := d.width;
      height := d.height;
      url := d.url;
      thumbUrl := d.thumbUrl;
    }
  }

  class AudioInfo {
    var duration: Option<nat>
    var title: Option<string>
    var performer: Option<string>

    function Value(): AudioRecord reads this { AudioRecord(duration, title, performer) }

    constructor ()
      ensures Value() == AudioRecord(None, None, None)
    {
      duration, title, performer := None, None, None;
    }

    /** `format_audio_info`: title and performer; the duration is left alone. */
    method FormatAudioInfo(d: AudioData)
      modifies this
      ensures Value() == AudioRecord(old(duration), d.title, d.performer)
    {
      title := d.title;
      performer := d.performer;
    }
  }

  class PollInfo {
    var pollId: Option<nat>
    var totalVoters: Option<nat>
    var question: Option<string>
    var isQuiz: Option<bool>
    var answers: seq<Answer>

    function Value(): PollRecord reads this { PollRecord(pollId, totalVoters, question, isQuiz, answers) }

    constructor ()
      ensures Value() == PollRecord(None, None, None, Some(false), [])
    {
      pollId, totalVoters, question, isQuiz, answers := None, None, None, Some(false), [];
    }

    /** `format_poll_info`: copies voters, question and quiz flag, and appends one numbered
        answer per option. */
    method FormatPollInfo(d: PollData)
      modifies this
      ensures Value() == PollRecord(old(pollId), Some(d.voters), d.question, d.isQuiz, old(answers) + Answers(d.options))
    {
      totalVoters := Some(d.voters);
      question := d.question;
      isQuiz := d.isQuiz;
      ghost var start := answers;
      var i := 0;
      while i < |d.options|
        invariant 0 <= i <= |d.options|
        invariant answers + AnswersFrom(d.options[i..], i) == start + Answers(d.options)
        invariant pollId == old(pollId) && totalVoters == Some(d.voters) && question == d.question && isQuiz == d.isQuiz
      {
        assert d.options[i..][1..] == d.options[i + 1..];
        answers := answers + [Answer(NatToString(i), d.options[i])];
        i := i + 1;
      }
      assert answers == answers + AnswersFrom(d.options[i..], i);
    }
  }

  class PostInfo {
    var postType: Option<MessageType>
    var messageId: Option<int>
    var text: Option<string>
    var hashtags: seq<string>
    var views: Option<nat>
    var publishDatetime: Option<Instant>
    var link: Option<string>
    var replyTo: Option<nat>
    var publisherInfo: Option<PublisherRecord>
    var forwardedInfo: Option<ForwardedRecord>
    var photoInfo: PhotoInfo?
    var videoInfo: VideoInfo?
    var audioInfo: AudioInfo?
    var pollInfo: PollInfo?
    var albumMessages: seq<PostInfo>

    /** The value of this record and its info objects; the album children are stated apart. */
    function Record(): Post
      reads this, photoInfo, videoInfo, audioInfo, pollInfo
    {
      Post(postType, messageId, text, hashtags, views, publishDatetime, link, replyTo, publisherInfo, forwardedInfo,
           if photoInfo == null then None else Some(photoInfo.Value()),
           if videoInfo == null then None else Some(videoInfo.Value()),
           if audioInfo == null then None else Some(audioInfo.Value()),
           if pollInfo == null then None else Some(pollInfo.Value()),
           [])
    }

    constructor ()
      ensures Record() == EmptyPost && albumMessages == []
    {
      postType, messageId, text, hashtags := None, None, None, [];
      views, publishDatetime, link, replyTo := None, None, None, None;
      publisherInfo, forwardedInfo := None, None;
      photoInfo, videoInfo, audioInfo, pollInfo := null, null, null, null;
      albumMessages := [];
    }

    /** `format_post_info`. */
    method FormatPostInfo(obj: RawMessage, publisher: Option<PublisherData>, postType': Option<MessageType>,
                          text': Option<string>)
      modifies this`views, this`publishDatetime, this`link, this`publisherInfo, this`messageId, this`text, this`hashtags
      modifies this`forwardedInfo, this`replyTo
      ensures views == Some(obj.views) && publishDatetime == obj.published && link == obj.link
      ensures publisherInfo == Some(PublisherRecordOf(obj, publisher))
      ensures messageId == MessageIdOf(obj, postType') && text == BodyOf(obj, postType', text') && hashtags == HashtagsOf(text)
      ensures forwardedInfo == if obj.forwarded.Some? then Some(ForwardedRecordOf(obj.forwarded.value)) else old(forwardedInfo)
      ensures replyTo == if obj.replyTo.Some? then obj.replyTo else old(replyTo)
    {
      var newForwarded, newReply := forwardedInfo, replyTo;
      if obj.forwarded.Some? {
        newForwarded := Some(ForwardedRecordOf(obj.forwarded.value));
      }
      if obj.replyTo.Some? {
        newReply := obj.replyTo;
      }
      var body := BodyOf(obj, postType', text');
      views, publishDatetime, link, publisherInfo, messageId, text, hashtags, forwardedInfo, replyTo :=
        Some(obj.views), obj.published, obj.link, Some(PublisherRecordOf(obj, publisher)), MessageIdOf(obj, postType'),
        body, HashtagsOf(body), newForwarded, newReply;
    }
  }

  // ---------------------------------------------------------------------------
  // Properties.

  /** '#' followed by a maximal word run, then anything: the run is the first tag. */
  lemma {:induction false} WordRunMaximal(w: string, rest: string)
    requires forall i :: 0 <= i < |w| ==> IsWordChar(w[i])
    requires |rest| > 0 ==> !IsWordChar(rest[0])
    ensures WordRun(w + rest) == w
  {
    if |w| > 0 {
      assert (w + rest)[1..] == w[1..] + rest;
      WordRunMaximal(w[1..], rest);
      assert [w[0]] + w[1..] == w;
    } else {
      assert w + rest == rest;
    }
  }

  /** A '#' followed by a word character somewhere in `s`. */
  predicate HasHashWord(s: string)
  {
    exists i :: 0 <= i < |s| - 1 && s[i] == '#' && IsWordChar(s[i + 1])
  }

  /** A text has hashtags exactly when some '#' is followed by a word character: "C# is great"
      and "#!" have none. */
  lemma {:induction false} NoHashWordNoTags(s: string)
    ensures Hashtags(s) == [] <==> !HasHashWord(s)
    decreases |s|
  {
    if |s| > 0 {
      NoHashWordNoTags(s[1..]);
      if s[0] == '#' && |s| > 1 && IsWordChar(s[1]) {
        assert |WordRun(s[1..])| > 0;
        assert HasHashWord(s);
      } else {
        assert Hashtags(s) == Hashtags(s[1..]) by {
          if s[0] == '#' && |s| > 1 {
            assert s[1..][0] == s[1];
          }
        }
        assert HasHashWord(s) <==> HasHashWord(s[1..]) by {
          if HasHashWord(s) {
            var i :| 0 <= i < |s| - 1 && s[i] == '#' && IsWordChar(s[i + 1]);
            assert i > 0;
            assert s[1..][i - 1] == s[i] && s[1..][i] == s[i + 1];
          }
          if HasHashWord(s[1..]) {
            var i :| 0 <= i < |s[1..]| - 1 && s[1..][i] == '#' && IsWordChar(s[1..][i + 1]);
            assert s[i + 1] == '#' && IsWordChar(s[i + 2]);
          }
        }
      }
    }
  }

  /** "#t1 #t2 ... " built from tags. */
  function TagLine(tags: seq<string>): string
  {
    if |tags| == 0 then "" else "#" + tags[0] + " " + TagLine(tags[1..])
  }

  /** Scanning a line of tags gives the tags back, in order. */
  lemma {:induction false} HashtagsRoundTrip(tags: seq<string>)
    requires forall i :: 0 <= i < |tags| ==> |tags[i]| > 0 && forall j :: 0 <= j < |tags[i]| ==> IsWordChar(tags[i][j])
    ensures Hashtags(TagLine(tags)) == tags
  {
    if |tags| > 0 {
      var t, rest := tags[0], TagLine(tags[1..]);
      var s := TagLine(tags);
      assert s == "#" + (t + (" " + rest));
      assert s[1..] == t + (" " + rest);
      WordRunMaximal(t, " " + rest);
      assert s[1 + |t|..] == " " + rest;
      assert (" " + rest)[1..] == rest;
      HashtagsRoundTrip(tags[1..]);
    }
  }

  /** The answers are numbered from 0 in option order: `answers[i]` is `(str(i), options[i])`,
      and each number reads back as its index. */
  lemma {:induction false} AnswersNumbered(options: seq<string>, k: nat)
    ensures |AnswersFrom(options, k)| == |options|
    ensures forall i :: 0 <= i < |options| ==> AnswersFrom(options, k)[i] == Answer(NatToString(k + i), options[i])
    decreases |options|
  {
    if |options| > 0 {
      AnswersNumbered(options[1..], k + 1);
      forall i | 1 <= i < |options|
        ensures AnswersFrom(options, k)[i] == Answer(NatToString(k + i), options[i])
      {
        assert AnswersFrom(options, k)[i] == AnswersFrom(options[1..], k + 1)[i - 1];
      }
    }
  }

  /** Answer labels are distinct, so each answer is identified by its label. */
  lemma AnswerLabelsDistinct(options: seq<string>, i: nat, j: nat)
    requires i < j < |options|
    ensures Answers(options)[i].option != Answers(options)[j].option
    ensures ParseInt(Answers(options)[i].option) == Some(i)
  {
    AnswersNumbered(options, 0);
    NatToStringRoundTrip(i);
    NatToStringRoundTrip(j);
  }
}
