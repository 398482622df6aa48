/** `TelegramWebMessageParser` (src/telegram_web.py): the field extractors of one message fragment
    and the type classifier `parse`. Each `extract_*` is a method that fills a default dictionary
    step by step, proved equal to a specification function; the functions are what the crawler's
    specification and the lemmas use. */
module MessageParser {
  import opened Wrappers
  import opened Strings
  import opened ParserHelpers
  import opened Markup

  // ---------------------------------------------------------------------------
  // The three regular expressions, written as scanners.

  /** A character of the class `[0-9]`, or `[.0-9]` when `dots` holds. */
  predicate RunChar(c: char, dots: bool) { IsDigit(c) || (dots && c == '.') }

  /** The greedy run `[0-9]+` / `[.0-9]+` at the start of `s` (possibly empty). */
  function RunOf(s: string, dots: bool): (r: string)
    ensures IsPrefix(r, s)
    ensures forall i :: 0 <= i < |r| ==> RunChar(r[i], dots)
    ensures |r| < |s| ==> !RunChar(s[|r|], dots)
  {
    if |s| > 0 && RunChar(s[0], dots) then [s[0]] + RunOf(s[1..], dots) else ""
  }

  /** `re.findall(key + '([0-9]+)', s)` (or `[.0-9]+`), first match: the leftmost position where
      `key` is followed by at least one run character. */
  function FirstCapture(s: string, key: string, dots: bool): (r: Option<string>)
    ensures r.Some? ==> |r.value| > 0 && forall i :: 0 <= i < |r.value| ==> RunChar(r.value[i], dots)
    decreases |s|
  {
    if |s| == 0 then None
    else if IsPrefix(key, s) && |RunOf(s[|key|..], dots)| > 0 then Some(RunOf(s[|key|..], dots))
    else FirstCapture(s[1..], key, dots)
  }

  const BackgroundKey: string := "background-image:"

  /** The lazy group `(.+?)'.` starting at `c`: the shortest non-empty run of non-newline
      characters followed by a quote and one more non-newline character. */
  function LazyQuoted(s: string, c: nat, e: nat): Option<string>
    requires c < e
    decreases |s| - e
  {
    if e >= |s| || c >= |s| then None
    else if s[e] == '\'' && e + 1 < |s| && s[e + 1] != '\n' then Some(s[c..e])
    else if s[e] == '\n' then None
    else LazyQuoted(s, c, e + 1)
  }

  /** `url.'(.+?)'.` at position `k`. */
  function UrlAt(s: string, k: nat): Option<string>
  {
    if k + 5 <= |s| && s[k..k + 3] == "url" && s[k + 3] != '\n' && s[k + 4] == '\'' && k + 5 < |s| && s[k + 5] != '\n'
    then LazyQuoted(s, k + 5, k + 6)
    else None
  }

  /** The pattern `background-image:.?url.'(.+?)'.` anchored at `i`, where the key is known to
      start: `.?` first tries one character, then none. */
  function BackgroundAt(s: string, i: nat): Option<string>
  {
    var j := i + |BackgroundKey|;
    var one := if j < |s| && s[j] != '\n' then UrlAt(s, j + 1) else None;
    if one.Some? then one else UrlAt(s, j)
  }

  /** `re.findall("background-image:.?url.'(.+?)'.", s)`, first match. */
  function BackgroundUrlFrom(s: string, i: nat): Option<string>
    decreases |s| - i
  {
    if i >= |s| then None
    else if IsPrefix(BackgroundKey, s[i..]) && BackgroundAt(s, i).Some? then BackgroundAt(s, i)
    else BackgroundUrlFrom(s, i + 1)
  }

  function BackgroundUrl(s: string): Option<string> { BackgroundUrlFrom(s, 0) }

  // ---------------------------------------------------------------------------
  // Width and height from the padding ratio.

  /** `int(width * float(ratio) / 100)` for the exact decimal ratio. */
  function HeightOf(width: nat, ratio: Decimal): nat
  {
    (width * ratio.digits) / (Pow(10, ratio.scale) * 100)
  }

  /** The `try` block of the photo and video extractors: width from `width:N` in the first style,
      height from `padding-top:R` in the second; a failure leaves the rest at `None`. */
  function Dimensions(widthStyle: Option<string>, ratioStyle: Option<string>): (Option<nat>, Option<nat>)
  {
    var w := if widthStyle.Some? then FirstCapture(widthStyle.value, "width:", false) else None;
    if w.None? then (None, None)
    else
      var width := DigitsValue(w.value);
      var r := if ratioStyle.Some? then FirstCapture(ratioStyle.value, "padding-top:", true) else None;
      var d := if r.Some? then ParseDecimal(r.value) else None;
      if d.None? then (Some(width), None) else (Some(width), Some(HeightOf(width, d.value)))
  }

  // ---------------------------------------------------------------------------
  // Specification functions of the extractors.

  /** `extract_photo_info`: `None` without the photo anchor; the URL lookup is outside the `try`,
      so a missing style or URL raises. */
  function PhotoOf(f: MessageFragment): Result<Option<PhotoData>>
  {
    match f.photo
    case None => Ok(None)
    case Some(p) =>
      var (w, h) := Dimensions(p.style, p.wrapperStyle);
      if p.style.None? || BackgroundUrl(p.style.value).None? then Raised
      else Ok(Some(PhotoData(w, h, BackgroundUrl(p.style.value))))
  }

  /** `extract_video_info`: width and height both read from the wrapper's style; the thumb URL is
      best effort; an unreadable duration raises. */
  function VideoOf(f: MessageFragment): Result<Option<VideoData>>
  {
    match f.video
    case None => Ok(None)
    case Some(v) =>
      var (w, h) := Dimensions(v.style, v.style);
      var thumb := if v.thumbStyle.Some? then BackgroundUrl(v.thumbStyle.value) else None;
      var duration :- if v.durationText.Some? then DurationSeconds(v.durationText.value) else Ok(0);
      Ok(Some(VideoData(duration, w, h, None, v.videoSrc, thumb)))
  }

  /** `extract_audio_info`: title and performer texts; never raises. */
  function AudioOf(f: MessageFragment): Option<AudioData>
  {
    match f.audio
    case None => None
    case Some(a) => Some(AudioData(None, a.title, a.extra, None, None))
  }

  /** The option texts, or `None` when some option has no text element. */
  function OptionTexts(options: seq<Option<string>>): (r: Option<seq<string>>)
    ensures r.Some? <==> forall i :: 0 <= i < |options| ==> options[i].Some?
    ensures r.Some? ==> |r.value| == |options| && forall i :: 0 <= i < |options| ==> r.value[i] == options[i].value
  {
    if |options| == 0 then Some([])
    else
      var rest := OptionTexts(options[1..]);
      if options[0].None? then None
      else if rest.None? then
        assert exists i :: 0 <= i < |options| - 1 && options[1..][i].None?;
        None
      else Some([options[0].value] + rest.value)
  }

  /** `is_quiz`: `None` without a type label, else whether it mentions "quiz" in any case. */
  function QuizFlag(typeLabel: Option<string>): Option<bool>
  {
    if typeLabel.None? then None else Some(Contains(Lower(typeLabel.value), "quiz"))
  }

  /** The voters count: 0 without the element, else its shorthand value (which may raise). */
  function VotersOf(p: PollFragment): Result<nat>
  {
    if p.votersText.Some? then ShorthandToNumber(p.votersText.value) else Ok(0)
  }

  /** `extract_poll_info`. */
  function PollOf(f: MessageFragment): Result<Option<PollData>>
  {
    match f.poll
    case None => Ok(None)
    case Some(p) =>
      var voters :- VotersOf(p);
      var options := OptionTexts(p.options);
      if options.None? then Raised
      else Ok(Some(PollData(voters, p.question, options.value, QuizFlag(p.typeLabel))))
  }

  /** `extract_forwarded_from_info`: the name from the span, else from the anchor (neither raises);
      the first anchor's href without its query, decoded best effort. */
  function ForwardedOf(f: MessageFragment): Result<Option<ForwardedHeader>>
  {
    match f.forwarded
    case None => Ok(None)
    case Some(h) =>
      if h.nameSpan.None? && h.nameAnchor.None? then Raised
      else
        var name := if h.nameSpan.Some? then h.nameSpan else h.nameAnchor;
        var link := if h.firstAnchorHref.Some? then Some(Split(h.firstAnchorHref.value, '?')[0]) else None;
        var decoded := if link.Some? then ChannelAndMessageId(link.value) else Raised;
        var channel := if decoded.Ok? then Some(decoded.value.channel) else None;
        var messageId := if decoded.Ok? then Some(decoded.value.id) else None;
        Ok(Some(ForwardedHeader(channel, name, None, messageId, link, None, Unresolved)))
  }

  /** `href.replace('?single', '')`. */
  function StripSingle(href: string): string { RemoveAll(href, "?single") }

  /** `extract_album_info`. */
  function AlbumOf(f: MessageFragment): (a: AlbumInfo)
  {
    if f.groupedWrap then AlbumInfo(true, seq(|f.groupedHrefs|, i requires 0 <= i < |f.groupedHrefs| => StripSingle(f.groupedHrefs[i])), [])
    else AlbumInfo(false, [], [])
  }

  /** `extract_generic_info`. The permalink's query is cut off before decoding; a reply anchor's
      href is decoded as is and, the variable being reused, becomes the `link` field. */
  function GenericOf(f: MessageFragment): Result<RawMessage>
  {
    var permalink := if f.dateHref.Some? then Some(Split(f.dateHref.value, '?')[0]) else None;
    var ref :- if permalink.Some? then ChannelAndMessageId(permalink.value) else Ok(MessageRef("", 0));
    var views :- if f.viewsText.Some? then ShorthandToNumber(f.viewsText.value) else Ok(0);
    var reply :- if f.replyHref.Some? then ChannelAndMessageId(f.replyHref.value) else Ok(MessageRef("", 0));
    var forwarded :- ForwardedOf(f);
    Ok(RawMessage(
      channel := if permalink.Some? then Some(ref.channel) else None,
      link := if f.replyHref.Some? then f.replyHref else permalink,
      id := if permalink.Some? then Some(ref.id) else None,
      views := views,
      published := f.lastTime,
      text := f.text,
      album := AlbumOf(f),
      forwarded := forwarded,
      author := f.author,
      replyTo := if f.replyHref.Some? then Some(reply.id) else None,
      kind := Untyped,
      channelId := None))
  }

  /** `parse`: an album returns at once; otherwise the first detector that finds its element wins,
      in the order poll, audio, video, photo, and the rest is text. */
  function ParseMessage(f: MessageFragment): Result<RawMessage>
  {
    var g :- GenericOf(f);
    if g.album.isAlbum then Ok(g.(kind := Album))
    else
      var poll :- PollOf(f);
      if poll.Some? then Ok(g.(kind := Poll(poll.value)))
      else if AudioOf(f).Some? then Ok(g.(kind := Audio(AudioOf(f).value)))
      else
        var video :- VideoOf(f);
        if video.Some? then Ok(g.(kind := Video(video.value)))
        else
          var photo :- PhotoOf(f);
          if photo.Some? then Ok(g.(kind := Photo(photo.value)))
          else Ok(g.(kind := Text))
  }

  /** `extract_channel_id`: the `data-peer` text up to its first '_', without its first character. */
  function ChannelIdOf(f: MessageFragment): Option<string>
  {
    if f.dataPeer.None? then None
    else
      var head := Split(f.dataPeer.value, '_')[0];
      Some(if |head| == 0 then "" else head[1..])
  }

  // ---------------------------------------------------------------------------
  // The extractors, step by step.

  method ExtractPhotoInfo(f: MessageFragment) returns (r: Result<Option<PhotoData>>)
    ensures r == PhotoOf(f)
  {
    if f.photo.None? {
      return Ok(None);
    }
    var photo := f.photo.value;
    var info := PhotoData(None, None, None);
    // try: width, then height from the wrapper's ratio
    var width := if photo.style.Some? then FirstCapture(photo.style.value, "width:", false) else None;
    if width.Some? {
      info := info.(width := Some(DigitsValue(width.value)));
      var ratio := if photo.wrapperStyle.Some? then FirstCapture(photo.wrapperStyle.value, "padding-top:", true) else None;
      var d := if ratio.Some? then ParseDecimal(ratio.value) else None;
      if d.Some? {
        info := info.(height := Some(HeightOf(info.width.value, d.value)));
      }
    }
    // outside the try: the URL
    if photo.style.None? {
      return Raised;
    }
    var url := BackgroundUrl(photo.style.value);
    if url.None? {
      return Raised;
    }
    info := info.(url := url);
    r := Ok(Some(info));
  }

  method ExtractVideoInfo(f: MessageFragment) returns (r: Result<Option<VideoData>>)
    ensures r == VideoOf(f)
  {
    if f.video.None? {
      return Ok(None);
    }
    var video := f.video.value;
    var info := VideoData(0, None, None, None, None, None);
    var width := if video.style.Some? then FirstCapture(video.style.value, "width:", false) else None;
    if width.Some? {
      info := info.(width := Some(DigitsValue(width.value)));
      var ratio := FirstCapture(video.style.value, "padding-top:", true);
      var d := if ratio.Some? then ParseDecimal(ratio.value) else None;
      if d.Some? {
        info := info.(height := Some(HeightOf(info.width.value, d.value)));
      }
    }
    if video.thumbStyle.Some? {
      var thumb := BackgroundUrl(video.thumbStyle.value);
      if thumb.Some? {
        info := info.(thumbUrl := thumb);
      }
    }
    if video.durationText.Some? {
      var seconds := ConvertDurationToSeconds(video.durationText.value);
      if seconds.Raised? {
        return Raised;
      }
      info := info.(duration := seconds.value);
    }
    if video.videoSrc.Some? {
      info := info.(url := video.videoSrc);
    }
    r := Ok(Some(info));
  }

  method ExtractAudioInfo(f: MessageFragment) returns (r: Option<AudioData>)
    ensures r == AudioOf(f)
  {
    var info := AudioData(None, None, None, None, None);
    if f.audio.None? {
      return None;
    }
    if f.audio.value.title.Some? {
      info := info.(title := f.audio.value.title);
    }
    if f.audio.value.extra.Some? {
      info := info.(performer := f.audio.value.extra);
    }
    r := Some(info);
  }

  method ExtractPollInfo(f: MessageFragment) returns (r: Result<Option<PollData>>)
    ensures r == PollOf(f)
  {
    if f.poll.None? {
      return Ok(None);
    }
    var poll := f.poll.value;
    var info := PollData(0, None, [], None);
    if poll.votersText.Some? {
      var voters := ShorthandToNumber(poll.votersText.value);
      if voters.Raised? {
        return Raised;
      }
      info := info.(voters := voters.value);
    }
    if poll.question.Some? {
      info := info.(question := poll.question);
    }
    var i := 0;
    while i < |poll.options|
      invariant 0 <= i <= |poll.options|
      invariant forall j :: 0 <= j < i ==> poll.options[j].Some?
      invariant |info.options| == i && forall j :: 0 <= j < i ==> info.options[j] == poll.options[j].value
      invariant VotersOf(poll) == Ok(info.voters) && info.question == poll.question && info.isQuiz.None?
    {
      if poll.options[i].None? {
        return Raised;
      }
      info := info.(options := info.options + [poll.options[i].value]);
      i := i + 1;
    }
    assert info.options == OptionTexts(poll.options).value;
    if poll.typeLabel.Some? {
      if Contains(Lower(poll.typeLabel.value), "quiz") {
        info := info.(isQuiz := Some(true));
      } else {
        info := info.(isQuiz := Some(false));
      }
    }
    r := Ok(Some(info));
  }

  method ExtractForwardedFromInfo(f: MessageFragment) returns (r: Result<Option<ForwardedHeader>>)
    ensures r == ForwardedOf(f)
  {
    if f.forwarded.None? {
      return Ok(None);
    }
    var h := f.forwarded.value;
    var header := ForwardedHeader(None, None, None, None, None, None, Unresolved);
    if h.nameSpan.Some? {
      header := header.(userName := h.nameSpan);
    } else if h.nameAnchor.Some? {
      header := header.(userName := h.nameAnchor);
    } else {
      return Raised;
    }
    if h.firstAnchorHref.Some? {
      header := header.(link := Some(Split(h.firstAnchorHref.value, '?')[0]));
      var decoded := ChannelAndMessageId(header.link.value);
      if decoded.Ok? {
        header := header.(channel := Some(decoded.value.channel), messageId := Some(decoded.value.id));
      }
    }
    r := Ok(Some(header));
  }

  method ExtractAlbumInfo(f: MessageFragment) returns (a: AlbumInfo)
    ensures a == AlbumOf(f)
  {
    a := AlbumInfo(false, [], []);
    if f.groupedWrap {
      a := a.(isAlbum := true);
      var i := 0;
      while i < |f.groupedHrefs|
        invariant 0 <= i <= |f.groupedHrefs|
        invariant a.isAlbum && a.messages == []
        invariant |a.links| == i && forall j :: 0 <= j < i ==> a.links[j] == StripSingle(f.groupedHrefs[j])
      {
        a := a.(links := a.links + [StripSingle(f.groupedHrefs[i])]);
        i := i + 1;
      }
    }
  }

  method ExtractGenericInfo(f: MessageFragment) returns (r: Result<RawMessage>)
    ensures r == GenericOf(f)
  {
    var link: Option<string> := None;
    var channel: Option<string> := None;
    var messageId: Option<nat> := None;
    if f.dateHref.Some? {
      link := Some(Split(f.dateHref.value, '?')[0]);
      var ref := ChannelAndMessageId(link.value);
      if ref.Raised? {
        return Raised;
      }
      channel, messageId := Some(ref.value.channel), Some(ref.value.id);
    }
    var views: nat := 0;
    if f.viewsText.Some? {
      var v := ShorthandToNumber(f.viewsText.value);
      if v.Raised? {
        return Raised;
      }
      views := v.value;
    }
    var replyTo: Option<nat> := None;
    if f.replyHref.Some? {
      link := f.replyHref;
      var ref := ChannelAndMessageId(link.value);
      if ref.Raised? {
        return Raised;
      }
      replyTo := Some(ref.value.id);
    }
    var album := ExtractAlbumInfo(f);
    var forwarded := ExtractForwardedFromInfo(f);
    if forwarded.Raised? {
      return Raised;
    }
    r := Ok(RawMessage(channel, link, messageId, views, f.lastTime, f.text, album, forwarded.value,
                       f.author, replyTo, Untyped, None));
  }

  method Parse(f: MessageFragment) returns (r: Result<RawMessage>)
    ensures r == ParseMessage(f)
  {
    var generic := ExtractGenericInfo(f);
    if generic.Raised? {
      return Raised;
    }
    var info := generic.value;
    if info.album.isAlbum {
      info := info.(kind := Album);
      return Ok(info);
    }
    var poll := ExtractPollInfo(f);
    if poll.Raised? {
      return Raised;
    }
    if poll.value.Some? {
      info := info.(kind := Poll(poll.value.value));
      return Ok(info);
    }
    var audio := ExtractAudioInfo(f);
    if audio.Some? {
      info := info.(kind := Audio(audio.value));
      return Ok(info);
    }
    var video := ExtractVideoInfo(f);
    if video.Raised? {
      return Raised;
    }
    if video.value.Some? {
      info := info.(kind := Video(video.value.value));
      return Ok(info);
    }
    var photo := ExtractPhotoInfo(f);
    if photo.Raised? {
      return Raised;
    }
    if photo.value.Some? {
      info := info.(kind := Photo(photo.value.value));
    } else {
      info := info.(kind := Text);
    }
    r := Ok(info);
  }
}
