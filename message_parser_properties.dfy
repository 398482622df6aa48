/** What the message extractors and the classifier promise, stated over their specification
    functions. */
module MessageParserProperties {
  import opened Wrappers
  import opened Strings
  import opened ParserHelpers
  import opened Markup
  import opened MessageParser

  // ---------------------------------------------------------------------------
  // The classifier.

  /** An album returns at once: no type detector runs, so none of them can raise. */
  lemma ParseAlbumShortCircuit(f: MessageFragment)
    requires GenericOf(f).Ok? && f.groupedWrap
    ensures ParseMessage(f) == Ok(GenericOf(f).value.(kind := Album))
  {
    assert GenericOf(f).value.album == AlbumOf(f);
  }

  /** Each detector finds something exactly when its element is present. */
  lemma DetectorsFollowElements(f: MessageFragment)
    ensures PollOf(f).Ok? ==> (PollOf(f).value.Some? <==> f.poll.Some?)
    ensures AudioOf(f).Some? <==> f.audio.Some?
    ensures VideoOf(f).Ok? ==> (VideoOf(f).value.Some? <==> f.video.Some?)
    ensures PhotoOf(f).Ok? ==> (PhotoOf(f).value.Some? <==> f.photo.Some?)
  {
  }

  /** `parse` only adds the type: every other field is the generic one, and the type is the first
      of album, poll, audio, video, photo whose element is present, text otherwise, carrying the
      matching detector's dictionary. */
  lemma ParseKind(f: MessageFragment)
    requires ParseMessage(f).Ok?
    ensures GenericOf(f).Ok?
    ensures ParseMessage(f).value == GenericOf(f).value.(kind := ParseMessage(f).value.kind)
    ensures var k := ParseMessage(f).value.kind;
      && !k.Untyped?
      && (k.Album? <==> f.groupedWrap)
      && (k.Poll? <==> !f.groupedWrap && f.poll.Some?)
      && (k.Audio? <==> !f.groupedWrap && f.poll.None? && f.audio.Some?)
      && (k.Video? <==> !f.groupedWrap && f.poll.None? && f.audio.None? && f.video.Some?)
      && (k.Photo? <==> !f.groupedWrap && f.poll.None? && f.audio.None? && f.video.None? && f.photo.Some?)
      && (k.Text? <==> !f.groupedWrap && f.poll.None? && f.audio.None? && f.video.None? && f.photo.None?)
    ensures var k := ParseMessage(f).value.kind;
      && (k.Poll? ==> PollOf(f) == Ok(Some(k.poll)))
      && (k.Audio? ==> AudioOf(f) == Some(k.audio))
      && (k.Video? ==> VideoOf(f) == Ok(Some(k.video)))
      && (k.Photo? ==> PhotoOf(f) == Ok(Some(k.photo)))
  {
    DetectorsFollowElements(f);
    assert GenericOf(f).value.album == AlbumOf(f);
  }

  /** A parsed message has no album children yet and no channel id: both are filled in later. */
  lemma ParsedHasNoChildren(f: MessageFragment)
    requires ParseMessage(f).Ok?
    ensures ParseMessage(f).value.album.messages == [] && ParseMessage(f).value.channelId.None?
  {
    ParseKind(f);
    GenericFields(f);
    AlbumShape(f);
  }

  /** The first match wins: once a poll is found, a video or photo that would raise is never
      looked at. */
  lemma PollBeatsLaterDetectors(f: MessageFragment, p: PollData)
    requires GenericOf(f).Ok? && !f.groupedWrap && PollOf(f) == Ok(Some(p))
    ensures ParseMessage(f) == Ok(GenericOf(f).value.(kind := Poll(p)))
  {
    assert GenericOf(f).value.album == AlbumOf(f);
  }

  /** A photo raises exactly when its style or its background URL is missing; the width and
      height lookups never make it raise. */
  lemma PhotoRaises(f: MessageFragment)
    ensures PhotoOf(f).Raised? <==>
      f.photo.Some? && (f.photo.value.style.None? || BackgroundUrl(f.photo.value.style.value).None?)
  {
  }

  /** A video raises exactly when its duration text is present and unreadable. */
  lemma VideoRaises(f: MessageFragment)
    ensures VideoOf(f).Raised? <==>
      f.video.Some? && f.video.value.durationText.Some? && DurationSeconds(f.video.value.durationText.value).Raised?
  {
  }

  // ---------------------------------------------------------------------------
  // The capture scanners.

  lemma {:induction false} RunOfMaximal(d: string, rest: string, dots: bool)
    requires forall i :: 0 <= i < |d| ==> RunChar(d[i], dots)
    requires |rest| > 0 ==> !RunChar(rest[0], dots)
    ensures RunOf(d + rest, dots) == d
  {
    if |d| > 0 {
      assert (d + rest)[1..] == d[1..] + rest;
      RunOfMaximal(d[1..], rest, dots);
      assert [d[0]] + d[1..] == d;
    } else {
      assert d + rest == rest;
    }
  }

  /** A capture only comes from an occurrence of the key. */
  lemma {:induction false} FirstCaptureFound(s: string, key: string, dots: bool)
    requires FirstCapture(s, key, dots).Some?
    ensures Contains(s, key)
    decreases |s|
  {
    if !(IsPrefix(key, s) && |RunOf(s[|key|..], dots)| > 0) {
      FirstCaptureFound(s[1..], key, dots);
    }
  }

  /** A key at the start, followed by a maximal run, captures that run. */
  lemma FirstCaptureAtStart(key: string, d: string, rest: string, dots: bool)
    requires |key| > 0
    requires |d| > 0 && forall i :: 0 <= i < |d| ==> RunChar(d[i], dots)
    requires |rest| > 0 ==> !RunChar(rest[0], dots)
    ensures FirstCapture(key + d + rest, key, dots) == Some(d)
  {
    var s := key + d + rest;
    assert s == key + (d + rest);
    assert s[..|key|] == key;
    assert s[|key|..] == d + rest;
    RunOfMaximal(d, rest, dots);
  }

  /** `re.findall` finds nothing when the key does not occur. */
  lemma FirstCaptureAbsent(s: string, key: string, dots: bool)
    requires !Contains(s, key)
    ensures FirstCapture(s, key, dots).None?
  {
    if FirstCapture(s, key, dots).Some? {
      FirstCaptureFound(s, key, dots);
    }
  }

  /** The lazy group ends at the first quote followed by a non-newline character. */
  lemma {:induction false} LazyQuotedEnds(s: string, c: nat, e: nat, n: nat)
    requires c < e <= c + n && c + n + 1 < |s|
    requires forall k :: e <= k < c + n ==> s[k] != '\'' && s[k] != '\n'
    requires s[c + n] == '\'' && s[c + n + 1] != '\n'
    ensures LazyQuoted(s, c, e) == Some(s[c..c + n])
    decreases c + n - e
  {
    if e < c + n {
      LazyQuotedEnds(s, c, e + 1, n);
    }
  }

  lemma {:induction false} BackgroundUrlSkips(s: string, i: nat, k: nat)
    requires i <= k <= |s|
    requires forall j :: i <= j < k ==> s[j] != 'b'
    ensures BackgroundUrlFrom(s, i) == BackgroundUrlFrom(s, k)
    decreases k - i
  {
    if i < k {
      assert s[i..][0] == s[i] != BackgroundKey[0];
      BackgroundUrlSkips(s, i + 1, k);
    }
  }

  /** The style Telegram writes, `background-image:url('U')`, anywhere after text without a 'b',
      yields `U` when it is non-empty and holds no quote and no newline. */
  lemma BackgroundUrlOf(p: string, u: string, tail: string)
    requires 'b' !in p
    requires |u| > 0 && '\'' !in u && '\n' !in u
    ensures BackgroundUrl(p + "background-image:url('" + u + "')" + tail) == Some(u)
  {
    var s := p + "background-image:url('" + u + "')" + tail;
    var i := |p|;
    var j := i + |BackgroundKey|;
    assert s[i..i + |BackgroundKey|] == BackgroundKey;
    assert IsPrefix(BackgroundKey, s[i..]);
    assert s[j..j + 3] == "url";
    assert s[j + 1..j + 4] == "rl(";
    assert s[j] == 'u' && s[j + 3] == '(' && s[j + 4] == '\'';
    assert UrlAt(s, j + 1).None?;
    var c := j + 5;
    assert s[c..c + |u|] == u;
    assert s[c + |u|] == '\'' && s[c + |u| + 1] == ')';
    LazyQuotedEnds(s, c, c + 1, |u|);
    assert BackgroundAt(s, i) == Some(u);
    BackgroundUrlSkips(s, 0, i);
  }

  // ---------------------------------------------------------------------------
  // Width and height.

  /** The height is `floor(width * ratio / 100)` for the exact ratio. */
  lemma HeightIsFloor(width: nat, ratio: Decimal)
    ensures var h := HeightOf(width, ratio); var unit := Pow(10, ratio.scale) * 100;
      h * unit <= width * ratio.digits < (h + 1) * unit
  {
    var unit := Pow(10, ratio.scale) * 100;
    var n := width * ratio.digits;
    assert n == (n / unit) * unit + n % unit;
  }

  /** No `width:` in the style: width and height both stay unset. */
  lemma DimensionsWithoutWidth(widthStyle: Option<string>, ratioStyle: Option<string>)
    requires widthStyle.Some? ==> !Contains(widthStyle.value, "width:")
    ensures Dimensions(widthStyle, ratioStyle) == (None, None)
  {
    if widthStyle.Some? {
      FirstCaptureAbsent(widthStyle.value, "width:", false);
    }
  }

  /** A width that parses and no `padding-top:` ratio: only the width is set. */
  lemma DimensionsWithoutRatio(w: string, rest: string, ratioStyle: Option<string>)
    requires |w| > 0 && AllDigits(w) && (|rest| > 0 ==> !IsDigit(rest[0]))
    requires ratioStyle.Some? ==> !Contains(ratioStyle.value, "padding-top:")
    ensures Dimensions(Some("width:" + w + rest), ratioStyle) == (Some(DigitsValue(w)), None)
  {
    FirstCaptureAtStart("width:", w, rest, false);
    if ratioStyle.Some? {
      FirstCaptureAbsent(ratioStyle.value, "padding-top:", true);
    }
  }

  /** Both parse: the width, and the height from the ratio. */
  lemma DimensionsOf(w: string, rest: string, r: string, tail: string)
    requires |w| > 0 && AllDigits(w) && (|rest| > 0 ==> !IsDigit(rest[0]))
    requires |r| > 0 && (forall i :: 0 <= i < |r| ==> RunChar(r[i], true)) && (|tail| > 0 ==> !RunChar(tail[0], true))
    requires ParseDecimal(r).Some?
    ensures Dimensions(Some("width:" + w + rest), Some("padding-top:" + r + tail))
         == (Some(DigitsValue(w)), Some(HeightOf(DigitsValue(w), ParseDecimal(r).value)))
  {
    FirstCaptureAtStart("width:", w, rest, false);
    FirstCaptureAtStart("padding-top:", r, tail, true);
  }

  lemma DigitsValue3(s: string)
    requires |s| == 3 && AllDigits(s)
    ensures DigitsValue(s) == 100 * DigitValue(s[0]) + 10 * DigitValue(s[1]) + DigitValue(s[2])
  {
    var t, u := s[..2], s[..1];
    assert t[..1] == u && t[1] == s[1] && u[..0] == "" && u[0] == s[0];
    assert DigitsValue(u) == DigitValue(s[0]);
    assert DigitsValue(t) == DigitsValue(u) * 10 + DigitValue(s[1]);
    assert DigitsValue(s) == DigitsValue(t) * 10 + DigitValue(s[2]);
  }

  lemma RatioValue(r: string)
    requires r == "75.0"
    ensures ParseDecimal(r) == Some(Decimal(750, 1))
  {
    var a, b := r[..2], r[3..];
    assert r == a + "." + b;
    ParseDecimalPoint(a, b);
    DigitsValue3(a + b);
  }

  /** Width 400 with ratio "75.0" gives height 300. */
  lemma HeightExample()
    ensures ParseDecimal("75.0").Some? && HeightOf(400, ParseDecimal("75.0").value) == 300
  {
    RatioValue("75.0");
    assert HeightOf(400, Decimal(750, 1)) == 300;
  }

  /** A photo whose style carries a background URL yields that URL with whatever dimensions the
      styles give. */
  lemma PhotoOfStyle(f: MessageFragment, p: string, u: string, tail: string)
    requires 'b' !in p
    requires |u| > 0 && '\'' !in u && '\n' !in u
    requires f.photo.Some? && f.photo.value.style == Some(p + "background-image:url('" + u + "')" + tail)
    ensures var (w, h) := Dimensions(f.photo.value.style, f.photo.value.wrapperStyle);
      PhotoOf(f) == Ok(Some(PhotoData(w, h, Some(u))))
  {
    BackgroundUrlOf(p, u, tail);
  }

  // ---------------------------------------------------------------------------
  // Album links.

  lemma {:induction false} NoQuestionNoSingle(s: string)
    requires '?' !in s
    ensures !Contains(s, "?single")
    ensures StripSingle(s) == s
  {
    if |s| > 0 {
      assert s[0] != '?';
      NoQuestionNoSingle(s[1..]);
      assert [s[0]] + s[1..] == s;
    }
  }

  /** Removing the `?single` query Telegram appends gives back the bare link. */
  lemma StripSingleRemovesQuery(u: string)
    requires '?' !in u
    ensures StripSingle(u + "?single") == u
  {
    StripSingleAfter(u, "?single");
  }

  lemma {:induction false} StripSingleAfter(u: string, t: string)
    requires '?' !in u && t == "?single"
    ensures StripSingle(u + t) == u
  {
    if |u| == 0 {
      assert u + t == "?single";
      assert IsPrefix("?single", u + t);
      assert (u + t)[7..] == "";
    } else {
      assert (u + t)[0] == u[0] != '?';
      assert (u + t)[1..] == u[1..] + t;
      StripSingleAfter(u[1..], t);
      assert [u[0]] + u[1..] == u;
    }
  }

  lemma {:induction false} CountCharZero(s: string, c: char)
    requires CountChar(s, c) == 0
    ensures c !in s
  {
    if |s| > 0 {
      CountCharZero(s[1..], c);
      assert s == [s[0]] + s[1..];
    }
  }

  /** A link with at most one '?' has no `?single` left after the cleanup. */
  lemma {:induction false} StripSingleClean(h: string)
    requires CountChar(h, '?') <= 1
    ensures !Contains(StripSingle(h), "?single")
  {
    if |h| > 0 {
      if IsPrefix("?single", h) {
        assert CountChar(h[1..], '?') == 0;
        assert CountChar(h[7..], '?') == 0 by { CountCharSuffix(h[1..], 6); }
        CountCharZero(h[7..], '?');
        NoQuestionNoSingle(h[7..]);
      } else if h[0] == '?' {
        CountCharZero(h[1..], '?');
        NoQuestionNoSingle(h[1..]);
        assert StripSingle(h) == [h[0]] + h[1..] == h;
        assert !IsPrefix("?single", h);
      } else {
        StripSingleClean(h[1..]);
        assert StripSingle(h) == [h[0]] + StripSingle(h[1..]);
        assert ([h[0]] + StripSingle(h[1..]))[0] != "?single"[0];
        assert !IsPrefix("?single", [h[0]] + StripSingle(h[1..]));
        assert ([h[0]] + StripSingle(h[1..]))[1..] == StripSingle(h[1..]);
      }
    }
  }

  lemma {:induction false} CountCharSuffix(s: string, k: nat)
    requires k <= |s|
    ensures CountChar(s[k..], '?') <= CountChar(s, '?')
  {
    if k > 0 {
      CountCharSuffix(s[1..], k - 1);
      assert s[1..][k - 1..] == s[k..];
    }
  }

  /** `replace` is a single pass: a link with two queries keeps one `?single`. */
  lemma StripSingleSinglePass()
    ensures StripSingle("??singlesingle") == "?single"
  {
    assert IsPrefix("?single", "?singlesingle");
    assert "?singlesingle"[7..] == "single";
    assert "??singlesingle"[..7][1] != "?single"[1];
    assert !IsPrefix("?single", "??singlesingle");
    assert "??singlesingle"[1..] == "?singlesingle";
    NoQuestionNoSingle("single");
  }

  /** The album record: an album exactly when the grouped wrapper is present, one cleaned link per
      grouped anchor in document order, no links otherwise, and no children yet. */
  lemma AlbumShape(f: MessageFragment)
    ensures AlbumOf(f).isAlbum <==> f.groupedWrap
    ensures AlbumOf(f).messages == []
    ensures !f.groupedWrap ==> AlbumOf(f).links == []
    ensures f.groupedWrap ==> (|AlbumOf(f).links| == |f.groupedHrefs|
      && forall i :: 0 <= i < |f.groupedHrefs| ==> AlbumOf(f).links[i] == StripSingle(f.groupedHrefs[i]))
  {
  }

  lemma AlbumLinksClean(f: MessageFragment)
    requires forall i :: 0 <= i < |f.groupedHrefs| ==> CountChar(f.groupedHrefs[i], '?') <= 1
    ensures forall i :: 0 <= i < |AlbumOf(f).links| ==> !Contains(AlbumOf(f).links[i], "?single")
  {
    forall i | 0 <= i < |AlbumOf(f).links| ensures !Contains(AlbumOf(f).links[i], "?single") {
      StripSingleClean(f.groupedHrefs[i]);
    }
  }

  // ---------------------------------------------------------------------------
  // Generic fields, forwarded header, channel id.

  /** The permalink decodes after its query is cut off. */
  lemma PermalinkWithQuery(channel: string, id: nat, query: string)
    requires '/' !in channel && '?' !in channel && '#' !in channel
    ensures var link := Permalink(channel, id);
      && Split(link + "?" + query, '?')[0] == link
      && ChannelAndMessageId(link) == Ok(MessageRef(channel, id))
  {
    var link := Permalink(channel, id);
    assert '?' !in NatToString(id) by {
      assert forall i :: 0 <= i < |NatToString(id)| ==> IsDigit(NatToString(id)[i]);
    }
    assert '?' !in "https://" && '?' !in "t.me" && '?' !in "/" + channel + "/";
    assert '?' !in link;
    assert link + "?" + query == link + ['?'] + query;
    SplitCons(link, '?', query);
    PermalinkRoundTrip(channel, id);
  }

  /** The generic dictionary: channel and id from the query-less permalink, views 0 without the
      views element, and with a reply anchor its raw href in `link` and its decoded id in
      `reply_to`. */
  lemma GenericFields(f: MessageFragment)
    requires GenericOf(f).Ok?
    ensures var g := GenericOf(f).value;
      && (f.dateHref.Some? ==> ChannelAndMessageId(Split(f.dateHref.value, '?')[0]) == Ok(MessageRef(g.channel.value, g.id.value)))
      && (f.dateHref.None? ==> g.channel.None? && g.id.None?)
      && (f.viewsText.None? ==> g.views == 0)
      && (f.viewsText.Some? ==> ShorthandToNumber(f.viewsText.value) == Ok(g.views))
      && (f.replyHref.Some? ==> g.link == f.replyHref && ChannelAndMessageId(f.replyHref.value).Ok?
                                && g.replyTo == Some(ChannelAndMessageId(f.replyHref.value).value.id))
      && (f.replyHref.None? ==> g.replyTo.None? && g.link == (if f.dateHref.Some? then Some(Split(f.dateHref.value, '?')[0]) else None))
      && g.published == f.lastTime && g.text == f.text && g.author == f.author
      && g.album == AlbumOf(f) && g.forwarded == ForwardedOf(f).value
      && g.kind == Untyped && g.channelId.None?
  {
  }

  /** A message whose date anchor is the permalink plus a query decodes to that channel and id,
      with the bare permalink as its link. */
  lemma GenericOfPermalink(f: MessageFragment, channel: string, id: nat, query: string)
    requires '/' !in channel && '?' !in channel && '#' !in channel
    requires f.dateHref == Some(Permalink(channel, id) + "?" + query)
    requires f.viewsText.None? && f.replyHref.None? && f.forwarded.None?
    ensures GenericOf(f).Ok?
    ensures GenericOf(f).value.channel == Some(channel) && GenericOf(f).value.id == Some(id)
    ensures GenericOf(f).value.link == Some(Permalink(channel, id))
    ensures GenericOf(f).value.views == 0 && GenericOf(f).value.replyTo.None?
  {
    PermalinkWithQuery(channel, id, query);
  }

  /** The forwarded header: the name from the span, else the anchor, raising only when neither
      exists; the link is the first anchor's href without its query. */
  lemma ForwardedFields(f: MessageFragment)
    requires f.forwarded.Some?
    ensures ForwardedOf(f).Raised? <==> f.forwarded.value.nameSpan.None? && f.forwarded.value.nameAnchor.None?
    ensures ForwardedOf(f).Ok? ==> var h := ForwardedOf(f).value.value; var fr := f.forwarded.value;
      && h.userName == (if fr.nameSpan.Some? then fr.nameSpan else fr.nameAnchor) && h.userName.Some?
      && h.link == (if fr.firstAnchorHref.Some? then Some(Split(fr.firstAnchorHref.value, '?')[0]) else None)
      && (h.channel.Some? <==> h.link.Some? && ChannelAndMessageId(h.link.value).Ok?)
      && (h.channel.Some? ==> ChannelAndMessageId(h.link.value) == Ok(MessageRef(h.channel.value, h.messageId.value)))
      && h.messageId.Some? == h.channel.Some?
      && h.channelId.None? && h.published.None? && h.original == Unresolved
  {
  }

  /** A forward whose first anchor is a permalink plus a query names that channel and message. */
  lemma ForwardedOfPermalink(f: MessageFragment, channel: string, id: nat, query: string)
    requires '/' !in channel && '?' !in channel && '#' !in channel
    requires f.forwarded.Some? && f.forwarded.value.nameSpan.Some?
    requires f.forwarded.value.firstAnchorHref == Some(Permalink(channel, id) + "?" + query)
    ensures ForwardedOf(f).Ok? && ForwardedOf(f).value.Some?
    ensures ForwardedOf(f).value.value.channel == Some(channel)
    ensures ForwardedOf(f).value.value.messageId == Some(id)
    ensures ForwardedOf(f).value.value.link == Some(Permalink(channel, id))
  {
    PermalinkWithQuery(channel, id, query);
  }

  /** `data-peer` "c1234_5678" gives "1234": the text before the first '_' without its first
      character. */
  lemma ChannelIdOfPeer(f: MessageFragment, x: char, id: string, rest: string)
    requires '_' !in id && x != '_'
    requires f.dataPeer == Some([x] + id + "_" + rest)
    ensures ChannelIdOf(f) == Some(id)
  {
    assert [x] + id + "_" + rest == ([x] + id) + ['_'] + rest;
    SplitCons([x] + id, '_', rest);
    assert ([x] + id)[1..] == id;
  }

  lemma ChannelIdMissing(f: MessageFragment)
    requires f.dataPeer.None?
    ensures ChannelIdOf(f).None?
  {
  }
}
