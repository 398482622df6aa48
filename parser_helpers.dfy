/** The decoders shared by the channel and message parsers (`TelegramWebParserHelpers`, src/telegram_web.py):
    permalink decoding, shorthand counts and `H:MM:SS` durations. */
module ParserHelpers {
  import opened Wrappers
  import opened Strings

  // ---------------------------------------------------------------------------
  // urllib.parse.urlparse(link).path

  predicate IsAsciiLetter(c: char) { 'a' <= c <= 'z' || 'A' <= c <= 'Z' }

  predicate IsSchemeChar(c: char) { IsAsciiLetter(c) || IsDigit(c) || c == '+' || c == '-' || c == '.' }

  /** The schemes for which `urlparse` splits `;params` off the last path segment. */
  const UsesParams: set<string> :=
    {"", "ftp", "hdl", "prospero", "http", "imap", "https", "shttp", "rtsp", "rtspu",
     "sip", "sips", "mms", "sftp", "tel"}

  /** The longest prefix of `s` holding none of `cs`. */
  function TakeUntil(s: string, cs: set<char>): (r: string)
    ensures IsPrefix(r, s)
    ensures forall i :: 0 <= i < |r| ==> r[i] !in cs
    ensures |r| < |s| ==> s[|r|] in cs
  {
    if |s| == 0 || s[0] in cs then "" else [s[0]] + TakeUntil(s[1..], cs)
  }

  /** `(scheme, rest)`: the scheme is split off at the first ':' when everything before it is a
      scheme name starting with an ASCII letter; it is lower-cased. */
  function SplitScheme(url: string): (string, string)
  {
    var i := |TakeUntil(url, {':'})|;
    if 0 < i < |url| && IsAsciiLetter(url[0]) && (forall j :: 0 <= j < i ==> IsSchemeChar(url[j]))
    then (Lower(url[..i]), url[i + 1..])
    else ("", url)
  }

  /** The index just past the last '/', or 0 when there is none. */
  function LastSegmentStart(s: string): (k: nat)
    ensures k <= |s|
    ensures forall i :: k <= i < |s| ==> s[i] != '/'
  {
    if |s| == 0 then 0 else if s[|s| - 1] == '/' then |s| else LastSegmentStart(s[..|s| - 1])
  }

  /** `_splitparams`: cut the path at the first ';' of its last segment. */
  function StripParams(path: string): string
  {
    var k := LastSegmentStart(path);
    path[..k] + TakeUntil(path[k..], {';'})
  }

  /** The path component of `urlparse(url)`: scheme, `//netloc`, `#fragment`, `?query` and the
      last segment's `;params` removed, in the order `urlsplit`/`urlparse` remove them. */
  function UrlPath(url: string): string
  {
    var (scheme, rest) := SplitScheme(url);
    var path := TakeUntil(TakeUntil(AfterNetloc(rest), {'#'}), {'?'});
    if scheme in UsesParams then StripParams(path) else path
  }

  /** What follows the scheme once a `//netloc` (up to the first '/', '?' or '#') is removed. */
  function AfterNetloc(rest: string): string
  {
    if IsPrefix("//", rest) then rest[2 + |TakeUntil(rest[2..], {'/', '?', '#'})|..] else rest
  }

  // ---------------------------------------------------------------------------
  // extract_channel_and_message_id

  datatype MessageRef = MessageRef(channel: string, id: nat)

  /** The last two '/'-pieces of a path: the channel and the decimal message id. Raises when the
      path has fewer than two pieces or the last one is not a number. */
  function RefOfPath(path: string): (r: Result<MessageRef>)
    ensures r.Ok? <==> |Split(path, '/')| >= 2 && ParseInt(Split(path, '/')[|Split(path, '/')| - 1]).Some?
  {
    var exd := Split(path, '/');
    if |exd| < 2 then Raised
    else match ParseInt(exd[|exd| - 1])
      case None => Raised
      case Some(n) => Ok(MessageRef(exd[|exd| - 2], n))
  }

  function ChannelAndMessageId(link: string): Result<MessageRef>
  {
    RefOfPath(UrlPath(link))
  }

  lemma {:induction false} SplitAppend(p: string, c: char, q: string)
    ensures Split(p + [c] + q, c) == Split(p, c) + Split(q, c)
  {
    if |p| == 0 {
      assert p + [c] + q == [c] + q;
      assert ([c] + q)[1..] == q;
    } else {
      var s := p + [c] + q;
      assert s[0] == p[0];
      assert s[1..] == p[1..] + [c] + q;
      SplitAppend(p[1..], c, q);
    }
  }

  /** Decoding round-trips: any path ending in `/<channel>/<id>` decodes to that channel and id. */
  lemma RefOfPathRoundTrip(prefix: string, channel: string, id: nat)
    requires '/' !in channel
    ensures RefOfPath(prefix + ("/" + channel + "/" + NatToString(id))) == Ok(MessageRef(channel, id))
  {
    var digits := NatToString(id);
    assert '/' !in digits by { assert AllDigits(digits); }
    var path := prefix + ("/" + channel + "/" + digits);
    assert path == prefix + ['/'] + (channel + ['/'] + digits);
    SplitAppend(prefix, '/', channel + ['/'] + digits);
    SplitAppend(channel, '/', digits);
    SplitNoSeparator(channel, '/');
    SplitNoSeparator(digits, '/');
    var exd := Split(path, '/');
    assert exd == Split(prefix, '/') + [channel] + [digits];
    NatToStringRoundTrip(id);
  }

  lemma {:induction false} TakeUntilNone(s: string, cs: set<char>)
    requires forall i :: 0 <= i < |s| ==> s[i] !in cs
    ensures TakeUntil(s, cs) == s
  {
    if |s| > 0 {
      TakeUntilNone(s[1..], cs);
      assert [s[0]] + s[1..] == s;
    }
  }

  lemma {:induction false} TakeUntilStops(a: string, x: char, b: string, cs: set<char>)
    requires forall i :: 0 <= i < |a| ==> a[i] !in cs
    requires x in cs
    ensures TakeUntil(a + [x] + b, cs) == a
  {
    if |a| > 0 {
      var s := a + [x] + b;
      assert s[1..] == a[1..] + [x] + b;
      TakeUntilStops(a[1..], x, b, cs);
      assert [a[0]] + a[1..] == a;
    } else {
      assert (a + [x] + b)[0] == x;
    }
  }

  lemma {:induction false} LastSegmentOf(a: string, d: string)
    requires '/' !in d
    ensures LastSegmentStart(a + "/" + d) == |a| + 1
    decreases |d|
  {
    var s := a + "/" + d;
    if |d| > 0 {
      assert s[..|s| - 1] == a + "/" + d[..|d| - 1];
      assert s[|s| - 1] == d[|d| - 1];
      LastSegmentOf(a, d[..|d| - 1]);
    } else {
      assert s == a + "/";
    }
  }

  lemma HttpsScheme(rest: string)
    ensures SplitScheme("https:" + rest) == ("https", rest)
  {
    var url := "https:" + rest;
    assert url == "https" + [':'] + rest;
    TakeUntilStops("https", ':', rest, {':'});
    assert url[..5] == "https";
    assert Lower("https") == "https";
    assert url[6..] == rest;
  }

  /** The netloc ends at the first '/' of the path. */
  lemma NetlocOf(host: string, path: string)
    requires forall i :: 0 <= i < |host| ==> host[i] !in {'/', '?', '#'}
    requires |path| > 0 && path[0] == '/'
    ensures AfterNetloc("//" + host + path) == path
  {
    var rest := "//" + host + path;
    assert rest[..2] == "//";
    assert rest[2..] == host + ['/'] + path[1..];
    TakeUntilStops(host, '/', path[1..], {'/', '?', '#'});
    assert rest[2 + |host|..] == path;
  }

  lemma HttpsUsesParams()
    ensures "https" in UsesParams
  {
  }

  /** For an `https://host/path` URL without query or fragment, the path is what is left after the
      host, up to `;params` in its last segment. */
  lemma HttpsUrlPath(host: string, path: string)
    requires forall i :: 0 <= i < |host| ==> host[i] !in {'/', '?', '#'}
    requires |path| > 0 && path[0] == '/'
    requires forall i :: 0 <= i < |path| ==> path[i] != '#' && path[i] != '?'
    ensures UrlPath("https://" + host + path) == StripParams(path)
  {
    var rest := "//" + host + path;
    assert "https://" + host + path == "https:" + rest;
    HttpsScheme(rest);
    NetlocOf(host, path);
    TakeUntilNone(path, {'#'});
    TakeUntilNone(path, {'?'});
    HttpsUsesParams();
  }

  lemma {:induction false} StripParamsNoSemicolon(a: string, d: string)
    requires '/' !in d && ';' !in d
    ensures StripParams(a + "/" + d) == a + "/" + d
  {
    var path := a + "/" + d;
    LastSegmentOf(a, d);
    assert path[|a| + 1..] == d;
    TakeUntilNone(d, {';'});
    assert path[..|a| + 1] + d == path;
  }

  /** An `https://<host>/<channel>/<id>` link decodes to `(channel, id)`. */
  lemma HttpsLinkRoundTrip(host: string, channel: string, id: nat)
    requires forall i :: 0 <= i < |host| ==> host[i] !in {'/', '?', '#'}
    requires '/' !in channel && '?' !in channel && '#' !in channel
    ensures ChannelAndMessageId("https://" + host + ("/" + channel + "/" + NatToString(id))) == Ok(MessageRef(channel, id))
  {
    var digits := NatToString(id);
    var path := "/" + channel + "/" + digits;
    assert UrlPath("https://" + host + path) == path by {
      assert forall i :: 0 <= i < |digits| ==> IsDigit(digits[i]);
      HttpsUrlPath(host, path);
      StripParamsNoSemicolon("/" + channel, digits);
    }
    assert [] + path == path;
    RefOfPathRoundTrip([], channel, id);
  }

  /** The permalink `https://t.me/<channel>/<id>` of a message, written as scheme, host and path. */
  function Permalink(channel: string, id: nat): string
  {
    "https://" + "t.me" + ("/" + channel + "/" + NatToString(id))
  }

  /** A permalink decodes to `(channel, id)` when the channel name holds no '/', '?' or '#'. */
  lemma PermalinkRoundTrip(channel: string, id: nat)
    requires '/' !in channel && '?' !in channel && '#' !in channel
    ensures ChannelAndMessageId(Permalink(channel, id)) == Ok(MessageRef(channel, id))
  {
    var host := "t.me";
    assert forall i :: 0 <= i < |host| ==> host[i] !in {'/', '?', '#'};
    HttpsLinkRoundTrip(host, channel, id);
  }

  // ---------------------------------------------------------------------------
  // convert_shorthand_to_number

  /** `"842"`, `"1.2K"`, `"3M"`: lower-cased; a 'k' anywhere selects thousands, else an 'm' selects
      millions (the letters are stripped from both ends and the rest read as a decimal, then
      truncated), else the text is read as an integer. Raises when the number part does not parse. */
  function ShorthandToNumber(text: string): Result<nat>
  {
    var t := Lower(text);
    if 'k' in t then
      match ParseDecimal(Strip(t, 'k'))
      case Some(d) => Ok(ScaleTruncate(d, 1000))
      case None => Raised
    else if 'm' in t then
      match ParseDecimal(Strip(t, 'm'))
      case Some(d) => Ok(ScaleTruncate(d, 1000000))
      case None => Raised
    else
      match ParseInt(t)
      case Some(n) => Ok(n)
      case None => Raised
  }

  lemma {:induction false} LowerOfDecimalChars(s: string)
    requires DecimalChars(s)
    ensures Lower(s) == s
  {
    if |s| > 0 {
      LowerOfDecimalChars(s[1..]);
      assert [s[0]] + s[1..] == s;
    }
  }

  /** A plain digit string reads as its decimal value. */
  lemma ShorthandOfDigits(s: string)
    requires |s| > 0 && AllDigits(s)
    ensures ShorthandToNumber(s) == Ok(DigitsValue(s))
  {
    NoDotsUnchanged(s);
    LowerOfDecimalChars(s);
    assert 'k' !in s && 'm' !in s;
  }

  /** The letter is stripped off the end: with 'k'/'K' the decimal is scaled by 1000, truncated. */
  lemma ShorthandThousands(s: string, letter: char)
    requires ParseDecimal(s).Some? && DecimalChars(s)
    requires letter == 'k' || letter == 'K'
    ensures ShorthandToNumber(s + [letter]) == Ok(ScaleTruncate(ParseDecimal(s).value, 1000))
  {
    ScaledSuffix(s, letter, 'k');
  }

  /** With 'm'/'M' (and no 'k') the decimal is scaled by 1000000, truncated. */
  lemma ShorthandMillions(s: string, letter: char)
    requires ParseDecimal(s).Some? && DecimalChars(s)
    requires letter == 'm' || letter == 'M'
    ensures ShorthandToNumber(s + [letter]) == Ok(ScaleTruncate(ParseDecimal(s).value, 1000000))
  {
    ScaledSuffix(s, letter, 'm');
  }

  lemma {:induction false} ScaledSuffix(s: string, letter: char, lower: char)
    requires ParseDecimal(s).Some? && DecimalChars(s)
    requires lower == 'k' || lower == 'm'
    requires LowerChar(letter) == lower
    ensures Lower(s + [letter]) == s + [lower]
    ensures Strip(s + [lower], lower) == s
  {
    var t := s + [letter];
    LowerOfDecimalChars(s);
    assert Lower(t) == s + [lower] by {
      forall i | 0 <= i < |t| ensures Lower(t)[i] == (s + [lower])[i] {
        if i < |s| {
          assert t[i] == s[i];
          assert LowerChar(s[i]) == Lower(s)[i];
        }
      }
    }
    var u := s + [lower];
    assert u[0] == s[0];
    assert StripLeft(u, lower) == u;
    assert u[..|u| - 1] == s;
    assert s[|s| - 1] != lower;
    assert StripRight(u, lower) == StripRight(s, lower);
    assert StripRight(s, lower) == s;
  }

  lemma ShorthandExampleThousands()
    ensures ShorthandToNumber("1.2K") == Ok(1200)
  {
    assert ParseDecimal("1.2") == Some(Decimal(12, 1)) by {
      assert DecimalChars("1.2") && CountChar("1.2", '.') == 1;
      assert RemoveChars("1.2", {'.'}) == "12";
      assert DigitsValue("12") == 12 by { assert "12"[..1] == "1"; }
      assert FractionLength("1.2") == 1;
    }
    assert ScaleTruncate(Decimal(12, 1), 1000) == 1200;
    ShorthandThousands("1.2", 'K');
    assert "1.2" + ['K'] == "1.2K";
  }

  lemma ShorthandExampleMillions()
    ensures ShorthandToNumber("3M") == Ok(3000000)
  {
    assert AllDigits("3");
    DigitsAreDecimal("3");
    ShorthandMillions("3", 'M');
    assert "3" + ['M'] == "3M";
  }

  lemma ShorthandExamplePlain()
    ensures ShorthandToNumber("842") == Ok(842)
  {
    assert AllDigits("842");
    assert "842"[..2] == "84" && "84"[..1] == "8";
    ShorthandOfDigits("842");
  }

  // ---------------------------------------------------------------------------
  // convert_duration_str_to_seconds

  /** The value of `H:MM:SS`-style pieces: piece i (counted from the right, from 0) is worth 60^i.
      Raises when a piece is not a number. */
  function SegmentsValue(segs: seq<string>): Result<nat>
  {
    if |segs| == 0 then Ok(0)
    else match (ParseInt(segs[0]), SegmentsValue(segs[1..]))
      case (Some(v), Ok(rest)) => Ok(v * Pow(60, |segs| - 1) + rest)
      case _ => Raised
  }

  function DurationSeconds(duration: string): Result<nat>
  {
    SegmentsValue(Split(duration, ':'))
  }

  lemma {:induction false} SuffixRaises(segs: seq<string>, j: nat)
    requires j <= |segs| && SegmentsValue(segs[j..]) == Raised
    ensures SegmentsValue(segs) == Raised
    decreases j
  {
    if j > 0 {
      assert segs[1..][j - 1..] == segs[j..];
      SuffixRaises(segs[1..], j - 1);
    }
  }

  /** The loop of the source: walk the pieces from the right, adding piece * unit and multiplying
      the unit by 60. */
  method ConvertDurationToSeconds(duration: string) returns (r: Result<nat>)
    ensures r == DurationSeconds(duration)
  {
    var segs := Split(duration, ':');
    var n := |segs|;
    var seconds: nat := 0;
    var unit: nat := 1;
    var k := 0;
    assert segs[n..] == [];
    while k < n
      invariant 0 <= k <= n
      invariant unit == Pow(60, k)
      invariant SegmentsValue(segs[n - k..]) == Ok(seconds)
    {
      var j := n - 1 - k;
      assert segs[j..][1..] == segs[n - k..];
      var v := ParseInt(segs[j]);
      if v.None? {
        SuffixRaises(segs, j);
        return Raised;
      }
      seconds := seconds + v.value * unit;
      unit := unit * 60;
      k := k + 1;
    }
    assert segs[0..] == segs;
    r := Ok(seconds);
  }

  /** Prefixing `h:` adds h * 60^k, k being the number of pieces already there. */
  lemma DurationPrefix(h: string, rest: string)
    requires ':' !in h
    requires ParseInt(h).Some? && DurationSeconds(rest).Ok?
    ensures DurationSeconds(h + ":" + rest)
         == Ok(ParseInt(h).value * Pow(60, |Split(rest, ':')|) + DurationSeconds(rest).value)
  {
    SplitCons(h, ':', rest);
    assert h + ":" + rest == h + [':'] + rest;
    var segs := [h] + Split(rest, ':');
    assert segs[1..] == Split(rest, ':');
  }

  lemma DurationExampleMinutes()
    ensures DurationSeconds("1:05") == Ok(65)
  {
    assert Split("05", ':') == ["05"] by { SplitNoSeparator("05", ':'); }
    assert AllDigits("05") && DigitsValue("05") == 5;
    assert AllDigits("1") && DigitsValue("1") == 1;
    assert SegmentsValue(["05"]) == Ok(5);
    DurationPrefix("1", "05");
    assert "1" + ":" + "05" == "1:05";
  }

  /** The two-piece tail of the hours example: `02:03` is two minutes and three seconds. */
  lemma DurationExampleTail()
    ensures Split("02:03", ':') == ["02", "03"]
    ensures DurationSeconds("02:03") == Ok(123)
  {
    assert Split("03", ':') == ["03"] by { SplitNoSeparator("03", ':'); }
    assert AllDigits("03") && DigitsValue("03") == 3;
    assert AllDigits("02") && DigitsValue("02") == 2;
    assert SegmentsValue(["03"]) == Ok(3);
    DurationPrefix("02", "03");
    assert "02" + ":" + "03" == "02:03";
    SplitCons("02", ':', "03");
  }

  lemma DurationExampleHours()
    ensures DurationSeconds("1:02:03") == Ok(3723)
  {
    DurationExampleTail();
    assert AllDigits("1") && DigitsValue("1") == 1;
    DurationPrefix("1", "02:03");
    assert "1" + ":" + "02:03" == "1:02:03";
  }
}
