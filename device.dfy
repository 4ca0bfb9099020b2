/** SlackLogDevice: the log device a Ruby Logger writes to.  Each write strips the line
    and buffers it; the buffer is posted to a Slack webhook as one message, joined by
    newlines, either at once (auto flush, a zero flush delay, or a buffer over its byte
    budget) or when the delayed flush timer fires. */
module Device {
  import opened Wrappers
  import opened Text

  const DefaultFlushDelay: nat := 1
  const DefaultMaxBufferSize: nat := 1024 * 128
  const DefaultTimeout: nat := 5
  /** The longest channel name, leading '#' or '@' included. */
  const MaxChannelLength: nat := 22

  datatype ConfigError =
    | InvalidChannel(channel: string)
    | InvalidFlushDelay(delay: Option<int>)
    | InvalidMaxBufferSize(size: Option<int>)
    | InvalidTimeout(timeout: Option<int>)
    | MissingWebhookUrl
    | InvalidWebhookUrl(url: string)

  /** The JSON object a flush posts: the text, and the channel and the user name only
      when they are set. */
  datatype Payload = Payload(text: string, channel: Option<string>, username: Option<string>)

  /** One HTTP POST to the webhook. */
  datatype Post = Post(url: string, payload: Payload, timeout: nat)

  /** The options SlackLogDevice.new takes; for the numeric ones an absent key is None,
      and a key given as nil (or as something that is not an integer) is Some(None). */
  datatype Options = Options(
    autoFlush: Option<bool>,
    channel: Option<string>,
    flushDelay: Option<Option<int>>,
    maxBufferSize: Option<Option<int>>,
    timeout: Option<Option<int>>,
    username: Option<string>,
    webhookUrl: Option<string>)

  // ---------------------------------------------------------------------------
  // Setters' validation

  /** flush_delay=: a non-negative integer of seconds; 0 flushes on every write. */
  function ParseFlushDelay(value: Option<int>): (r: Result<nat, ConfigError>)
    ensures r.Success? <==> value.Some? && value.value >= 0
    ensures r.Success? ==> r.value == value.value
    ensures r.Failure? ==> r.error == InvalidFlushDelay(value)
  {
    if value.None? || value.value < 0 then Failure(InvalidFlushDelay(value)) else Success(value.value)
  }

  /** max_buffer_size=: a non-negative number of bytes. */
  function ParseMaxBufferSize(value: Option<int>): (r: Result<nat, ConfigError>)
    ensures r.Success? <==> value.Some? && value.value >= 0
    ensures r.Success? ==> r.value == value.value
    ensures r.Failure? ==> r.error == InvalidMaxBufferSize(value)
  {
    if value.None? || value.value < 0 then Failure(InvalidMaxBufferSize(value)) else Success(value.value)
  }

  /** timeout=: a positive number of seconds. */
  function ParseTimeout(value: Option<int>): (r: Result<nat, ConfigError>)
    ensures r.Success? <==> value.Some? && value.value > 0
    ensures r.Success? ==> r.value == value.value && r.value > 0
    ensures r.Failure? ==> r.error == InvalidTimeout(value)
  {
    if value.None? || value.value <= 0 then Failure(InvalidTimeout(value)) else Success(value.value)
  }

  /** The characters a channel name may have after its sigil: [a-z0-9_-]. */
  predicate ChannelChar(c: char) {
    'a' <= c <= 'z' || '0' <= c <= '9' || c == '_' || c == '-'
  }

  /** The whole string is a channel: '#' or '@', then 1 to 21 channel characters. */
  predicate ValidChannel(c: string) {
    && 2 <= |c| <= MaxChannelLength
    && (c[0] == '#' || c[0] == '@')
    && forall i :: 1 <= i < |c| ==> ChannelChar(c[i])
  }

  /** What /^[@#][a-z0-9_-]{1,21}$/ matches in Ruby, where ^ and $ anchor at line
      boundaries: some whole line of the string is a channel. */
  predicate ChannelRegexMatches(c: string) {
    exists i, j :: 0 <= i <= j <= |c| && (i == 0 || c[i - 1] == '\n') && (j == |c| || c[j] == '\n')
      && ValidChannel(c[i..j])
  }

  /** channel= as written: a blank value clears the channel, a value the line-anchored
      pattern matches is kept whole, anything else is refused. */
  function ParseChannelAsWritten(value: Option<string>): (r: Result<Option<string>, ConfigError>)
    ensures r.Success? <==> Blank(ToS(value)) || ChannelRegexMatches(ToS(value))
    ensures r.Success? ==> r.value == Presence(ToS(value))
    ensures r.Failure? ==> r.error == InvalidChannel(ToS(value))
  {
    match Presence(ToS(value))
    case None => Success(None)
    case Some(c) => if ChannelRegexMatches(c) then Success(Some(c)) else Failure(InvalidChannel(c))
  }

  /** A second line is enough for the line-anchored pattern: a value with a newline and a
      channel on one of its lines passes, although the value is no channel. */
  lemma ChannelRegexAcceptsOtherLines()
    ensures var c := "#general\nnot a channel!";
      ParseChannelAsWritten(Some(c)) == Success(Some(c)) && !ValidChannel(c)
  {
    var c := "#general\nnot a channel!";
    assert c[0..8] == "#general" && c[8] == '\n';
    assert ValidChannel(c[0..8]);
    assert ChannelRegexMatches(c);
    assert !Blank(c) by { assert !IsSpace(c[0]); }
  }

  /** On values without a newline the pattern means what it says: the whole value is a
      channel. */
  lemma ChannelRegexWithoutNewline(c: string)
    requires forall k :: 0 <= k < |c| ==> c[k] != '\n'
    ensures ChannelRegexMatches(c) <==> ValidChannel(c)
  {
    if ValidChannel(c) {
      assert c[0..|c|] == c;
    }
  }

  /** channel=: a blank value clears the channel; otherwise the whole value must be a
      channel name, or it is refused. */
  function ParseChannel(value: Option<string>): (r: Result<Option<string>, ConfigError>)
    ensures r == Success(None) <==> Blank(ToS(value))
    ensures r.Success? && r.value.Some? ==> r.value.value == ToS(value) && ValidChannel(r.value.value)
    ensures r.Failure? <==> !Blank(ToS(value)) && !ValidChannel(ToS(value))
    ensures r.Failure? ==> r.error == InvalidChannel(ToS(value))
  {
    match Presence(ToS(value))
    case None => Success(None)
    case Some(c) => if ValidChannel(c) then Success(Some(c)) else Failure(InvalidChannel(c))
  }

  /** A channel name holds no whitespace and no newline, and the corrected setter agrees
      with the pattern on every value without a newline. */
  lemma ParseChannelCorrected(value: Option<string>)
    ensures ParseChannel(value).Success? && ParseChannel(value).value.Some? ==>
      forall k :: 0 <= k < |ToS(value)| ==> !IsSpace(ToS(value)[k])
    ensures (forall k :: 0 <= k < |ToS(value)| ==> ToS(value)[k] != '\n') ==>
      ParseChannel(value) == ParseChannelAsWritten(value)
  {
    var c := ToS(value);
    if forall k :: 0 <= k < |c| ==> c[k] != '\n' {
      ChannelRegexWithoutNewline(c);
    }
  }

  /** username=: squished, and nil when blank. */
  function NormalizeUsername(value: Option<string>): (r: Option<string>)
    ensures r.None? <==> Blank(ToS(value))
  {
    Presence(Squish(ToS(value)))
  }

  /** A user name is squished: trimmed, every whitespace run one space, and every
      character of the value that is not whitespace kept, in order. */
  lemma NormalizeUsernameSquished(value: Option<string>)
    ensures var r := NormalizeUsername(value);
      r.Some? ==> Trimmed(r.value) && SingleSpaced(r.value) && NonSpace(r.value) == NonSpace(ToS(value))
  {
    SquishSingleSpaced(ToS(value));
    SquishNonSpace(ToS(value));
  }

  /** Text that starts with the given lower-case prefix, letters in any case. */
  predicate StartsWithIgnoringCase(s: string, prefix: string) {
    |prefix| <= |s| && DownCase(s[..|prefix|]) == prefix
  }

  /** What URI(value) parses into a URI::HTTP (or its subclass URI::HTTPS): an http or
      https scheme, and no whitespace anywhere. */
  predicate HttpUrl(s: string) {
    && (StartsWithIgnoringCase(s, "http:") || StartsWithIgnoringCase(s, "https:"))
    && forall k :: 0 <= k < |s| ==> !IsSpace(s[k])
  }

  /** webhook_url=: a blank value is missing, anything but an HTTP(S) URL is invalid. */
  function ParseWebhookUrl(value: Option<string>): (r: Result<string, ConfigError>)
    ensures r == Failure(MissingWebhookUrl) <==> Blank(ToS(value))
    ensures r.Success? <==> !Blank(ToS(value)) && HttpUrl(ToS(value))
    ensures r.Success? ==> r.value == ToS(value)
    ensures r.Failure? && !Blank(ToS(value)) ==> r.error == InvalidWebhookUrl(ToS(value))
  {
    var url := ToS(value);
    if Blank(url) then Failure(MissingWebhookUrl)
    else if HttpUrl(url) then Success(url)
    else Failure(InvalidWebhookUrl(url))
  }

  /** An http URL is accepted as given. */
  lemma ParseWebhookUrlAcceptsHttp()
    ensures ParseWebhookUrl(Some("http://google.com")) == Success("http://google.com")
  {
    var a := "http://google.com";
    assert DownCase(a[..5]) == "http:";
    assert forall k :: 0 <= k < |a| ==> !IsSpace(a[k]);
    assert !Blank(a) by { assert !IsSpace(a[0]); }
  }

  /** An https URL is accepted as given. */
  lemma ParseWebhookUrlAcceptsHttps()
    ensures ParseWebhookUrl(Some("https://google.com")) == Success("https://google.com")
  {
    var b := "https://google.com";
    assert DownCase(b[..6]) == "https:";
    assert forall k :: 0 <= k < |b| ==> !IsSpace(b[k]);
    assert !Blank(b) by { assert !IsSpace(b[0]); }
  }

  /** A value that is no URL, and a URL of another scheme, are invalid; none is missing. */
  lemma ParseWebhookUrlRejects()
    ensures ParseWebhookUrl(Some("foo")) == Failure(InvalidWebhookUrl("foo"))
    ensures ParseWebhookUrl(Some("ftp://google.com")) == Failure(InvalidWebhookUrl("ftp://google.com"))
    ensures ParseWebhookUrl(None) == Failure(MissingWebhookUrl)
  {
    var c := "foo";
    assert !Blank(c) by { assert !IsSpace(c[0]); }
    assert !HttpUrl(c);
    var d := "ftp://google.com";
    assert !Blank(d) by { assert !IsSpace(d[0]); }
    assert DownCase(d[..5])[0] == 'f';
    assert DownCase(d[..6])[0] == 'f';
  }

  // ---------------------------------------------------------------------------
  // Buffering

  /** flush?: auto flush is on, the delay is zero, or the buffered lines, joined by
      newlines, take more bytes than the budget. */
  function FlushDue(autoFlush: bool, flushDelay: nat, maxBufferSize: nat, buffer: seq<string>): bool {
    autoFlush || flushDelay == 0 || Utf8Length(Join(buffer, "\n")) > maxBufferSize
  }

  /** Buffering one more line never makes a due flush stop being due. */
  lemma FlushDueMonotone(autoFlush: bool, flushDelay: nat, maxBufferSize: nat, buffer: seq<string>, line: string)
    requires FlushDue(autoFlush, flushDelay, maxBufferSize, buffer)
    ensures FlushDue(autoFlush, flushDelay, maxBufferSize, buffer + [line])
  {
    JoinSnoc(buffer, line, "\n");
    if buffer != [] {
      Utf8LengthAppend(Join(buffer, "\n"), "\n");
      Utf8LengthAppend(Join(buffer, "\n") + "\n", line);
    }
  }

  /** The byte budget is strict: with a budget of 3, the line "abc" takes exactly the
      budget and is not due. */
  lemma FlushDueAtBudget()
    ensures !FlushDue(false, 1, 3, ["abc"])
  {
    var one := "abc";
    assert Join([one], "\n") == one;
    assert Utf8Length(one) == 3 by {
      assert forall k :: 0 <= k < |one| ==> Utf8Width(one[k]) == 1;
      Utf8LengthAscii(one);
    }
  }

  /** One more line "d" makes five bytes with its newline, which is due. */
  lemma FlushDueOverBudget()
    ensures FlushDue(false, 1, 3, ["abc", "d"])
  {
    var two := "abc\nd";
    assert Join(["abc", "d"], "\n") == two;
    assert Utf8Length(two) == 5 by {
      assert forall k :: 0 <= k < |two| ==> Utf8Width(two[k]) == 1;
      Utf8LengthAscii(two);
    }
  }

  /** Text of one-byte characters takes one byte per character. */
  lemma {:induction false} Utf8LengthAscii(s: string)
    requires forall k :: 0 <= k < |s| ==> Utf8Width(s[k]) == 1
    ensures Utf8Length(s) == |s|
  {
    if s != [] {
      assert forall k :: 0 <= k < |s[1..]| ==> s[1..][k] == s[k + 1];
      Utf8LengthAscii(s[1..]);
    }
  }

  /** The lines of a sequence of batches, in order. */
  function Flatten(batches: seq<seq<string>>): (r: seq<string>)
    ensures |batches| == 0 ==> r == []
  {
    if batches == [] then [] else batches[0] + Flatten(batches[1..])
  }

  /** Flattening one more batch appends its lines. */
  lemma {:induction false} FlattenSnoc(batches: seq<seq<string>>, batch: seq<string>)
    ensures Flatten(batches + [batch]) == Flatten(batches) + batch
  {
    if batches != [] {
      assert (batches + [batch])[1..] == batches[1..] + [batch];
      FlattenSnoc(batches[1..], batch);
    } else {
      assert [batch][1..] == [];
    }
  }

  class SlackLogDevice {
    /** The stripped, non-blank lines not yet posted. */
    var buffer: seq<string>
    var autoFlush: bool
    var channel: Option<string>
    var flushDelay: nat
    var maxBufferSize: nat
    var timeout: nat
    var username: Option<string>
    var webhookUrl: string
    /** Whether a delayed flush is scheduled (the flush thread is alive). */
    var timerPending: bool
    /** Every POST sent to the webhook, oldest first. */
    var posts: seq<Post>
    /** Every line written that was not blank, stripped, oldest first. */
    ghost var written: seq<string>
    /** The lines each post carried. */
    ghost var batches: seq<seq<string>>

    /** Consistent, and a non-empty buffer always has a flush scheduled. */
    ghost predicate Valid()
      reads this`timeout, this`channel, this`buffer, this`batches, this`posts, this`written, this`timerPending
    {
      Consistent() && (buffer != [] ==> timerPending)
    }

    /** Settings as the setters leave them; each post carries one non-empty batch of lines
        joined by newlines; the lines posted and the lines buffered are exactly the lines
        written, in order. */
    ghost predicate Consistent()
      reads this`timeout, this`channel, this`buffer, this`batches, this`posts, this`written
    {
      && timeout > 0
      && (channel.Some? ==> ValidChannel(channel.value))
      && (forall k :: 0 <= k < |buffer| ==> Trimmed(buffer[k]))
      && |batches| == |posts|
      && (forall k :: 0 <= k < |posts| ==> batches[k] != [] && posts[k].payload.text == Join(batches[k], "\n"))
      && Flatten(batches) + buffer == written
    }

    /** The defaults new starts from, before it applies the options. */
    constructor Init()
      ensures Valid()
      ensures buffer == [] && posts == [] && written == [] && !timerPending
      ensures !autoFlush && channel.None? && username.None? && webhookUrl == []
      ensures flushDelay == DefaultFlushDelay && maxBufferSize == DefaultMaxBufferSize && timeout == DefaultTimeout
    {
      buffer := [];
      autoFlush := false;
      channel := None;
      flushDelay := DefaultFlushDelay;
      maxBufferSize := DefaultMaxBufferSize;
      timeout := DefaultTimeout;
      username := None;
      webhookUrl := [];
      timerPending := false;
      posts := [];
      written := [];
      batches := [];
    }

    /** flush?: whether a write flushes at once instead of scheduling a flush. */
    function ShouldFlush(): bool
      reads this
    {
      FlushDue(autoFlush, flushDelay, maxBufferSize, buffer)
    }

    /** The POST a flush of these lines sends with the current settings. */
    function PostFor(lines: seq<string>): Post
      reads this
    {
      Post(webhookUrl, Payload(Join(lines, "\n"), channel, username), timeout)
    }

    /** flush: nothing when the buffer is empty; otherwise every buffered line goes out in
        one POST, joined by newlines, and the buffer is emptied. */
    method Flush()
      requires Consistent()
      modifies this
      ensures Valid()
      ensures old(buffer) == [] ==> buffer == [] && posts == old(posts)
      ensures old(buffer) != [] ==> buffer == [] && posts == old(posts) + [old(PostFor(buffer))]
      ensures written == old(written) && timerPending == old(timerPending)
      ensures autoFlush == old(autoFlush) && channel == old(channel) && username == old(username)
      ensures flushDelay == old(flushDelay) && maxBufferSize == old(maxBufferSize)
      ensures timeout == old(timeout) && webhookUrl == old(webhookUrl)
    {
      if buffer == [] {
        return;
      }
      var lines := buffer;
      var post := PostFor(lines);
      FlattenSnoc(batches, lines);
      buffer := [];
      batches := batches + [lines];
      posts := posts + [post];
    }

    /** write: the line is stripped and dropped when blank; otherwise it is buffered, the
        scheduled flush is cancelled, and the buffer is flushed at once when a flush is due
        or a new delayed flush is scheduled. */
    method Write(message: Option<string>)
      requires Valid()
      modifies this
      ensures Valid()
      ensures var line := Strip(ToS(message));
        && (Blank(line) ==>
              buffer == old(buffer) && posts == old(posts) && written == old(written) && timerPending == old(timerPending))
        && (!Blank(line) ==> written == old(written) + [line])
        && (!Blank(line) && FlushDue(autoFlush, flushDelay, maxBufferSize, old(buffer) + [line]) ==>
              buffer == [] && !timerPending && posts == old(posts) + [old(PostFor(buffer + [line]))])
        && (!Blank(line) && !FlushDue(autoFlush, flushDelay, maxBufferSize, old(buffer) + [line]) ==>
              buffer == old(buffer) + [line] && timerPending && posts == old(posts))
      ensures autoFlush == old(autoFlush) && channel == old(channel) && username == old(username)
      ensures flushDelay == old(flushDelay) && maxBufferSize == old(maxBufferSize)
      ensures timeout == old(timeout) && webhookUrl == old(webhookUrl)
    {
      var line := Strip(ToS(message));
      if Blank(line) {
        return;
      }
      buffer := buffer + [line];
      written := written + [line];
      if ShouldFlush() {
        Flush();
        timerPending := false;
      } else {
        timerPending := true;
      }
    }

    /** The scheduled flush thread waking up after the delay: it flushes. */
    method FireTimer()
      requires Valid() && timerPending
      modifies this
      ensures Valid()
      ensures !timerPending && buffer == [] && written == old(written)
      ensures old(buffer) == [] ==> posts == old(posts)
      ensures old(buffer) != [] ==> posts == old(posts) + [old(PostFor(buffer))]
      ensures autoFlush == old(autoFlush) && channel == old(channel) && username == old(username)
      ensures flushDelay == old(flushDelay) && maxBufferSize == old(maxBufferSize)
      ensures timeout == old(timeout) && webhookUrl == old(webhookUrl)
    {
      Flush();
      timerPending := false;
    }

    /** auto_flush=: on only for a present (true) value. */
    method SetAutoFlush(value: Option<bool>)
      requires Valid()
      modifies this
      ensures Valid()
      ensures autoFlush <==> value == Some(true)
      ensures buffer == old(buffer) && posts == old(posts) && timerPending == old(timerPending)
      ensures channel == old(channel) && username == old(username) && webhookUrl == old(webhookUrl)
      ensures flushDelay == old(flushDelay) && maxBufferSize == old(maxBufferSize) && timeout == old(timeout)
    {
      autoFlush := value == Some(true);
    }

    /** channel=: the new channel, or an error and no change. */
    method SetChannel(value: Option<string>) returns (err: Option<ConfigError>)
      requires Valid()
      modifies this
      ensures Valid()
      ensures err.Some? <==> ParseChannel(value).Failure?
      ensures err.Some? ==> err.value == ParseChannel(value).error && channel == old(channel)
      ensures err.None? ==> channel == ParseChannel(value).value
      ensures buffer == old(buffer) && posts == old(posts) && timerPending == old(timerPending)
      ensures autoFlush == old(autoFlush) && username == old(username) && webhookUrl == old(webhookUrl)
      ensures flushDelay == old(flushDelay) && maxBufferSize == old(maxBufferSize) && timeout == old(timeout)
    {
      match ParseChannel(value)
      case Failure(e) => err := Some(e);
      case Success(c) => channel := c; err := None;
    }

    /** flush_delay=: the new delay, or an error and no change. */
    method SetFlushDelay(value: Option<int>) returns (err: Option<ConfigError>)
      requires Valid()
      modifies this
      ensures Valid()
      ensures err.Some? <==> ParseFlushDelay(value).Failure?
      ensures err.Some? ==> err.value == ParseFlushDelay(value).error && flushDelay == old(flushDelay)
      ensures err.None? ==> flushDelay == ParseFlushDelay(value).value
      ensures buffer == old(buffer) && posts == old(posts) && timerPending == old(timerPending)
      ensures autoFlush == old(autoFlush) && channel == old(channel) && username == old(username)
      ensures webhookUrl == old(webhookUrl) && maxBufferSize == old(maxBufferSize) && timeout == old(timeout)
    {
      match ParseFlushDelay(value)
      case Failure(e) => err := Some(e);
      case Success(n) => flushDelay := n; err := None;
    }

    /** max_buffer_size=: the new byte budget, or an error and no change. */
    method SetMaxBufferSize(value: Option<int>) returns (err: Option<ConfigError>)
      requires Valid()
      modifies this
      ensures Valid()
      ensures err.Some? <==> ParseMaxBufferSize(value).Failure?
      ensures err.Some? ==> err.value == ParseMaxBufferSize(value).error && maxBufferSize == old(maxBufferSize)
      ensures err.None? ==> maxBufferSize == ParseMaxBufferSize(value).value
      ensures buffer == old(buffer) && posts == old(posts) && timerPending == old(timerPending)
      ensures autoFlush == old(autoFlush) && channel == old(channel) && username == old(username)
      ensures webhookUrl == old(webhookUrl) && flushDelay == old(flushDelay) && timeout == old(timeout)
    {
      match ParseMaxBufferSize(value)
      case Failure(e) => err := Some(e);
      case Success(n) => maxBufferSize := n; err := None;
    }

    /** timeout=: the new timeout, or an error and no change. */
    method SetTimeout(value: Option<int>) returns (err: Option<ConfigError>)
      requires Valid()
      modifies this
      ensures Valid()
      ensures err.Some? <==> ParseTimeout(value).Failure?
      ensures err.Some? ==> err.value == ParseTimeout(value).error && timeout == old(timeout)
      ensures err.None? ==> timeout == ParseTimeout(value).value
      ensures buffer == old(buffer) && posts == old(posts) && timerPending == old(timerPending)
      ensures autoFlush == old(autoFlush) && channel == old(channel) && username == old(username)
      ensures webhookUrl == old(webhookUrl) && flushDelay == old(flushDelay) && maxBufferSize == old(maxBufferSize)
    {
      match ParseTimeout(value)
      case Failure(e) => err := Some(e);
      case Success(n) => timeout := n; err := None;
    }

    /** username=: squished, nil when blank. */
    method SetUsername(value: Option<string>)
      requires Valid()
      modifies this`username
      ensures Valid()
      ensures username == NormalizeUsername(value)
      ensures buffer == old(buffer) && posts == old(posts) && timerPending == old(timerPending)
      ensures autoFlush == old(autoFlush) && channel == old(channel) && webhookUrl == old(webhookUrl)
      ensures flushDelay == old(flushDelay) && maxBufferSize == old(maxBufferSize) && timeout == old(timeout)
    {
      username := NormalizeUsername(value);
    }

    /** webhook_url=: the new URL, or an error and no change. */
    method SetWebhookUrl(value: Option<string>) returns (err: Option<ConfigError>)
      requires Valid()
      modifies this
      ensures Valid()
      ensures err.Some? <==> ParseWebhookUrl(value).Failure?
      ensures err.Some? ==> err.value == ParseWebhookUrl(value).error && webhookUrl == old(webhookUrl)
      ensures err.None? ==> webhookUrl == ParseWebhookUrl(value).value
      ensures buffer == old(buffer) && posts == old(posts) && timerPending == old(timerPending)
      ensures autoFlush == old(autoFlush) && channel == old(channel) && username == old(username)
      ensures flushDelay == old(flushDelay) && maxBufferSize == old(maxBufferSize) && timeout == old(timeout)
    {
      match ParseWebhookUrl(value)
      case Failure(e) => err := Some(e);
      case Success(u) => webhookUrl := u; err := None;
    }
  }

  /** The options initialize accepts one by one: the flush delay, the buffer budget and
      the timeout are checked only when given. */
  predicate ChannelAccepted(options: Options) {
    ParseChannel(options.channel).Success?
  }

  predicate FlushDelayAccepted(options: Options) {
    options.flushDelay.None? || ParseFlushDelay(options.flushDelay.value).Success?
  }

  predicate MaxBufferSizeAccepted(options: Options) {
    options.maxBufferSize.None? || ParseMaxBufferSize(options.maxBufferSize.value).Success?
  }

  predicate TimeoutAccepted(options: Options) {
    options.timeout.None? || ParseTimeout(options.timeout.value).Success?
  }

  /** The error initialize raises: that of the first setter, in the order initialize
      calls them, that refuses its option; none when every option is accepted. */
  function FirstConfigError(options: Options): (r: Option<ConfigError>)
    ensures r.None? <==>
      ChannelAccepted(options) && FlushDelayAccepted(options) && MaxBufferSizeAccepted(options)
      && TimeoutAccepted(options) && ParseWebhookUrl(options.webhookUrl).Success?
    ensures !ChannelAccepted(options) ==> r == Some(InvalidChannel(ToS(options.channel)))
    ensures (r.Some? && r.value.InvalidFlushDelay?) <==>
      ChannelAccepted(options) && !FlushDelayAccepted(options)
    ensures (r.Some? && r.value.InvalidMaxBufferSize?) <==>
      ChannelAccepted(options) && FlushDelayAccepted(options) && !MaxBufferSizeAccepted(options)
    ensures (r.Some? && r.value.InvalidTimeout?) <==>
      ChannelAccepted(options) && FlushDelayAccepted(options) && MaxBufferSizeAccepted(options)
      && !TimeoutAccepted(options)
    ensures (r.Some? && (r.value.MissingWebhookUrl? || r.value.InvalidWebhookUrl?)) <==>
      ChannelAccepted(options) && FlushDelayAccepted(options) && MaxBufferSizeAccepted(options)
      && TimeoutAccepted(options) && ParseWebhookUrl(options.webhookUrl).Failure?
  {
    var delay := if options.flushDelay.Some? then ParseFlushDelay(options.flushDelay.value) else Success(DefaultFlushDelay);
    var size := if options.maxBufferSize.Some? then ParseMaxBufferSize(options.maxBufferSize.value) else Success(DefaultMaxBufferSize);
    var timeout := if options.timeout.Some? then ParseTimeout(options.timeout.value) else Success(DefaultTimeout);
    var channel := ParseChannel(options.channel);
    var url := ParseWebhookUrl(options.webhookUrl);
    if channel.Failure? then Some(channel.error)
    else if delay.Failure? then Some(delay.error)
    else if size.Failure? then Some(size.error)
    else if timeout.Failure? then Some(timeout.error)
    else if url.Failure? then Some(url.error)
    else None
  }

  /** SlackLogDevice.new: the defaults, then auto_flush, channel, flush_delay,
      max_buffer_size, timeout, username and webhook_url in that order; the first setter
      that raises makes new raise. */
  method NewDevice(options: Options) returns (r: Result<SlackLogDevice, ConfigError>)
    ensures r.Failure? <==> FirstConfigError(options).Some?
    ensures r.Failure? ==> r.error == FirstConfigError(options).value
    ensures r.Success? ==> var d := r.value;
      && fresh(d) && d.Valid()
      && d.buffer == [] && d.posts == [] && d.written == [] && !d.timerPending
      && (d.autoFlush <==> options.autoFlush == Some(true))
      && d.channel == ParseChannel(options.channel).value
      && d.flushDelay == (if options.flushDelay.Some? then options.flushDelay.value.value else DefaultFlushDelay)
      && d.maxBufferSize == (if options.maxBufferSize.Some? then options.maxBufferSize.value.value else DefaultMaxBufferSize)
      && d.timeout == (if options.timeout.Some? then options.timeout.value.value else DefaultTimeout)
      && d.username == NormalizeUsername(options.username)
      && d.webhookUrl == ToS(options.webhookUrl)
  {
    var d := new SlackLogDevice.Init();
    d.SetAutoFlush(options.autoFlush);
    var err := d.SetChannel(options.channel);
    if err.Some? {
      return Failure(err.value);
    }
    if options.flushDelay.Some? {
      err := d.SetFlushDelay(options.flushDelay.value);
      if err.Some? {
        return Failure(err.value);
      }
    }
    if options.maxBufferSize.Some? {
      err := d.SetMaxBufferSize(options.maxBufferSize.value);
      if err.Some? {
        return Failure(err.value);
      }
    }
    if options.timeout.Some? {
      err := d.SetTimeout(options.timeout.value);
      if err.Some? {
        return Failure(err.value);
      }
    }
    d.SetUsername(options.username);
    err := d.SetWebhookUrl(options.webhookUrl);
    if err.Some? {
      return Failure(err.value);
    }
    r := Success(d);
  }
}
