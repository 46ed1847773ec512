/**
  The appender itself: its configuration fields, the capture buffer the log encoder writes into,
  and the per-event step that reads and resets the buffer, builds the body, posts it and reports
  any failure instead of throwing it.
 */
module Appender {
  import opened Lang
  import opened Escape
  import opened Payload

  const FailedToPost := "Failed to post a log to slack."
  const WebhookUrlMissing := "Webhook URL is not specified."
  const HttpOk := 200

  /**
    What the base appender's encoder does with one event: it writes the event's text into the
    capture buffer, or it writes part of it and throws.
   */
  datatype Rendering = Rendered(text: string) | RenderFailed(partial: string, cause: Exception)

  /**
    What the webhook connection yields: a status line; an I/O failure while opening, writing or
    reading it (a malformed URL, an empty one and a timeout included); or a well-formed URL whose
    scheme opens a connection that is not an HTTP one (`file:`, `ftp:`, `jar:`), which the cast
    to `HttpURLConnection` rejects.
   */
  datatype Response =
    | Status(code: int, message: string)
    | ConnectionFailed(message: string)
    | NotHttp(message: string)

  /** One call of the base appender's error reporter: a fixed message and the exception caught. */
  datatype ErrorReport = ErrorReport(message: string, cause: Exception)

  /** The exception `post` throws for `body`, or `None` when it returns normally. */
  function PostFailure(webhookUrl: Option<string>, body: string, response: Response): (r: Option<Exception>)
    ensures r.None? <==> webhookUrl.Some? && response.Status? && response.code == HttpOk
    ensures webhookUrl.None? ==> r == Some(IllegalState(WebhookUrlMissing))
    ensures webhookUrl.Some? && response.ConnectionFailed? ==> r == Some(IOError(response.message))
    ensures webhookUrl.Some? && response.NotHttp? ==> r == Some(ClassCast(response.message))
    ensures webhookUrl.Some? && response.Status? && response.code != HttpOk
            ==> r == Some(IOError(response.message + "\n" + body))
  {
    if webhookUrl.None? then Some(IllegalState(WebhookUrlMissing))
    else
      match response
      case ConnectionFailed(message) => Some(IOError(message))
      case NotHttp(message) => Some(ClassCast(message))
      case Status(code, message) =>
        if code != HttpOk then Some(IOError(message + "\n" + body)) else None
  }

  /** The exception caught by `writeOut`'s boundary for rendered text `text`, or `None` when the log was delivered. */
  function DeliveryFailure(text: string, cfg: Config, response: Response): (r: Option<Exception>)
    ensures r.None? <==> cfg.channel.Some? && cfg.username.Some? && cfg.webhookUrl.Some?
                         && response.Status? && response.code == HttpOk
    ensures cfg.channel.None? ==> r == Some(IllegalState(ChannelMissing))
    ensures cfg.channel.Some? && cfg.username.None? ==> r == Some(IllegalState(UsernameMissing))
    ensures cfg.channel.Some? && cfg.username.Some? && cfg.webhookUrl.None?
            ==> r == Some(IllegalState(WebhookUrlMissing))
  {
    match Body(text, cfg)
    case Err(e) => Some(e)
    case Ok(body) => PostFailure(cfg.webhookUrl, body, response)
  }

  /** The error reports for one caught exception: one report, or none. */
  function Reports(failure: Option<Exception>): (r: seq<ErrorReport>)
    ensures |r| <= 1
    ensures failure.None? <==> r == []
    ensures failure.Some? ==> r == [ErrorReport(FailedToPost, failure.value)]
  {
    if failure.None? then [] else [ErrorReport(FailedToPost, failure.value)]
  }

  class SlackWebhookAppender {
    var webhookUrl: Option<string>
    var channel: Option<string>
    var username: Option<string>
    var iconEmoji: Option<string>
    var iconUrl: Option<string>
    var linkNames: bool
    /** The capture buffer: what the encoder has written and `writeOut` has not yet taken. */
    var baos: string
    /** Everything reported to the base appender's error reporter, oldest first. */
    var errors: seq<ErrorReport>

    /** A new appender: nothing configured, link names on, an empty buffer. */
    constructor ()
      ensures webhookUrl.None? && channel.None? && username.None? && iconEmoji.None? && iconUrl.None?
      ensures linkNames
      ensures baos == [] && errors == []
    {
      webhookUrl := None;
      channel := None;
      username := None;
      iconEmoji := None;
      iconUrl := None;
      linkNames := true;
      baos := [];
      errors := [];
    }

    function Settings(): Config
      reads this
    {
      Config(webhookUrl, channel, username, iconEmoji, iconUrl, linkNames)
    }

    /**
      The payload step of `writeOut`: the fields are collected one by one, the channel and the
      username checked as they are reached, and the list joined and framed.
     */
    method AssembleBody(text: string) returns (r: Result<string, Exception>)
      ensures r == Body(text, Settings())
    {
      var fields: seq<string> := [];
      fields := fields + [StringField("text", text)];
      var checkedChannel := CheckNotNull(channel, ChannelMissing);
      if checkedChannel.Err? {
        return Err(checkedChannel.error);
      }
      fields := fields + [StringField("channel", checkedChannel.value)];
      var checkedUsername := CheckNotNull(username, UsernameMissing);
      if checkedUsername.Err? {
        return Err(checkedUsername.error);
      }
      fields := fields + [StringField("username", checkedUsername.value)];
      ghost var ms := Members(text, Settings()).value;
      assert fields == RenderAll(ms[..3]);
      fields := AddOptionalFields(fields);
      assert ms == ms[..3] + OptionalMembers(Settings());
      RenderAllAppend(ms[..3], OptionalMembers(Settings()));
      BodyJoins(text, Settings());
      r := Ok("{ " + Join(", ", fields) + " }");
    }

    /** The optional fields, each appended only when configured. */
    method AddOptionalFields(fields: seq<string>) returns (fields': seq<string>)
      ensures fields' == fields + RenderAll(OptionalMembers(Settings()))
    {
      var cfg := Settings();
      RenderedParts(cfg);
      fields' := fields;
      if iconEmoji.Some? {
        fields' := fields' + [StringField("icon_emoji", iconEmoji.value)];
      }
      assert fields' == fields + RenderAll(IconEmojiPart(cfg));
      if iconUrl.Some? {
        fields' := fields' + [StringField("icon_url", iconUrl.value)];
      }
      assert fields' == fields + (RenderAll(IconEmojiPart(cfg)) + RenderAll(IconUrlPart(cfg)));
      if linkNames {
        fields' := fields' + [NumberField("link_names", 1)];
      }
      assert fields' == fields + (RenderAll(IconEmojiPart(cfg)) + RenderAll(IconUrlPart(cfg)) + RenderAll(LinkNamesPart(cfg)));
      RenderAllAppend(IconEmojiPart(cfg), IconUrlPart(cfg));
      RenderAllAppend(IconEmojiPart(cfg) + IconUrlPart(cfg), LinkNamesPart(cfg));
    }

    /**
      `post`: the webhook URL is checked for null before anything else; the body is then sent
      and any status other than 200 becomes an I/O error carrying the status message and the
      body. URL parsing and connecting come after the null check and their failures are part of
      `response`.
     */
    method Post(body: string, response: Response) returns (failure: Option<Exception>)
      ensures failure == PostFailure(webhookUrl, body, response)
    {
      var url := CheckNotNull(webhookUrl, WebhookUrlMissing);
      if url.Err? {
        return Some(url.error);
      }
      match response
      case ConnectionFailed(message) =>
        failure := Some(IOError(message));
      case NotHttp(message) =>
        failure := Some(ClassCast(message));
      case Status(code, message) =>
        if code != HttpOk {
          failure := Some(IOError(message + "\n" + body));
        } else {
          failure := None;
        }
    }

    /**
      `writeOut` for one event. The encoder appends to the buffer, the text is read and the
      buffer reset whatever happens. An encoder failure propagates; past that point nothing is
      thrown: a missing setting or a failed post becomes one error report. `posted` is the
      body handed to `post`, if it was reached.
     */
    method WriteOut(render: Rendering, response: Response) returns (thrown: Option<Exception>, posted: Option<string>)
      modifies this`baos, this`errors
      ensures baos == []
      ensures render.RenderFailed? ==> thrown == Some(render.cause) && posted.None? && errors == old(errors)
      ensures render.Rendered? ==>
        var text := old(baos) + render.text;
        && thrown.None?
        && (posted.Some? <==> Body(text, Settings()).Ok?)
        && (posted.Some? ==> posted.value == Body(text, Settings()).value)
        && errors == old(errors) + Reports(DeliveryFailure(text, Settings(), response))
    {
      var text: string;
      match render
      case RenderFailed(partial, cause) =>
        baos := baos + partial;
        baos := [];
        return Some(cause), None;
      case Rendered(rendered) =>
        baos := baos + rendered;
        text := baos;
        baos := [];

      thrown := None;
      var body := AssembleBody(text);
      if body.Err? {
        errors := errors + [ErrorReport(FailedToPost, body.error)];
        return thrown, None;
      }
      posted := Some(body.value);
      var failure := Post(body.value, response);
      if failure.Some? {
        errors := errors + [ErrorReport(FailedToPost, failure.value)];
      }
    }
  }

  lemma RenderedParts(cfg: Config)
    ensures RenderAll(IconEmojiPart(cfg))
         == if cfg.iconEmoji.Some? then [StringField("icon_emoji", cfg.iconEmoji.value)] else []
    ensures RenderAll(IconUrlPart(cfg))
         == if cfg.iconUrl.Some? then [StringField("icon_url", cfg.iconUrl.value)] else []
    ensures RenderAll(LinkNamesPart(cfg))
         == if cfg.linkNames then [NumberField("link_names", 1)] else []
  {
  }

  lemma RenderAllAppend(a: seq<Member>, b: seq<Member>)
    ensures RenderAll(a + b) == RenderAll(a) + RenderAll(b)
  {
  }

  /**
    The appender's own test: an appender configured with every option, and an encoder that
    echoes the level and the message `text "quoted"` followed by a line break. The test replaces
    `post` by one that only records the body it is given; `posted` is that body.
   */
  method BuildsMessage() returns (posted: Option<string>)
    ensures posted.Some?
    ensures posted.value
         == "{ " + ("\"text\": \"[INFO] text \\\"quoted\\\"\n\""
            + ", " + ("\"channel\": \"channel\""
            + ", " + ("\"username\": \"username\""
            + ", " + ("\"icon_emoji\": \"icon-emoji\""
            + ", " + ("\"icon_url\": \"icon-url\""
            + ", " + "\"link_names\": 1"))))) + " }"
  {
    var appender := new SlackWebhookAppender();
    appender.channel := Some("channel");
    appender.username := Some("username");
    appender.iconEmoji := Some("icon-emoji");
    appender.iconUrl := Some("icon-url");
    appender.linkNames := true;
    var rendered := "[INFO] text \"quoted\"\n";
    var thrown;
    thrown, posted := appender.WriteOut(Rendered(rendered), Status(HttpOk, "OK"));
    assert [] + rendered == rendered;
    BuildsMessageExample(rendered, appender.Settings());
  }
}
