# slack-webhook-appender, modelled in Dafny

`SlackWebhookAppender` is a Logback appender that posts each log event to a Slack incoming
webhook. For each event it does four things:

1. It lets the base appender's encoder write the event into a private capture buffer (`baos`).
2. It reads the buffer and resets it in a `finally`.
3. It builds a JSON body out of the text and its configuration: channel, username, an optional
   icon emoji, an optional icon URL, and a `linkNames` switch that is on by default.
4. It posts the body. Any failure while building or posting goes to the appender's error reporter.

This project models that core and proves what it promises:

- the quote escaping;
- the field order and the framing of the body;
- the error order (channel, then username, then webhook URL);
- the buffer reset;
- one error report per failed event;
- the exact body expected by the appender's own test.

The model also has a reader that inverts the builder on bodies whose values do not end in a
backslash. The reader undoes the appender's escaping and
reads a body back into its fields. The model proves that this round trip succeeds exactly when
neither the log text nor any value written into the body (channel, username, icon emoji, icon URL) ends in a
backslash; the webhook URL is never written into the body. When one does, that backslash
escapes the closing quote.

Files (modules):

- `lang.dfy` (`Lang`): how Java's nulls and exceptions are modelled (`Option`, `Result`,
  `Exception`), and `checkNotNull`.
- `escape.dfy` (`Escape`): `escapeQuotes` and its properties.
- `payload.dfy` (`Payload`): the configuration, the fields, `String.join`, the body, and the
  test's expected body.
- `decode.dfy` (`Decode`): the reader and the round-trip lemmas. It is not a JSON parser. It
  reads the appender's own convention, where `\"` is a quote and every other character stands
  for itself.
- `appender.dfy` (`Appender`): the appender class. It holds:
  - the configuration fields, the capture buffer `baos` and the reported `errors`;
  - the payload step;
  - `post`, with the webhook response as a parameter;
  - `writeOut`;
  - the test scenario.

Behaviour of the code worth knowing:

- The null checks reject only a *null* channel, username or webhook URL. An empty channel or
  username is accepted. An empty webhook URL passes the null check and then fails in `new URL`
  with an IOException.
- A well-formed webhook URL whose scheme is not HTTP (`file:`, `ftp:`) makes the cast to
  `HttpURLConnection` throw a ClassCastException. The `catch` in `writeOut` reports it like
  any other failure.
- A failure of the encoder inside `super.writeOut` is not caught. The `try` around it has only a
  `finally`, so that exception propagates out of `writeOut`. Only failures in building or
  posting are turned into error reports.
- The escaping touches only `"`. Backslashes and control characters, such as the line break the
  test's echo encoder appends, pass through unchanged.

## Model

| member | source | states |
|---|---|---|
| `Lang.CheckNotNull` | src/main/java/jp/co/dwango/logback/SlackWebhookAppender.java:165-170 | succeeds exactly when the argument is non-null and then returns it; otherwise fails with an IllegalStateException carrying the given message |
| `Escape.EscapeQuotes` | src/main/java/jp/co/dwango/logback/SlackWebhookAppender.java:161-163 | definition: every `"` becomes `\"` in one pass, each character escaped on its own; what it promises is stated by the lemmas below |
| `Escape.EscapeQuotesOfQuote` | src/main/java/jp/co/dwango/logback/SlackWebhookAppender.java:161-163 | a lone `"` becomes the two characters `\"` |
| `Escape.EscapeQuotesWithoutQuotes` | src/main/java/jp/co/dwango/logback/SlackWebhookAppender.java:161-163 | a string with no `"` is returned unchanged, backslashes and control characters included |
| `Escape.EscapeQuotesCounts` | src/main/java/jp/co/dwango/logback/SlackWebhookAppender.java:161-163 | the output is as long as the input plus its number of quotes; it has as many quotes as the input and one more backslash per quote |
| `Escape.EscapeQuotesConcat` | src/main/java/jp/co/dwango/logback/SlackWebhookAppender.java:161-163 | escaping works character by character: the escape of `a + b` is the escape of `a` followed by the escape of `b`, so every other character keeps its order |
| `Escape.EscapedQuotesFollowBackslash` | src/main/java/jp/co/dwango/logback/SlackWebhookAppender.java:161-163 | every quote in the output directly follows a backslash |
| `Payload.Members` | src/main/java/jp/co/dwango/logback/SlackWebhookAppender.java:108-123 | a null channel fails with "Channel is not specified." before the username is looked at; a set channel with a null username fails with "Username is not specified."; otherwise it succeeds with 3 to 6 fields, the first three being text, channel and username with their values |
| `Payload.OptionalMembers` | src/main/java/jp/co/dwango/logback/SlackWebhookAppender.java:115-123 | definition: icon_emoji, icon_url and link_names, in that order, each only when configured; see `OptionalMembersPresence` |
| `Payload.MembersOrdered` | src/main/java/jp/co/dwango/logback/SlackWebhookAppender.java:111-123 | the fields come in the fixed order text, channel, username, icon_emoji, icon_url, link_names, each key at most once, with no other key |
| `Payload.OptionalMembersPresence` | src/main/java/jp/co/dwango/logback/SlackWebhookAppender.java:115-123 | icon_emoji is present exactly when an icon emoji is set; icon_url exactly when an icon URL is set, each with the configured value; link_names is present, as `1`, exactly when `linkNames` is true |
| `Payload.IconEmojiPresence` | src/main/java/jp/co/dwango/logback/SlackWebhookAppender.java:115-117 | a field with key icon_emoji exists exactly when `iconEmoji` is non-null, and it carries that value |
| `Payload.IconUrlPresence` | src/main/java/jp/co/dwango/logback/SlackWebhookAppender.java:118-120 | a field with key icon_url exists exactly when `iconUrl` is non-null, and it carries that value |
| `Payload.LinkNamesPresence` | src/main/java/jp/co/dwango/logback/SlackWebhookAppender.java:121-123 | a field with key link_names exists exactly when `linkNames` is true, and its value is the number 1 |
| `Payload.StringField` | src/main/java/jp/co/dwango/logback/SlackWebhookAppender.java:111-119 | definition: a string field is the quoted key, `: `, and the escaped value in quotes |
| `Payload.NumberField` | src/main/java/jp/co/dwango/logback/SlackWebhookAppender.java:121-123 | definition: a number field is the quoted key, `: `, and the digit without quotes |
| `Payload.RenderMember` | src/main/java/jp/co/dwango/logback/SlackWebhookAppender.java:111-123 | definition: a field is written as a string field or a number field according to its value |
| `Payload.Join` | src/main/java/jp/co/dwango/logback/SlackWebhookAppender.java:125 | definition: `String.join`, the parts with the separator between neighbours; see `JoinEnds` |
| `Payload.JoinEnds` | src/main/java/jp/co/dwango/logback/SlackWebhookAppender.java:125 | a non-empty join starts with the first part and ends with the last: no separator leads or trails |
| `Payload.Body` | src/main/java/jp/co/dwango/logback/SlackWebhookAppender.java:108-125 | same error cases as the fields; a successful body starts with `{ ` and the escaped text field, and ends with ` }` |
| `Payload.BodyWithEveryField` | src/main/java/jp/co/dwango/logback/SlackWebhookAppender.java:108-125 | with every optional field configured, the body is the six fields in order between the braces, string values escaped |
| `Payload.BuildsMessageExample` | src/test/java/jp/co/dwango/logback/SlackWebhookAppenderTest.java:34-48 | with the test's configuration and the rendered text `[INFO] text "quoted"` plus a line break, the body is the test's expected string, written field by field |
| `Decode.ParseAfterEscaped` | src/main/java/jp/co/dwango/logback/SlackWebhookAppender.java:161-163 | reading the escape of `v` gives back `v` character by character, unless `v` ends in a backslash that a following quote would pair with |
| `Decode.ParseEscaped` | src/main/java/jp/co/dwango/logback/SlackWebhookAppender.java:161-163 | the escape of a value that does not end in a backslash, followed by a closing quote, reads back as the value itself, leaving what follows |
| `Decode.TrailingBackslashEscapesClosingQuote` | src/main/java/jp/co/dwango/logback/SlackWebhookAppender.java:161-163 | for a value ending in a backslash, the closing quote is read as an escaped quote inside the value, and reading runs on into what follows |
| `Decode.ParseRenderedMember` | src/main/java/jp/co/dwango/logback/SlackWebhookAppender.java:111-123 | a field written as the appender writes it reads back as the same key and value, and the reader stops right after it, when its key has no quote and neither the key nor a string value ends in a backslash |
| `Decode.ParseRenderedMembers` | src/main/java/jp/co/dwango/logback/SlackWebhookAppender.java:111-125 | a joined and closed list of fields reads back as the same list exactly when no string value ends in a backslash |
| `Decode.BodyDecodes` | src/main/java/jp/co/dwango/logback/SlackWebhookAppender.java:108-125 | a successful body reads back as exactly its fields if and only if neither the log text nor any value written into the body (channel, username, icon emoji, icon URL) ends in a backslash |
| `Appender.PostFailure` | src/main/java/jp/co/dwango/logback/SlackWebhookAppender.java:140-158 | `post` returns normally exactly when the webhook URL is set and the status is 200; a null URL fails with "Webhook URL is not specified."; a malformed URL, a failed connection or a failed exchange is an IOException; a URL whose scheme does not open an HTTP connection is a ClassCastException; any other status is an IOException whose message is the status message, a line break and the body |
| `Appender.DeliveryFailure` | src/main/java/jp/co/dwango/logback/SlackWebhookAppender.java:108-158 | an event is delivered exactly when channel, username and webhook URL are set and the status is 200; otherwise the exception caught is for the channel first, then the username, then the webhook URL |
| `Appender.Reports` | src/main/java/jp/co/dwango/logback/SlackWebhookAppender.java:129-131 | a caught exception yields exactly one report with the message "Failed to post a log to slack."; no exception yields none |
| `Appender.SlackWebhookAppender.constructor` | src/main/java/jp/co/dwango/logback/SlackWebhookAppender.java:23-36 | a new appender has no options set, `linkNames` on, an empty buffer and no reports |
| `Appender.SlackWebhookAppender.AssembleBody` | src/main/java/jp/co/dwango/logback/SlackWebhookAppender.java:108-125 | collecting the fields one by one, checking the channel and then the username as they are reached, and joining them yields the body of the current configuration, or its error |
| `Appender.SlackWebhookAppender.AddOptionalFields` | src/main/java/jp/co/dwango/logback/SlackWebhookAppender.java:115-123 | appends the rendered icon_emoji, icon_url and link_names fields, each only when configured, in that order |
| `Appender.SlackWebhookAppender.Post` | src/main/java/jp/co/dwango/logback/SlackWebhookAppender.java:140-158 | the exception thrown is exactly the one `PostFailure` describes: a null URL fails before the response is consulted, whatever it is; a connection failure or a status other than 200 is an IOException, and a non-HTTP scheme a ClassCastException |
| `Appender.SlackWebhookAppender.WriteOut` | src/main/java/jp/co/dwango/logback/SlackWebhookAppender.java:99-131 | the buffer is empty afterwards on every path. An encoder failure propagates, with no report and nothing posted. Otherwise nothing is thrown: the text is the old buffer plus what was rendered, the body is posted exactly when it could be built, and the reports grow by exactly the one report of the delivery failure, if there is one |
| `Appender.BuildsMessage` | src/test/java/jp/co/dwango/logback/SlackWebhookAppenderTest.java:28-50 | an appender configured as in the test, given the echo encoder's output, hands `post` exactly the test's expected body |

## Left out

- The HTTP exchange in `post` (lines 143-155) is left out. This covers the URL parsing, opening the
  connection, the 50-second timeouts, the request method and headers, and writing the body. It
  is replaced by a `Response` parameter: a status code with its message, an I/O failure, or a
  connection that is not an HTTP one. A malformed or empty URL and a timeout are I/O failures
  in the code. A non-HTTP scheme is the failed cast.
- A null response message is not modelled. Java would print it as `null`.
- The Logback base class is not modelled: `start()`, `setOutputStream` and the encoder called
  by `super.writeOut` (lines 90-93, 102). The encoder's work is a `Rendering` parameter: the
  text appended to the buffer, or a partial text and an exception.
  - Encoder formats are not modelled. The test scenario passes the echo encoder's output directly.
  - Header bytes that an encoder may write at start are covered, because the text is the old
    buffer content followed by the rendered text.
- Character encodings are not modelled: `baos.toString()` with the platform charset (line 103),
  and UTF-8 in `getBytes` and `new String` (lines 126, 157). The body is modelled as a character
  sequence that the conversions leave unchanged.
- What `addError` does with a report is not modelled. The reports are collected in the `errors`
  sequence.
- Concurrent calls of `writeOut` sharing the capture buffer are not modelled. The code has no
  locking.
- The getters and setters (lines 38-84) are not methods in the model. The fields are assigned
  directly.
- The ignored `testPost` test is not modelled. It needs a live logger and network.
- Exceptions are limited to the ones the code throws: IllegalStateException from
  `checkNotNull`, and IOException and ClassCastException from `post`. A runtime exception from
  the JDK's own networking code would also be caught and reported by the same `catch`, but is
  not modelled.
- Appender.BuildsMessage: states only the body handed to `post`. This matches the test, which
  replaces `post` by a recorder.
  - The model's own `Post` still runs in that scenario. It records a "Webhook URL is not
    specified." report, which the test's replacement would not.
