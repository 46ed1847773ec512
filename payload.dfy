/**
  The JSON body the appender posts: `{ ` + the fields joined by `, ` + ` }`, with the fields
  text, channel, username, icon_emoji, icon_url and link_names in that order, the last three
  only when configured.
 */
module Payload {
  import opened Lang
  import opened Escape

  const ChannelMissing := "Channel is not specified."
  const UsernameMissing := "Username is not specified."

  /** The appender's configuration fields; `None` is a field left null. `linkNames` is true by default. */
  datatype Config = Config(
    webhookUrl: Option<string>,
    channel: Option<string>,
    username: Option<string>,
    iconEmoji: Option<string>,
    iconUrl: Option<string>,
    linkNames: bool)

  /** The only number the payload carries is link_names' `1`, written as one decimal digit. */
  type Digit = n: nat | n < 10

  /** A JSON value of the payload: a quoted string or a number. */
  datatype Value = Str(s: string) | Number(d: Digit)

  /** One `"key": value` field. String values are held unescaped. */
  datatype Member = Member(key: string, value: Value)

  /** Where a key stands in the fixed field order; keys outside it rank last. */
  function KeyRank(key: string): nat
  {
    if key == "text" then 0
    else if key == "channel" then 1
    else if key == "username" then 2
    else if key == "icon_emoji" then 3
    else if key == "icon_url" then 4
    else if key == "link_names" then 5
    else 6
  }

  /**
    The fields of the payload for rendered log text `text`. The channel is checked before the
    username, so a configuration missing both reports the channel.
   */
  function Members(text: string, cfg: Config): (r: Result<seq<Member>, Exception>)
    ensures cfg.channel.None? ==> r == Err(IllegalState(ChannelMissing))
    ensures cfg.channel.Some? && cfg.username.None? ==> r == Err(IllegalState(UsernameMissing))
    ensures r.Ok? <==> cfg.channel.Some? && cfg.username.Some?
    ensures r.Ok? ==> 3 <= |r.value| <= 6
    ensures r.Ok? ==> r.value[0] == Member("text", Str(text))
    ensures r.Ok? ==> r.value[1] == Member("channel", Str(cfg.channel.value))
    ensures r.Ok? ==> r.value[2] == Member("username", Str(cfg.username.value))
  {
    var channel :- CheckNotNull(cfg.channel, ChannelMissing);
    var username :- CheckNotNull(cfg.username, UsernameMissing);
    Ok([Member("text", Str(text)), Member("channel", Str(channel)), Member("username", Str(username))]
       + OptionalMembers(cfg))
  }

  /** The fields that follow username, each present only when configured. */
  function OptionalMembers(cfg: Config): (r: seq<Member>)
  {
    IconEmojiPart(cfg) + IconUrlPart(cfg) + LinkNamesPart(cfg)
  }

  function IconEmojiPart(cfg: Config): seq<Member>
  {
    if cfg.iconEmoji.Some? then [Member("icon_emoji", Str(cfg.iconEmoji.value))] else []
  }

  function IconUrlPart(cfg: Config): seq<Member>
  {
    if cfg.iconUrl.Some? then [Member("icon_url", Str(cfg.iconUrl.value))] else []
  }

  function LinkNamesPart(cfg: Config): seq<Member>
  {
    if cfg.linkNames then [Member("link_names", Number(1))] else []
  }

  /** The fields appear in the fixed order text, channel, username, icon_emoji, icon_url, link_names, each at most once. */
  lemma MembersOrdered(text: string, cfg: Config)
    requires Members(text, cfg).Ok?
    ensures var ms := Members(text, cfg).value;
      forall i, j :: 0 <= i < j < |ms| ==> KeyRank(ms[i].key) < KeyRank(ms[j].key)
    ensures forall m :: m in Members(text, cfg).value ==> KeyRank(m.key) < 6
  {
    MembersIncreasing(text, cfg);
    MembersRankedKeys(text, cfg);
  }

  lemma MembersIncreasing(text: string, cfg: Config)
    requires Members(text, cfg).Ok?
    ensures var ms := Members(text, cfg).value;
      forall i, j :: 0 <= i < j < |ms| ==> KeyRank(ms[i].key) < KeyRank(ms[j].key)
  {
    var ms := Members(text, cfg).value;
    var head := ms[..3];
    var opt := OptionalMembers(cfg);
    assert ms == head + opt;
    HeadRanked(head, text, cfg.channel.value, cfg.username.value);
    OptionalMembersRanked(cfg);
    IncreasingConcat(head, opt);
  }

  /** The three fields every body has rank 0, 1 and 2. */
  lemma HeadRanked(head: seq<Member>, text: string, channel: string, username: string)
    requires head == [Member("text", Str(text)), Member("channel", Str(channel)), Member("username", Str(username))]
    ensures forall i, j :: 0 <= i < j < |head| ==> KeyRank(head[i].key) < KeyRank(head[j].key)
    ensures forall k :: 0 <= k < |head| ==> KeyRank(head[k].key) < 3
  {
    assert KeyRank(head[0].key) == 0 && KeyRank(head[1].key) == 1 && KeyRank(head[2].key) == 2;
  }

  /** Two increasing runs of fields, the first ranked below 3 and the second from 3 on, make one. */
  lemma IncreasingConcat(a: seq<Member>, b: seq<Member>)
    requires forall i, j :: 0 <= i < j < |a| ==> KeyRank(a[i].key) < KeyRank(a[j].key)
    requires forall i, j :: 0 <= i < j < |b| ==> KeyRank(b[i].key) < KeyRank(b[j].key)
    requires forall k :: 0 <= k < |a| ==> KeyRank(a[k].key) < 3
    requires forall k :: 0 <= k < |b| ==> 3 <= KeyRank(b[k].key)
    ensures forall i, j :: 0 <= i < j < |a + b| ==> KeyRank((a + b)[i].key) < KeyRank((a + b)[j].key)
  {
    var ab := a + b;
    forall i, j | 0 <= i < j < |ab|
      ensures KeyRank(ab[i].key) < KeyRank(ab[j].key)
    {
      if j < |a| {
        assert ab[i] == a[i] && ab[j] == a[j];
      } else if i < |a| {
        assert ab[i] == a[i] && ab[j] == b[j - |a|];
      } else {
        assert ab[i] == b[i - |a|] && ab[j] == b[j - |a|];
      }
    }
  }

  lemma MembersRankedKeys(text: string, cfg: Config)
    requires Members(text, cfg).Ok?
    ensures forall m :: m in Members(text, cfg).value ==> KeyRank(m.key) < 6
  {
    var ms := Members(text, cfg).value;
    var opt := OptionalMembers(cfg);
    assert ms == ms[..3] + opt;
    assert KeyRank(ms[0].key) == 0 && KeyRank(ms[1].key) == 1 && KeyRank(ms[2].key) == 2;
    OptionalMembersRanked(cfg);
    forall m | m in ms
      ensures KeyRank(m.key) < 6
    {
      var k :| 0 <= k < |ms| && ms[k] == m;
      if k >= 3 {
        assert ms[k] == opt[k - 3];
      }
    }
  }

  /** The optional fields rank between 3 and 5, strictly increasing. */
  lemma OptionalMembersRanked(cfg: Config)
    ensures var opt := OptionalMembers(cfg);
      forall i, j :: 0 <= i < j < |opt| ==> 3 <= KeyRank(opt[i].key) < KeyRank(opt[j].key) < 6
    ensures forall k :: 0 <= k < |OptionalMembers(cfg)| ==> 3 <= KeyRank(OptionalMembers(cfg)[k].key) < 6
  {
    assert KeyRank("icon_emoji") == 3 && KeyRank("icon_url") == 4 && KeyRank("link_names") == 5;
  }

  /** Whether some field has key `key`. */
  predicate HasKey(ms: seq<Member>, key: string)
  {
    exists m :: m in ms && m.key == key
  }

  lemma HasKeyConcat(a: seq<Member>, b: seq<Member>, key: string)
    ensures HasKey(a + b, key) <==> HasKey(a, key) || HasKey(b, key)
  {
    if HasKey(a + b, key) {
      var m :| m in a + b && m.key == key;
      assert m in a || m in b;
    }
    if HasKey(a, key) {
      var m :| m in a && m.key == key;
      assert m in a + b;
    }
    if HasKey(b, key) {
      var m :| m in b && m.key == key;
      assert m in a + b;
    }
  }

  /**
    icon_emoji is present exactly when an icon emoji is configured, icon_url exactly when an icon
    URL is, each carrying the configured value; link_names is present, as `1`, exactly when
    `linkNames` is true.
   */
  lemma OptionalMembersPresence(text: string, cfg: Config)
    requires Members(text, cfg).Ok?
    ensures var ms := Members(text, cfg).value;
      && (HasKey(ms, "icon_emoji") <==> cfg.iconEmoji.Some?)
      && (cfg.iconEmoji.Some? ==> Member("icon_emoji", Str(cfg.iconEmoji.value)) in ms)
      && (HasKey(ms, "icon_url") <==> cfg.iconUrl.Some?)
      && (cfg.iconUrl.Some? ==> Member("icon_url", Str(cfg.iconUrl.value)) in ms)
      && (HasKey(ms, "link_names") <==> cfg.linkNames)
      && (cfg.linkNames ==> Member("link_names", Number(1)) in ms)
  {
    IconEmojiPresence(text, cfg);
    IconUrlPresence(text, cfg);
    LinkNamesPresence(text, cfg);
  }

  lemma IconEmojiPresence(text: string, cfg: Config)
    requires Members(text, cfg).Ok?
    ensures var ms := Members(text, cfg).value;
      && (HasKey(ms, "icon_emoji") <==> cfg.iconEmoji.Some?)
      && (cfg.iconEmoji.Some? ==> Member("icon_emoji", Str(cfg.iconEmoji.value)) in ms)
  {
    var ms := Members(text, cfg).value;
    var head := ms[..3];
    var e, u, l := IconEmojiPart(cfg), IconUrlPart(cfg), LinkNamesPart(cfg);
    assert ms == head + e + u + l;
    HasKeyParts(head, e, u, l, "icon_emoji");
    if cfg.iconEmoji.Some? {
      assert ms[|head|] == e[0];
      assert e[0] in e;
    }
  }

  lemma IconUrlPresence(text: string, cfg: Config)
    requires Members(text, cfg).Ok?
    ensures var ms := Members(text, cfg).value;
      && (HasKey(ms, "icon_url") <==> cfg.iconUrl.Some?)
      && (cfg.iconUrl.Some? ==> Member("icon_url", Str(cfg.iconUrl.value)) in ms)
  {
    var ms := Members(text, cfg).value;
    var head := ms[..3];
    var e, u, l := IconEmojiPart(cfg), IconUrlPart(cfg), LinkNamesPart(cfg);
    assert ms == head + e + u + l;
    HasKeyParts(head, e, u, l, "icon_url");
    if cfg.iconUrl.Some? {
      assert ms[|head + e|] == u[0];
      assert u[0] in u;
    }
  }

  lemma LinkNamesPresence(text: string, cfg: Config)
    requires Members(text, cfg).Ok?
    ensures var ms := Members(text, cfg).value;
      && (HasKey(ms, "link_names") <==> cfg.linkNames)
      && (cfg.linkNames ==> Member("link_names", Number(1)) in ms)
  {
    var ms := Members(text, cfg).value;
    var head := ms[..3];
    var e, u, l := IconEmojiPart(cfg), IconUrlPart(cfg), LinkNamesPart(cfg);
    assert ms == head + e + u + l;
    HasKeyParts(head, e, u, l, "link_names");
    if cfg.linkNames {
      assert ms[|head + e + u|] == l[0];
      assert l[0] in l;
    }
  }

  /** A key is among four parts' fields when it is among one part's. */
  lemma HasKeyParts(head: seq<Member>, e: seq<Member>, u: seq<Member>, l: seq<Member>, key: string)
    requires |head| == 3 && KeyRank(head[0].key) < 3 && KeyRank(head[1].key) < 3 && KeyRank(head[2].key) < 3
    requires 3 <= KeyRank(key)
    ensures HasKey(head + e + u + l, key) <==> HasKey(e, key) || HasKey(u, key) || HasKey(l, key)
  {
    HasKeyConcat(head + e + u, l, key);
    HasKeyConcat(head + e, u, key);
    HasKeyConcat(head, e, key);
    assert forall m :: m in head ==> m == head[0] || m == head[1] || m == head[2];
  }

  /** A string field as the appender writes it: the key as it is, the value with its quotes escaped. */
  function StringField(key: string, v: string): string
  {
    "\"" + key + "\": \"" + EscapeQuotes(v) + "\""
  }

  /** A number field: the key, then the digit without quotes. */
  function NumberField(key: string, d: Digit): string
  {
    "\"" + key + "\": " + [('0' as int + d) as char]
  }

  function RenderMember(m: Member): string
  {
    match m.value
    case Str(v) => StringField(m.key, v)
    case Number(d) => NumberField(m.key, d)
  }

  function RenderAll(ms: seq<Member>): (r: seq<string>)
    ensures |r| == |ms|
  {
    seq(|ms|, i requires 0 <= i < |ms| => RenderMember(ms[i]))
  }

  predicate EndsWith(s: string, suffix: string)
  {
    |suffix| <= |s| && s[|s| - |suffix|..] == suffix
  }

  /** `String.join`: the parts with `sep` between neighbours. */
  function Join(sep: string, parts: seq<string>): string
  {
    if |parts| == 0 then ""
    else if |parts| == 1 then parts[0]
    else parts[0] + sep + Join(sep, parts[1..])
  }

  /** A joined string starts with the first part and ends with the last: no separator leads or trails. */
  lemma {:induction false} JoinEnds(sep: string, parts: seq<string>)
    requires |parts| > 0
    ensures parts[0] <= Join(sep, parts)
    ensures EndsWith(Join(sep, parts), parts[|parts| - 1])
  {
    if |parts| > 1 {
      JoinEnds(sep, parts[1..]);
      var r := Join(sep, parts);
      var tail := Join(sep, parts[1..]);
      assert r == (parts[0] + sep) + tail;
      assert r[|r| - |tail|..] == tail;
    }
  }

  /** The text of the request body, before its conversion to UTF-8 bytes. */
  function Body(text: string, cfg: Config): (r: Result<string, Exception>)
    ensures cfg.channel.None? ==> r == Err(IllegalState(ChannelMissing))
    ensures cfg.channel.Some? && cfg.username.None? ==> r == Err(IllegalState(UsernameMissing))
    ensures r.Ok? <==> cfg.channel.Some? && cfg.username.Some?
    ensures r.Ok? ==> "{ " + TextField(text) <= r.value
    ensures r.Ok? ==> EndsWith(r.value, " }")
  {
    var ms :- Members(text, cfg);
    var fields := RenderAll(ms);
    assert fields[0] == TextField(text);
    JoinEnds(", ", fields);
    Framed("{ ", Join(", ", fields), " }", fields[0]);
    Ok("{ " + Join(", ", fields) + " }")
  }

  /** The first field of every body: the rendered text, quotes escaped, as a JSON string. */
  function TextField(text: string): string
  {
    StringField("text", text)
  }

  lemma Framed(open: string, inner: string, close: string, p: string)
    requires p <= inner
    ensures open + p <= open + inner + close
    ensures EndsWith(open + inner + close, close)
  {
    var s := open + inner + close;
    assert s[|s| - |close|..] == close;
    assert (open + p) == s[..|open| + |p|];
  }

  /** The configuration of the appender's own test. */
  const ExampleConfig := Config(None, Some("channel"), Some("username"), Some("icon-emoji"), Some("icon-url"), true)

  /**
    The message the appender's own test expects: channel "channel", username "username", icon
    emoji "icon-emoji", icon URL "icon-url", link names on, rendered text `[INFO] text "quoted"`
    and a line break. The expected body is the test's string, written field by field.
   */
  lemma BuildsMessageExample(text: string, cfg: Config)
    requires text == "[INFO] text \"quoted\"\n" && cfg == ExampleConfig
    ensures Body(text, cfg).Ok?
    ensures Body(text, cfg).value
         == "{ " + ("\"text\": \"[INFO] text \\\"quoted\\\"\n\""
            + ", " + ("\"channel\": \"channel\""
            + ", " + ("\"username\": \"username\""
            + ", " + ("\"icon_emoji\": \"icon-emoji\""
            + ", " + ("\"icon_url\": \"icon-url\""
            + ", " + "\"link_names\": 1"))))) + " }"
  {
    BodyWithEveryField(text, cfg);
    ExampleTextField(text);
    ExampleOtherFields();
  }

  lemma ExampleTextField(text: string)
    requires text == "[INFO] text \"quoted\"\n"
    ensures StringField("text", text) == "\"text\": \"[INFO] text \\\"quoted\\\"\n\""
  {
    ExampleEscape(text, "[INFO] text ", "\"quoted\"\n");
    ExampleTextFrame(EscapeQuotes(text));
  }

  lemma ExampleTextFrame(e: string)
    requires e == "[INFO] text \\\"quoted\\\"\n"
    ensures "\"" + "text" + "\": \"" + e + "\"" == "\"text\": \"[INFO] text \\\"quoted\\\"\n\""
  {
    assert "\"" + "text" + "\": \"" == "\"text\": \"";
  }

  lemma ExampleOtherFields()
    ensures StringField("channel", "channel") == "\"channel\": \"channel\""
    ensures StringField("username", "username") == "\"username\": \"username\""
    ensures StringField("icon_emoji", "icon-emoji") == "\"icon_emoji\": \"icon-emoji\""
    ensures StringField("icon_url", "icon-url") == "\"icon_url\": \"icon-url\""
    ensures NumberField("link_names", 1) == "\"link_names\": 1"
  {
    ExampleUserFields();
    ExampleIconFields();
  }

  /** The test's channel and username fields and the link_names flag. */
  lemma ExampleUserFields()
    ensures StringField("channel", "channel") == "\"channel\": \"channel\""
    ensures StringField("username", "username") == "\"username\": \"username\""
    ensures NumberField("link_names", 1) == "\"link_names\": 1"
  {
    UnquotedField("channel", "channel", "\"channel\": \"channel\"");
    UnquotedField("username", "username", "\"username\": \"username\"");
  }

  /** The test's icon fields. */
  lemma ExampleIconFields()
    ensures StringField("icon_emoji", "icon-emoji") == "\"icon_emoji\": \"icon-emoji\""
    ensures StringField("icon_url", "icon-url") == "\"icon_url\": \"icon-url\""
  {
    UnquotedField("icon_emoji", "icon-emoji", "\"icon_emoji\": \"icon-emoji\"");
    UnquotedField("icon_url", "icon-url", "\"icon_url\": \"icon-url\"");
  }

  /** With every optional field configured, the body is the six fields, in order, between the braces. */
  lemma BodyWithEveryField(text: string, cfg: Config)
    requires cfg.channel.Some? && cfg.username.Some? && cfg.iconEmoji.Some? && cfg.iconUrl.Some? && cfg.linkNames
    ensures Body(text, cfg).Ok?
    ensures Body(text, cfg).value
         == "{ " + (StringField("text", text)
            + ", " + (StringField("channel", cfg.channel.value)
            + ", " + (StringField("username", cfg.username.value)
            + ", " + (StringField("icon_emoji", cfg.iconEmoji.value)
            + ", " + (StringField("icon_url", cfg.iconUrl.value)
            + ", " + NumberField("link_names", 1)))))) + " }"
  {
    var ms := Members(text, cfg).value;
    assert ms == [Member("text", Str(text)), Member("channel", Str(cfg.channel.value)), Member("username", Str(cfg.username.value)),
                  Member("icon_emoji", Str(cfg.iconEmoji.value)), Member("icon_url", Str(cfg.iconUrl.value)), Member("link_names", Number(1))];
    BodyJoins(text, cfg);
    JoinSix(", ", RenderAll(ms));
  }

  /** A successful body is the rendered fields, joined and framed. */
  lemma BodyJoins(text: string, cfg: Config)
    requires Body(text, cfg).Ok?
    ensures Members(text, cfg).Ok?
    ensures Body(text, cfg).value == "{ " + Join(", ", RenderAll(Members(text, cfg).value)) + " }"
  {
  }

  lemma ExampleEscape(text: string, a: string, b: string)
    requires a == "[INFO] text " && b == "\"quoted\"\n" && text == a + b
    ensures EscapeQuotes(text) == "[INFO] text \\\"quoted\\\"\n"
  {
    assert '"' !in a;
    EscapeQuotesWithoutQuotes(a);
    ExampleQuoted(b, "\"", "quoted", "\n");
    EscapeQuotesConcat(a, b);
  }

  lemma ExampleQuoted(b: string, q: string, w: string, n: string)
    requires q == "\"" && w == "quoted" && n == "\n" && b == q + w + q + n
    ensures EscapeQuotes(b) == "\\\"quoted\\\"\n"
  {
    EscapeQuotesOfQuote();
    EscapeQuotesWithoutQuotes(w);
    EscapeQuotesWithoutQuotes(n);
    EscapeQuotesConcat(q, w);
    EscapeQuotesConcat(q + w, q);
    EscapeQuotesConcat(q + w + q, n);
  }

  lemma UnquotedField(key: string, v: string, field: string)
    requires '"' !in v && field == "\"" + key + "\": \"" + v + "\""
    ensures StringField(key, v) == field
  {
    EscapeQuotesWithoutQuotes(v);
  }

  lemma JoinSix(sep: string, fields: seq<string>)
    requires |fields| == 6
    ensures Join(sep, fields)
         == fields[0] + sep + (fields[1] + sep + (fields[2] + sep + (fields[3] + sep + (fields[4] + sep + fields[5]))))
  {
    assert Join(sep, fields[4..]) == fields[4] + sep + fields[5] by { assert fields[4..][1..] == fields[5..]; }
    assert Join(sep, fields[3..]) == fields[3] + sep + Join(sep, fields[4..]) by { assert fields[3..][1..] == fields[4..]; }
    assert Join(sep, fields[2..]) == fields[2] + sep + Join(sep, fields[3..]) by { assert fields[2..][1..] == fields[3..]; }
    assert Join(sep, fields[1..]) == fields[1] + sep + Join(sep, fields[2..]) by { assert fields[1..][1..] == fields[2..]; }
  }
}
