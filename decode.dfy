/**
  A reader for the bodies the appender writes, which inverts the payload builder on bodies
  whose values do not end in a backslash: it undoes exactly the appender's escaping (`\"`
  stands for a quote, every other character for itself), and is not a general JSON parser.
 */
module Decode {
  import opened Lang
  import opened Escape
  import opened Payload

  predicate EndsInBackslash(s: string)
  {
    |s| > 0 && s[|s| - 1] == '\\'
  }

  /** Puts `v` in front of the string a successful parse produced. */
  function Prepend(v: string, r: Option<(string, string)>): Option<(string, string)>
  {
    if r.None? then None else Some((v + r.value.0, r.value.1))
  }

  /**
    Reads the inside of a quoted string, up to and including the closing quote, and returns its
    value and the input that follows it. A backslash followed by a quote stands for a quote;
    any other character, a backslash included, stands for itself.
   */
  function ParseQuoted(s: string): (r: Option<(string, string)>)
    ensures r.Some? ==> |r.value.1| < |s| && EndsWith(s, r.value.1)
    decreases |s|
  {
    if s == [] then None
    else if s[0] == '"' then Some(([], s[1..]))
    else if s[0] == '\\' && |s| > 1 && s[1] == '"' then Prepend("\"", ParseQuoted(s[2..]))
    else Prepend([s[0]], ParseQuoted(s[1..]))
  }

  /** Reads a value: a quoted string or a single decimal digit. */
  function ParseValue(s: string): (r: Option<(Value, string)>)
    ensures r.Some? ==> |r.value.1| < |s| && EndsWith(s, r.value.1)
  {
    if s == [] then None
    else if s[0] == '"' then
      match ParseQuoted(s[1..])
      case None => None
      case Some((v, rest)) => Some((Str(v), rest))
    else if '0' <= s[0] <= '9' then Some((Number(s[0] as int - '0' as int), s[1..]))
    else None
  }

  /** Reads one `"key": value` field. */
  function ParseMember(s: string): (r: Option<(Member, string)>)
    ensures r.Some? ==> |r.value.1| < |s| && EndsWith(s, r.value.1)
  {
    if s == [] || s[0] != '"' then None
    else
      match ParseQuoted(s[1..])
      case None => None
      case Some((key, rest)) =>
        if |rest| < 2 || rest[..2] != ": " then None
        else
          match ParseValue(rest[2..])
          case None => None
          case Some((v, rest')) => Some((Member(key, v), rest'))
  }

  /** Reads the fields separated by `, ` and the closing ` }` after them. */
  function ParseMembers(s: string): (r: Option<seq<Member>>)
    ensures r.Some? ==> |r.value| > 0 && EndsWith(s, " }")
    decreases |s|
  {
    match ParseMember(s)
    case None => None
    case Some((m, rest)) =>
      if rest == " }" then Some([m])
      else if |rest| >= 2 && rest[..2] == ", " then
        match ParseMembers(rest[2..])
        case None => None
        case Some(ms) =>
          EndsWithTrans(s, rest, rest[2..], " }");
          Some([m] + ms)
      else None
  }

  /** Reads a whole body back into its fields. */
  function DecodeBody(body: string): (r: Option<seq<Member>>)
    ensures r.Some? ==> |r.value| > 0 && "{ " <= body && EndsWith(body, " }")
  {
    if |body| >= 2 && body[..2] == "{ " then ParseMembers(body[2..]) else None
  }

  /** A field the reader gets back unchanged: its key has no quote and neither key nor string value ends in a backslash. */
  predicate Decodable(m: Member)
  {
    '"' !in m.key && !EndsInBackslash(m.key) && (m.value.Str? ==> !EndsInBackslash(m.value.s))
  }

  /** Neither the log text nor any value written into the body (channel, username, icon emoji, icon URL) ends in a backslash. */
  predicate Representable(text: string, cfg: Config)
  {
    && !EndsInBackslash(text)
    && (cfg.channel.Some? ==> !EndsInBackslash(cfg.channel.value))
    && (cfg.username.Some? ==> !EndsInBackslash(cfg.username.value))
    && (cfg.iconEmoji.Some? ==> !EndsInBackslash(cfg.iconEmoji.value))
    && (cfg.iconUrl.Some? ==> !EndsInBackslash(cfg.iconUrl.value))
  }

  lemma EndsWithTrans(s: string, t: string, t': string, u: string)
    requires EndsWith(s, t) && |t| >= 2 && t' == t[2..] && EndsWith(t', u)
    ensures EndsWith(s, u)
  {
    assert s[|s| - |u|..] == t[|t| - |u|..];
  }

  lemma PrependPrepend(a: string, b: string, r: Option<(string, string)>)
    ensures Prepend(a, Prepend(b, r)) == Prepend(a + b, r)
  {
    if r.Some? {
      assert a + (b + r.value.0) == (a + b) + r.value.0;
    }
  }

  /** An escaped string never starts with a quote. */
  lemma EscapedStart(w: string)
    requires w != []
    ensures EscapeQuotes(w) != [] && EscapeQuotes(w)[0] != '"'
  {
    EscapeQuotesUnfold(w);
  }

  /**
    Reading the escape of `v` gives `v` back character by character and leaves the reader where
    it would be on `s`, unless `v` ends in a backslash and `s` starts with a quote.
   */
  lemma {:induction false} ParseAfterEscaped(v: string, s: string)
    requires EndsInBackslash(v) ==> s == [] || s[0] != '"'
    ensures ParseQuoted(EscapeQuotes(v) + s) == Prepend(v, ParseQuoted(s))
  {
    EscapeQuotesUnfold(v);
    if v == [] {
      assert EscapeQuotes(v) + s == s;
      if ParseQuoted(s).Some? {
        assert [] + ParseQuoted(s).value.0 == ParseQuoted(s).value.0;
      }
    } else {
      var t := EscapeQuotes(v[1..]) + s;
      assert EndsInBackslash(v[1..]) ==> EndsInBackslash(v);
      ParseAfterEscaped(v[1..], s);
      var u := EscapeQuotes(v) + s;
      assert u == EscapePiece(v[0]) + t;
      if v[0] == '"' {
        assert u[0] == '\\' && u[1] == '"' && u[2..] == t;
        PrependPrepend("\"", v[1..], ParseQuoted(s));
        assert "\"" + v[1..] == v;
      } else {
        assert u[0] == v[0] && u[1..] == t;
        if v[0] == '\\' && |u| > 1 {
          if v[1..] == [] {
            assert t == s;
          } else {
            EscapedStart(v[1..]);
          }
          assert u[1] != '"';
        }
        PrependPrepend([v[0]], v[1..], ParseQuoted(s));
        assert [v[0]] + v[1..] == v;
      }
    }
  }

  /** A value that does not end in a backslash is read back whole, with the closing quote. */
  lemma ParseEscaped(v: string, rest: string)
    requires !EndsInBackslash(v)
    ensures ParseQuoted(EscapeQuotes(v) + "\"" + rest) == Some((v, rest))
  {
    ParseAfterEscaped(v, "\"" + rest);
    assert EscapeQuotes(v) + "\"" + rest == EscapeQuotes(v) + ("\"" + rest);
    assert ("\"" + rest)[1..] == rest;
    assert v + [] == v;
  }

  /**
    A value ending in a backslash is not: the backslash escapes the closing quote, the reader
    takes it for a quote inside the value and reads on into what follows.
   */
  lemma TrailingBackslashEscapesClosingQuote(v: string, rest: string)
    requires EndsInBackslash(v)
    ensures ParseQuoted(EscapeQuotes(v) + "\"" + rest)
         == Prepend(v[..|v| - 1] + "\"", ParseQuoted(rest))
  {
    var w := v[..|v| - 1];
    assert v == w + "\\";
    EscapeQuotesConcat(w, "\\");
    EscapeQuotesWithoutQuotes("\\");
    var s := "\\\"" + rest;
    assert EscapeQuotes(v) + "\"" + rest == EscapeQuotes(w) + s;
    ParseAfterEscaped(w, s);
    assert s[0] == '\\' && s[1] == '"' && s[2..] == rest;
    PrependPrepend(w, "\"", ParseQuoted(rest));
  }

  /** Keys the reader gets back: no quote inside and no backslash at the end. */
  predicate PlainKey(key: string)
  {
    '"' !in key && !EndsInBackslash(key)
  }

  /** Every key of the fixed field order is plain. */
  lemma RankedKeysPlain(key: string)
    requires KeyRank(key) < 6
    ensures PlainKey(key)
  {
  }

  /** Names the value a successful parse produced with `key`. */
  function WithKey(key: string, r: Option<(Value, string)>): Option<(Member, string)>
  {
    if r.None? then None else Some((Member(key, r.value.0), r.value.1))
  }

  /** After a plain quoted key and `: `, the reader reads a value. */
  lemma ParseKeyed(key: string, y: string)
    requires PlainKey(key)
    ensures ParseMember("\"" + key + "\"" + (": " + y)) == WithKey(key, ParseValue(y))
  {
    var s := "\"" + key + "\"" + (": " + y);
    EscapeQuotesWithoutQuotes(key);
    assert s[1..] == EscapeQuotes(key) + "\"" + (": " + y);
    ParseEscaped(key, ": " + y);
    assert (": " + y)[..2] == ": " && (": " + y)[2..] == y;
  }

  lemma StringFieldShape(key: string, v: string, rest: string)
    ensures StringField(key, v) + rest == "\"" + key + "\"" + (": " + ("\"" + (EscapeQuotes(v) + "\"" + rest)))
  {
  }

  lemma NumberFieldShape(key: string, d: Digit, rest: string)
    ensures NumberField(key, d) + rest == "\"" + key + "\"" + (": " + ([('0' as int + d) as char] + rest))
  {
  }

  /** A field the appender renders is read back, and the reader stops right after it. */
  lemma ParseRenderedMember(m: Member, rest: string)
    requires Decodable(m)
    ensures ParseMember(RenderMember(m) + rest) == Some((m, rest))
  {
    match m.value
    case Str(v) =>
      StringFieldShape(m.key, v, rest);
      ParseKeyed(m.key, "\"" + (EscapeQuotes(v) + "\"" + rest));
      ParseEscaped(v, rest);
    case Number(d) =>
      NumberFieldShape(m.key, d, rest);
      ParseKeyed(m.key, [('0' as int + d) as char] + rest);
  }

  /** A string field whose value ends in a backslash is not read back as itself. */
  lemma ParseRenderedTrailingBackslash(m: Member, rest: string)
    requires PlainKey(m.key) && m.value.Str? && EndsInBackslash(m.value.s)
    ensures ParseMember(RenderMember(m) + rest).None? || ParseMember(RenderMember(m) + rest).value.0 != m
  {
    var v := m.value.s;
    StringFieldShape(m.key, v, rest);
    ParseKeyed(m.key, "\"" + (EscapeQuotes(v) + "\"" + rest));
    TrailingBackslashEscapesClosingQuote(v, rest);
    QuoteForBackslash(v, ParseQuoted(rest));
  }

  /** Reading a quote where `v` has its trailing backslash cannot give `v` back. */
  lemma QuoteForBackslash(v: string, r: Option<(string, string)>)
    requires EndsInBackslash(v)
    ensures Prepend(v[..|v| - 1] + "\"", r).None? || Prepend(v[..|v| - 1] + "\"", r).value.0 != v
  {
    var w := v[..|v| - 1];
    if r.Some? {
      assert Prepend(w + "\"", r).value.0[|w|] == '"' != v[|w|];
    }
  }

  /** What follows the first field of a rendered list: the closing brace, or a separator and the other fields. */
  function AfterFirst(ms: seq<Member>): string
    requires |ms| > 0
  {
    if |ms| == 1 then " }" else ", " + (Join(", ", RenderAll(ms[1..])) + " }")
  }

  lemma SplitRendered(ms: seq<Member>)
    requires |ms| > 0
    ensures Join(", ", RenderAll(ms)) + " }" == RenderMember(ms[0]) + AfterFirst(ms)
  {
    if |ms| > 1 {
      assert RenderAll(ms)[1..] == RenderAll(ms[1..]);
    }
  }

  /** Puts `m` in front of the fields a successful parse produced. */
  function Cons(m: Member, r: Option<seq<Member>>): Option<seq<Member>>
  {
    if r.None? then None else Some([m] + r.value)
  }

  /** Once the first field reads back, the rest of the list is read on its own. */
  lemma ParseAfterFirst(ms: seq<Member>)
    requires |ms| > 1 && Decodable(ms[0])
    ensures ParseMembers(Join(", ", RenderAll(ms)) + " }") == Cons(ms[0], ParseMembers(Join(", ", RenderAll(ms[1..])) + " }"))
  {
    var rest := AfterFirst(ms);
    assert rest != " }" && |rest| >= 2 && rest[..2] == ", " && rest[2..] == Join(", ", RenderAll(ms[1..])) + " }" by {
      assert rest[0] == ',';
    }
    SplitRendered(ms);
    ParseRenderedMember(ms[0], rest);
  }

  /** A first field that does not read back as itself spoils the whole list. */
  lemma ParseBadFirst(ms: seq<Member>)
    requires |ms| > 0 && PlainKey(ms[0].key) && !Decodable(ms[0])
    ensures ParseMembers(Join(", ", RenderAll(ms)) + " }") != Some(ms)
  {
    var s := Join(", ", RenderAll(ms)) + " }";
    SplitRendered(ms);
    ParseRenderedTrailingBackslash(ms[0], AfterFirst(ms));
    if ParseMembers(s).Some? {
      assert ParseMembers(s).value[0] == ParseMember(s).value.0;
    }
  }

  /**
    Reading a rendered list of fields with plain keys gives the fields back exactly when none
    of their string values ends in a backslash.
   */
  lemma {:induction false} ParseRenderedMembers(ms: seq<Member>)
    requires |ms| > 0 && forall m :: m in ms ==> PlainKey(m.key)
    ensures ParseMembers(Join(", ", RenderAll(ms)) + " }") == Some(ms)
        <==> forall m :: m in ms ==> Decodable(m)
  {
    assert ms[0] in ms;
    if !Decodable(ms[0]) {
      ParseBadFirst(ms);
    } else if |ms| == 1 {
      ParseSingle(ms);
    } else {
      assert forall m :: m in ms[1..] ==> m in ms;
      ParseRenderedMembers(ms[1..]);
      ParseAfterDecodable(ms);
    }
  }

  /** The inductive step: with a readable first field, the list reads back exactly when its tail does. */
  lemma ParseAfterDecodable(ms: seq<Member>)
    requires |ms| > 1 && Decodable(ms[0])
    requires ParseMembers(Join(", ", RenderAll(ms[1..])) + " }") == Some(ms[1..])
        <==> forall m :: m in ms[1..] ==> Decodable(m)
    ensures ParseMembers(Join(", ", RenderAll(ms)) + " }") == Some(ms)
        <==> forall m :: m in ms ==> Decodable(m)
  {
    var tail := ms[1..];
    AllDecodableCons(ms);
    ParseAfterFirst(ms);
    ConsSome(ms[0], tail, ParseMembers(Join(", ", RenderAll(tail)) + " }"));
    assert [ms[0]] + tail == ms;
  }

  lemma AllDecodableCons(ms: seq<Member>)
    requires |ms| > 0
    ensures (forall m :: m in ms ==> Decodable(m)) <==> Decodable(ms[0]) && forall m :: m in ms[1..] ==> Decodable(m)
  {
    assert forall m :: m in ms <==> m == ms[0] || m in ms[1..];
  }

  /** A single readable field, closed, reads back as itself. */
  lemma ParseSingle(ms: seq<Member>)
    requires |ms| == 1 && Decodable(ms[0])
    ensures ParseMembers(Join(", ", RenderAll(ms)) + " }") == Some(ms)
  {
    SplitRendered(ms);
    ParseRenderedMember(ms[0], " }");
    assert ms == [ms[0]];
  }

  /** Putting `m` in front gives `[m] + tail` exactly when the rest was read as `tail`. */
  lemma ConsSome(m: Member, tail: seq<Member>, r: Option<seq<Member>>)
    ensures Cons(m, r) == Some([m] + tail) <==> r == Some(tail)
  {
    if r.Some? && [m] + r.value == [m] + tail {
      assert r.value == ([m] + r.value)[1..];
    }
  }

  lemma AllDecodableConcat(a: seq<Member>, b: seq<Member>)
    ensures (forall m :: m in a + b ==> Decodable(m))
        <==> (forall m :: m in a ==> Decodable(m)) && (forall m :: m in b ==> Decodable(m))
  {
    assert forall m :: m in a + b <==> m in a || m in b;
  }

  /** The string values of a payload's fields are the log text and the configured values written into the body. */
  lemma MembersRepresentable(text: string, cfg: Config)
    requires Members(text, cfg).Ok?
    ensures (forall m :: m in Members(text, cfg).value ==> Decodable(m)) <==> Representable(text, cfg)
  {
    var ms := Members(text, cfg).value;
    var head := ms[..3];
    var e, u, l := IconEmojiPart(cfg), IconUrlPart(cfg), LinkNamesPart(cfg);
    assert ms == head + e + u + l;
    AllDecodableConcat(head + e + u, l);
    AllDecodableConcat(head + e, u);
    AllDecodableConcat(head, e);
    HeadDecodable(text, cfg);
    OptionalPartsDecodable(cfg);
  }

  lemma HeadDecodable(text: string, cfg: Config)
    requires Members(text, cfg).Ok?
    ensures (forall m :: m in Members(text, cfg).value[..3] ==> Decodable(m))
        <==> !EndsInBackslash(text) && !EndsInBackslash(cfg.channel.value) && !EndsInBackslash(cfg.username.value)
  {
    var head := Members(text, cfg).value[..3];
    RankedKeysPlain("text");
    RankedKeysPlain("channel");
    RankedKeysPlain("username");
    assert forall m :: m in head <==> m == head[0] || m == head[1] || m == head[2];
    assert head[0] in head && head[1] in head && head[2] in head;
    assert Decodable(head[0]) <==> !EndsInBackslash(text);
    assert Decodable(head[1]) <==> !EndsInBackslash(cfg.channel.value);
    assert Decodable(head[2]) <==> !EndsInBackslash(cfg.username.value);
  }

  lemma OptionalPartsDecodable(cfg: Config)
    ensures (forall m :: m in IconEmojiPart(cfg) ==> Decodable(m)) <==> (cfg.iconEmoji.Some? ==> !EndsInBackslash(cfg.iconEmoji.value))
    ensures (forall m :: m in IconUrlPart(cfg) ==> Decodable(m)) <==> (cfg.iconUrl.Some? ==> !EndsInBackslash(cfg.iconUrl.value))
    ensures forall m :: m in LinkNamesPart(cfg) ==> Decodable(m)
  {
    RankedKeysPlain("icon_emoji");
    RankedKeysPlain("icon_url");
    RankedKeysPlain("link_names");
    var e, u := IconEmojiPart(cfg), IconUrlPart(cfg);
    if cfg.iconEmoji.Some? {
      assert e[0] in e && forall m :: m in e ==> m == e[0];
    }
    if cfg.iconUrl.Some? {
      assert u[0] in u && forall m :: m in u ==> m == u[0];
    }
  }

  /**
    The round trip of the whole body: reading what the appender posts gives back its fields
    exactly when neither the log text nor any value written into the body (channel, username, icon emoji, icon URL)
    ends in a backslash.
   */
  lemma BodyDecodes(text: string, cfg: Config)
    requires Body(text, cfg).Ok?
    ensures Members(text, cfg).Ok?
    ensures DecodeBody(Body(text, cfg).value) == Some(Members(text, cfg).value) <==> Representable(text, cfg)
  {
    BodyJoins(text, cfg);
    var ms := Members(text, cfg).value;
    DecodeFramed(Join(", ", RenderAll(ms)), " }");
    MembersPlainKeys(text, cfg);
    ParseRenderedMembers(ms);
    MembersRepresentable(text, cfg);
  }

  /** The reader drops the opening brace and reads the fields. */
  lemma DecodeFramed(inner: string, close: string)
    ensures DecodeBody("{ " + inner + close) == ParseMembers(inner + close)
  {
    var body := "{ " + inner + close;
    assert body[..2] == "{ " && body[2..] == inner + close;
  }

  /** Every key of a payload is plain. */
  lemma MembersPlainKeys(text: string, cfg: Config)
    requires Members(text, cfg).Ok?
    ensures forall m :: m in Members(text, cfg).value ==> PlainKey(m.key)
  {
    MembersOrdered(text, cfg);
    forall m | m in Members(text, cfg).value
      ensures PlainKey(m.key)
    {
      RankedKeysPlain(m.key);
    }
  }
}
