/**
 * The wire format shared by the stream endpoint and the client: each event is the line
 * `data: <json>` followed by a blank line (a subset of the Server-Sent Events stream format,
 * section 9.2 of the WHATWG HTML Living Standard), and the client splits what it reads on '\n'.
 *
 * `JSON.stringify` and `JSON.parse` of a StreamResponse are modelled by Encode and Decode: a
 * JSON object with the keys in insertion order, absent optional keys left out, and string
 * escapes for quote, backslash, line feed and carriage return. Decode reads exactly that form
 * and fails on anything else.
 */
module Wire {
  import opened Wrappers
  import opened ChatTypes

  // ---------------------------------------------------------------- string escapes

  function EscapeChar(c: char): (e: string)
    ensures '\n' !in e
  {
    if c == '"' then "\\\""
    else if c == '\\' then "\\\\"
    else if c == '\n' then "\\n"
    else if c == '\r' then "\\r"
    else [c]
  }

  /** The body of a JSON string literal holding `s`. */
  function Escape(s: string): (e: string)
    ensures '\n' !in e
  {
    if s == [] then [] else EscapeChar(s[0]) + Escape(s[1..])
  }

  /**
   * Reads the body of a JSON string literal up to its closing quote: the decoded string
   * and what follows the quote, or None if the literal is malformed or unterminated.
   */
  function ReadString(s: string): Option<(string, string)>
    decreases |s|
  {
    if |s| == 0 then None
    else if s[0] == '"' then Some(("", s[1..]))
    else if s[0] == '\n' || s[0] == '\r' then None
    else if s[0] == '\\' then
      if |s| < 2 then None
      else
        var c :- Unescape(s[1]);
        var t :- ReadString(s[2..]);
        Some(([c] + t.0, t.1))
    else
      var t :- ReadString(s[1..]);
      Some(([s[0]] + t.0, t.1))
  }

  function Unescape(c: char): Option<char> {
    if c == '"' || c == '\\' then Some(c)
    else if c == 'n' then Some('\n')
    else if c == 'r' then Some('\r')
    else None
  }

  /** An escaped string followed by a quote reads back as itself, whatever follows. */
  lemma {:induction false} ReadEscaped(s: string, rest: string)
    ensures ReadString(Escape(s) + ("\"" + rest)) == Some((s, rest))
    decreases |s|
  {
    if s == [] {
      assert Escape(s) + ("\"" + rest) == "\"" + rest;
      assert ("\"" + rest)[1..] == rest;
    } else {
      ReadEscaped(s[1..], rest);
      var tail := Escape(s[1..]) + ("\"" + rest);
      var e := EscapeChar(s[0]);
      assert Escape(s) + ("\"" + rest) == e + tail;
      assert [s[0]] + s[1..] == s;
      if |e| == 2 {
        assert (e + tail)[0] == '\\' && (e + tail)[1] == e[1];
        assert Unescape(e[1]) == Some(s[0]);
        assert (e + tail)[2..] == tail;
      } else {
        assert (e + tail)[0] == s[0];
        assert (e + tail)[1..] == tail;
      }
    }
  }

  // ---------------------------------------------------------------- the JSON event

  const ContentKey: string := "{\"content\":\""
  const DoneKey: string := ",\"done\":"
  const ConversationIdKey: string := ",\"conversationId\":\""
  const MessageIdKey: string := ",\"messageId\":\""

  function BoolText(b: bool): string {
    if b then "true" else "false"
  }

  /** An optional string field: nothing when absent, as `JSON.stringify` omits `undefined`. */
  function OptionalField(key: string, v: Option<string>, rest: string): string {
    match v
    case None => rest
    case Some(x) => key + (Escape(x) + ("\"" + rest))
  }

  /** `JSON.stringify` of an event. */
  function Encode(f: StreamResponse): string {
    ContentKey + (Escape(f.content) + ("\"" + (DoneKey + (BoolText(f.done)
      + OptionalField(ConversationIdKey, f.conversationId,
          OptionalField(MessageIdKey, f.messageId, "}"))))))
  }

  /** The rest of `s` after `prefix`, if `s` starts with it. */
  function Expect(prefix: string, s: string): (r: Option<string>)
    ensures r.Some? <==> prefix <= s
    ensures r.Some? ==> s == prefix + r.value
  {
    if prefix <= s then Some(s[|prefix|..]) else None
  }

  function ReadBool(s: string): Option<(bool, string)> {
    if "true" <= s then Some((true, s[4..]))
    else if "false" <= s then Some((false, s[5..]))
    else None
  }

  /** An optional field: absent if `s` does not start with its key, malformed if its value is. */
  function ReadOptionalField(key: string, s: string): Option<(Option<string>, string)> {
    match Expect(key, s)
    case None => Some((None, s))
    case Some(r) =>
      var t :- ReadString(r);
      Some((Some(t.0), t.1))
  }

  /** The two id fields and the closing brace. */
  function ReadIds(s: string): Option<(Option<string>, Option<string>)> {
    var c :- ReadOptionalField(ConversationIdKey, s);
    var m :- ReadOptionalField(MessageIdKey, c.1);
    if m.1 == "}" then Some((c.0, m.0)) else None
  }

  /** Everything after the content: the `done` flag, then the ids. */
  function ReadFlags(s: string): Option<(bool, Option<string>, Option<string>)> {
    var r :- Expect(DoneKey, s);
    var d :- ReadBool(r);
    var ids :- ReadIds(d.1);
    Some((d.0, ids.0, ids.1))
  }

  /** `JSON.parse` of an event; None stands for the exception a malformed payload raises. */
  function Decode(json: string): Option<StreamResponse> {
    var r :- Expect(ContentKey, json);
    var c :- ReadString(r);
    var flags :- ReadFlags(c.1);
    Some(StreamResponse(c.0, flags.0, flags.1, flags.2))
  }

  lemma ReadBoolText(b: bool, rest: string)
    ensures ReadBool(BoolText(b) + rest) == Some((b, rest))
  {
    var s := BoolText(b) + rest;
    assert BoolText(b) <= s;
    if b {
      assert s[4..] == rest;
    } else {
      assert !("true" <= s) by { assert s[1] == 'a'; }
      assert s[5..] == rest;
    }
  }

  lemma ReadField(key: string, v: Option<string>, rest: string)
    requires |key| >= 3 && key[..2] == ",\""
    requires rest == "}" || (|rest| >= 3 && rest[..2] == ",\"" && rest[2] != key[2])
    ensures ReadOptionalField(key, OptionalField(key, v, rest)) == Some((v, rest))
  {
    match v
    case None =>
      assert !(key <= rest);
    case Some(x) =>
      ReadEscaped(x, rest);
  }

  lemma ReadIdsFields(conversationId: Option<string>, messageId: Option<string>)
    ensures ReadIds(OptionalField(ConversationIdKey, conversationId, OptionalField(MessageIdKey, messageId, "}")))
      == Some((conversationId, messageId))
  {
    var mid := OptionalField(MessageIdKey, messageId, "}");
    ReadField(MessageIdKey, messageId, "}");
    assert mid == "}" || (|mid| >= 3 && mid[..2] == ",\"" && mid[2] == 'm');
    ReadField(ConversationIdKey, conversationId, mid);
  }

  lemma ReadFlagsFields(done: bool, conversationId: Option<string>, messageId: Option<string>)
    ensures ReadFlags(DoneKey + (BoolText(done)
      + OptionalField(ConversationIdKey, conversationId, OptionalField(MessageIdKey, messageId, "}"))))
      == Some((done, conversationId, messageId))
  {
    var ids := OptionalField(ConversationIdKey, conversationId, OptionalField(MessageIdKey, messageId, "}"));
    assert Expect(DoneKey, DoneKey + (BoolText(done) + ids)) == Some(BoolText(done) + ids);
    ReadBoolText(done, ids);
    ReadIdsFields(conversationId, messageId);
  }

  /** Every event decodes back to itself. */
  lemma DecodeEncode(f: StreamResponse)
    ensures Decode(Encode(f)) == Some(f)
  {
    var flags := DoneKey + (BoolText(f.done)
      + OptionalField(ConversationIdKey, f.conversationId, OptionalField(MessageIdKey, f.messageId, "}")));
    var r := Escape(f.content) + ("\"" + flags);
    assert Encode(f) == ContentKey + r;
    assert Expect(ContentKey, Encode(f)) == Some(r);
    ReadEscaped(f.content, flags);
    ReadFlagsFields(f.done, f.conversationId, f.messageId);
  }

  lemma OptionalFieldNoNewline(key: string, v: Option<string>, rest: string)
    requires '\n' !in key && '\n' !in rest
    ensures '\n' !in OptionalField(key, v, rest)
  {
    if v.Some? {
      assert '\n' !in Escape(v.value);
    }
  }

  /** An encoded event is a single line: what makes the line framing work. */
  lemma EncodeNoNewline(f: StreamResponse)
    ensures '\n' !in Encode(f)
    ensures Encode(f)[0] == '{'
  {
    assert '\n' !in ContentKey && '\n' !in DoneKey && '\n' !in BoolText(f.done);
    assert '\n' !in "}" && '\n' !in "\"";
    assert '\n' !in ConversationIdKey && '\n' !in MessageIdKey;
    OptionalFieldNoNewline(MessageIdKey, f.messageId, "}");
    var mid := OptionalField(MessageIdKey, f.messageId, "}");
    OptionalFieldNoNewline(ConversationIdKey, f.conversationId, mid);
  }

  // ---------------------------------------------------------------- framing

  const DataPrefix: string := "data: "

  /** The bytes one event occupies on the wire: `data: <json>\n\n`. */
  function EventText(f: StreamResponse): string {
    DataPrefix + Encode(f) + "\n\n"
  }

  /** The bytes a sequence of events occupies, in order. */
  function Body(events: seq<StreamResponse>): string {
    if events == [] then "" else Body(events[..|events| - 1]) + EventText(events[|events| - 1])
  }

  /** `s.split('\n')`: the maximal newline-free pieces, one more than the newlines in `s`. */
  function Lines(s: string): (r: seq<string>)
    ensures |r| >= 1
    ensures forall k :: 0 <= k < |r| ==> '\n' !in r[k]
    ensures |r| == 1 ==> r == [s]
    decreases |s|
  {
    if |s| == 0 then [""]
    else if s[0] == '\n' then [""] + Lines(s[1..])
    else
      var t := Lines(s[1..]);
      assert s == [s[0]] + s[1..];
      [[s[0]] + t[0]] + t[1..]
  }

  /** Joining the pieces with '\n' gives the string back. */
  function Join(lines: seq<string>): string
    requires |lines| >= 1
  {
    if |lines| == 1 then lines[0] else lines[0] + "\n" + Join(lines[1..])
  }

  lemma {:induction false} JoinLines(s: string)
    ensures Join(Lines(s)) == s
    decreases |s|
  {
    if |s| > 0 {
      JoinLines(s[1..]);
      var t := Lines(s[1..]);
      if s[0] == '\n' {
        assert ([""] + t)[1..] == t;
      } else if |t| == 1 {
        assert s == [s[0]] + s[1..];
      } else {
        assert ([[s[0]] + t[0]] + t[1..])[1..] == t[1..];
        assert Join(t) == t[0] + "\n" + Join(t[1..]);
      }
    }
  }

  /** A newline-free piece followed by '\n' is split off as one line. */
  lemma {:induction false} LinesOfLine(x: string, rest: string)
    requires '\n' !in x
    ensures Lines(x + "\n" + rest) == [x] + Lines(rest)
    decreases |x|
  {
    if x == [] {
      assert (x + "\n" + rest)[1..] == rest;
    } else {
      LinesOfLine(x[1..], rest);
      assert (x + "\n" + rest)[1..] == x[1..] + "\n" + rest;
      assert [x[0]] + x[1..] == x;
    }
  }

  /**
   * Splitting a concatenation at a point just after a '\n' splits each half: the empty
   * last piece of the first half disappears.
   */
  lemma {:induction false} LinesAppend(a: string, b: string)
    requires |a| > 0 && a[|a| - 1] == '\n'
    ensures Lines(a)[|Lines(a)| - 1] == ""
    ensures Lines(a + b) == Lines(a)[..|Lines(a)| - 1] + Lines(b)
    decreases |a|
  {
    var ab := a + b;
    assert ab[0] == a[0];
    if |a| == 1 {
      assert ab[1..] == b && a[1..] == "";
      assert Lines(a) == [""] + Lines("");
    } else {
      LinesAppend(a[1..], b);
      var l := Lines(a[1..]);
      assert ab[1..] == a[1..] + b;
      var t := Lines(ab[1..]);
      if a[0] == '\n' {
        DropLastOfCons("", l);
      } else {
        assert |l| >= 2 by {
          assert a[1..][|a| - 2] == '\n';
        }
        assert Lines(a) == [[a[0]] + l[0]] + l[1..];
        assert Lines(ab) == [[a[0]] + t[0]] + t[1..];
        DropLastOfCons([a[0]] + l[0], l[1..]);
        assert t[0] == l[0];
        assert t[1..] == l[1..|l| - 1] + Lines(b);
      }
    }
  }

  lemma DropLastOfCons(x: string, l: seq<string>)
    requires |l| >= 1
    ensures ([x] + l)[..|l|] == [x] + l[..|l| - 1]
  {
  }

  /** The pieces of one event: its `data:` line, the blank line, and what follows. */
  lemma LinesOfEvent(f: StreamResponse, rest: string)
    ensures Lines(EventText(f) + rest) == [DataPrefix + Encode(f), ""] + Lines(rest)
  {
    EncodeNoNewline(f);
    assert '\n' !in DataPrefix;
    assert EventText(f) + rest == (DataPrefix + Encode(f)) + "\n" + ("\n" + rest);
    LinesOfLine(DataPrefix + Encode(f), "\n" + rest);
    LinesOfLine("", rest);
  }
}
