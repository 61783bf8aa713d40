/** The synthetic QR payload and its two textual forms.

    The interceptor answers a diverted request with one fixed object,
    `{qr_string: 'redirected', message: 'Redirected to custom QR generator'}`.
    The fetch path hands out a hand-written text for it (with a space after
    every colon and comma); the XHR path hands out `JSON.stringify` of it
    (no whitespace at all). This module defines both, a reference decoder for
    flat JSON objects whose values are strings, and proves that the two texts
    differ as strings yet decode to the same object. */
module Json {
  import opened Wrappers
  import opened Strings

  /** One property of a JSON object whose value is a string. */
  datatype Member = Member(key: string, value: string)

  /** A JSON object whose property values are all strings, in insertion order. */
  type StringObject = seq<Member>

  /** The payload's `message` value. */
  const Message := "Redirected to custom QR generator"

  /** The object both interception paths deliver. */
  const Payload: StringObject :=
    [Member("qr_string", "redirected"), Member("message", Message)]

  /** The literal the synthetic fetch response's `text()` resolves to,
      `{"qr_string": "redirected", "message": "Redirected to custom QR generator"}`
      (written around `Message` so that it can be compared piece by piece). */
  const FetchText: string :=
    "{\"qr_string\": \"redirected\", " + "\"message\": \"" + Message + "\"}"

  /** The literal `JSON.stringify(Payload)` evaluates to (proved in
      `StringifiedPayload`): the same members with no whitespace. */
  const CompactText: string :=
    "{\"qr_string\":\"redirected\"," + "\"message\":\"" + Message + "\"}"

  // ---------------------------------------------------------------------------
  // Serialisation: JSON.stringify (QuoteJSONString of ECMA-262) on string values

  /** Lower-case hexadecimal digit of `d`. */
  function HexDigit(d: nat): char
    requires d < 16
  {
    if d < 10 then ('0' as int + d) as char else ('a' as int + d - 10) as char
  }

  /** How `JSON.stringify` writes one character inside a string literal:
      `"` and `\` and the five short control escapes get a backslash form,
      other control characters a `\u00xx` escape, everything else itself. */
  function EscapeChar(c: char): string {
    if c == '"' then "\\\""
    else if c == '\\' then "\\\\"
    else if c == '\U{8}' then "\\b"
    else if c == '\t' then "\\t"
    else if c == '\n' then "\\n"
    else if c == '\U{C}' then "\\f"
    else if c == '\r' then "\\r"
    else if c < ' ' then "\\u00" + [HexDigit(c as int / 16), HexDigit(c as int % 16)]
    else [c]
  }

  function Escape(s: string): string {
    if s == [] then [] else EscapeChar(s[0]) + Escape(s[1..])
  }

  /** A JSON string literal for `s`. */
  function Quote(s: string): string {
    "\"" + Escape(s) + "\""
  }

  /** The members of `o`, each written `"key":<gap>"value"` and separated by
      `,<gap>`. */
  function RenderMembers(o: StringObject, gap: string): string {
    if o == [] then ""
    else
      Quote(o[0].key) + ":" + gap + Quote(o[0].value)
      + (if |o| == 1 then "" else "," + gap + RenderMembers(o[1..], gap))
  }

  /** `o` as a JSON object text with `gap` after every colon and comma. */
  function Render(o: StringObject, gap: string): string {
    "{" + RenderMembers(o, gap) + "}"
  }

  /** `JSON.stringify(o)`: no whitespace between tokens, members in sequence
      order. This is the browser's text for objects whose keys are distinct
      and not array indices (the payload's keys are). */
  function Stringify(o: StringObject): string {
    Render(o, "")
  }

  // ---------------------------------------------------------------------------
  // Decoding: a reference reader for flat JSON objects with string values

  predicate IsWhitespace(c: char) {
    c == ' ' || c == '\t' || c == '\n' || c == '\r'
  }

  predicate AllWhitespace(s: string) {
    forall i :: 0 <= i < |s| ==> IsWhitespace(s[i])
  }

  function SkipWhitespace(s: string): (r: string)
    ensures |r| <= |s|
  {
    if s != [] && IsWhitespace(s[0]) then SkipWhitespace(s[1..]) else s
  }

  function HexValue(c: char): (r: Option<nat>)
    ensures r.Some? ==> r.value < 16
  {
    if '0' <= c <= '9' then Some(c as int - '0' as int)
    else if 'a' <= c <= 'f' then Some(c as int - 'a' as int + 10)
    else if 'A' <= c <= 'F' then Some(c as int - 'A' as int + 10)
    else None
  }

  /** The character an escape sequence stands for, given the text after the
      backslash, and how many characters of that text the escape uses. */
  function DecodeEscape(s: string): (r: Option<(char, nat)>)
    ensures r.Some? ==> 1 <= r.value.1 <= |s|
  {
    if s == [] then None
    else if s[0] == '"' then Some(('"', 1))
    else if s[0] == '\\' then Some(('\\', 1))
    else if s[0] == '/' then Some(('/', 1))
    else if s[0] == 'b' then Some(('\U{8}', 1))
    else if s[0] == 't' then Some(('\t', 1))
    else if s[0] == 'n' then Some(('\n', 1))
    else if s[0] == 'f' then Some(('\U{C}', 1))
    else if s[0] == 'r' then Some(('\r', 1))
    else if s[0] == 'u' && |s| >= 5 then
      match (HexValue(s[1]), HexValue(s[2]), HexValue(s[3]), HexValue(s[4]))
      case (Some(a), Some(b), Some(c), Some(d)) =>
        var code := ((a * 16 + b) * 16 + c) * 16 + d;
        if 0xD800 <= code < 0xE000 then None else Some((code as char, 5))
      case _ => None
    else None
  }

  /** Reads the body of a string literal whose opening quote is already
      consumed: the decoded characters and the text after the closing quote. */
  function ReadString(s: string): (r: Option<(string, string)>)
    ensures r.Some? ==> |r.value.1| < |s|
    decreases |s|
  {
    if s == [] then None
    else if s[0] == '"' then Some(([], s[1..]))
    else if s[0] == '\\' then
      match DecodeEscape(s[1..])
      case None => None
      case Some((c, n)) =>
        match ReadString(s[1 + n..])
        case None => None
        case Some((t, rest)) => Some(([c] + t, rest))
    else if s[0] < ' ' then None
    else
      match ReadString(s[1..])
      case None => None
      case Some((t, rest)) => Some(([s[0]] + t, rest))
  }

  /** Reads `: "value"` (with whitespace around the colon) after a key: the
      value and the text after its closing quote. */
  function ReadColonValue(s: string): (r: Option<(string, string)>)
    ensures r.Some? ==> |r.value.1| < |s|
  {
    var r2 := SkipWhitespace(s);
    if r2 == [] || r2[0] != ':' then None
    else
      var r3 := SkipWhitespace(r2[1..]);
      if r3 == [] || r3[0] != '"' then None else ReadString(r3[1..])
  }

  /** Reads one `"key" : "value"` pair starting at the key's opening quote. */
  function ReadMember(s: string): (r: Option<(Member, string)>)
    ensures r.Some? ==> |r.value.1| < |s|
  {
    if s == [] || s[0] != '"' then None
    else
      match ReadString(s[1..])
      case None => None
      case Some((key, r1)) =>
        match ReadColonValue(r1)
        case None => None
        case Some((value, r4)) => Some((Member(key, value), r4))
  }

  /** Reads pairs separated by commas, starting at a key's opening quote,
      through the closing brace; returns the members and the text after the
      brace. */
  function ParseMembers(s: string): Option<(StringObject, string)>
    decreases |s|
  {
    match ReadMember(s)
    case None => None
    case Some((m, r)) =>
      var r5 := SkipWhitespace(r);
      if r5 == [] then None
      else if r5[0] == '}' then Some(([m], r5[1..]))
      else if r5[0] == ',' then
        match ParseMembers(SkipWhitespace(r5[1..]))
        case None => None
        case Some((more, rest)) => Some(([m] + more, rest))
      else None
  }

  /** Decodes a whole text as one flat JSON object with string values. */
  function Parse(s: string): Option<StringObject> {
    var r1 := SkipWhitespace(s);
    if r1 == [] || r1[0] != '{' then None
    else
      var r2 := SkipWhitespace(r1[1..]);
      if r2 != [] && r2[0] == '}' then
        (if SkipWhitespace(r2[1..]) == [] then Some([]) else None)
      else
        match ParseMembers(r2)
        case None => None
        case Some((o, rest)) => if SkipWhitespace(rest) == [] then Some(o) else None
  }

  // ---------------------------------------------------------------------------
  // Round trip

  lemma {:induction false} SkipGap(gap: string, x: string)
    requires AllWhitespace(gap)
    requires x == [] || !IsWhitespace(x[0])
    ensures SkipWhitespace(gap + x) == x
    decreases |gap|
  {
    if gap == [] {
      assert gap + x == x;
    } else {
      assert (gap + x)[1..] == gap[1..] + x;
      SkipGap(gap[1..], x);
    }
  }

  lemma HexDigitValue(d: nat)
    requires d < 16
    ensures HexValue(HexDigit(d)) == Some(d)
  {
  }

  /** Reading back a control character written as `\u00xx`. */
  lemma ReadUnicodeEscape(c: char, tail: string)
    requires c < ' ' && c != '\U{8}' && c != '\t' && c != '\n' && c != '\U{C}' && c != '\r'
    ensures ReadString(EscapeChar(c) + tail) ==
      match ReadString(tail)
      case None => None
      case Some((t, rest)) => Some(([c] + t, rest))
  {
    var e := EscapeChar(c);
    var hi, lo := c as int / 16, c as int % 16;
    HexDigitValue(hi);
    HexDigitValue(lo);
    assert (e + tail)[1..] == "u00" + [HexDigit(hi), HexDigit(lo)] + tail;
    assert (e + tail)[6..] == tail;
  }

  /** Reading back one escaped character. */
  lemma ReadEscapedChar(c: char, tail: string)
    ensures ReadString(EscapeChar(c) + tail) ==
      match ReadString(tail)
      case None => None
      case Some((t, rest)) => Some(([c] + t, rest))
  {
    var e := EscapeChar(c);
    if c < ' ' && c != '\U{8}' && c != '\t' && c != '\n' && c != '\U{C}' && c != '\r' {
      ReadUnicodeEscape(c, tail);
    } else if c < ' ' || c == '"' || c == '\\' {
      assert (e + tail)[1..] == [e[1]] + tail;
      assert (e + tail)[2..] == tail;
    } else {
      assert (e + tail)[1..] == tail;
    }
  }

  /** A string literal written by `Quote` reads back as the string itself. */
  lemma {:induction false} ReadQuoted(t: string, rest: string)
    ensures ReadString(Escape(t) + "\"" + rest) == Some((t, rest))
    decreases |t|
  {
    if t == [] {
      assert Escape(t) + "\"" + rest == "\"" + rest;
    } else {
      assert Escape(t) + "\"" + rest == EscapeChar(t[0]) + (Escape(t[1..]) + "\"" + rest);
      ReadQuoted(t[1..], rest);
      ReadEscapedChar(t[0], Escape(t[1..]) + "\"" + rest);
      assert [t[0]] + t[1..] == t;
    }
  }

  lemma ReadRenderedValue(gap: string, v: string, tail: string)
    requires AllWhitespace(gap)
    ensures ReadColonValue(":" + gap + Quote(v) + tail) == Some((v, tail))
  {
    var afterValue := Escape(v) + "\"" + tail;
    var s := ":" + gap + Quote(v) + tail;
    assert s == ":" + (gap + ("\"" + afterValue));
    SkipGap([], s);
    assert [] + s == s;
    SkipGap(gap, "\"" + afterValue);
    assert ("\"" + afterValue)[1..] == afterValue;
    ReadQuoted(v, tail);
  }

  lemma ReadRenderedMember(m: Member, gap: string, tail: string)
    requires AllWhitespace(gap)
    ensures ReadMember(Quote(m.key) + ":" + gap + Quote(m.value) + tail) == Some((m, tail))
  {
    var afterKey := ":" + gap + Quote(m.value) + tail;
    var body := Escape(m.key) + "\"" + afterKey;
    var s := Quote(m.key) + ":" + gap + Quote(m.value) + tail;
    assert s == "\"" + body;
    assert s[0] == '"' && s[1..] == body;
    ReadQuoted(m.key, afterKey);
    ReadRenderedValue(gap, m.value, tail);
  }

  /** `ParseMembers` after a member followed directly by `}` or `,`. */
  lemma ParseAfterMember(s: string, m: Member, tail: string)
    requires ReadMember(s) == Some((m, tail))
    requires tail != [] && (tail[0] == '}' || tail[0] == ',')
    ensures ParseMembers(s) ==
      if tail[0] == '}' then Some(([m], tail[1..]))
      else
        match ParseMembers(SkipWhitespace(tail[1..]))
        case None => None
        case Some((more, rest)) => Some(([m] + more, rest))
  {
    SkipGap([], tail);
    assert [] + tail == tail;
  }

  lemma ParseRenderedLast(m: Member, gap: string, rest: string)
    requires AllWhitespace(gap)
    ensures ParseMembers(RenderMembers([m], gap) + "}" + rest) == Some(([m], rest))
  {
    var head := Quote(m.key) + ":" + gap + Quote(m.value);
    var s := RenderMembers([m], gap) + "}" + rest;
    var tail := "}" + rest;
    assert RenderMembers([m], gap) == head + "" == head;
    assert s == head + tail;
    ReadRenderedMember(m, gap, tail);
    ParseAfterMember(s, m, tail);
    assert tail[1..] == rest;
  }

  lemma ParseRenderedCons(o: StringObject, gap: string, rest: string)
    requires |o| >= 2
    requires AllWhitespace(gap)
    ensures ParseMembers(RenderMembers(o, gap) + "}" + rest) ==
      match ParseMembers(RenderMembers(o[1..], gap) + "}" + rest)
      case None => None
      case Some((more, r)) => Some(([o[0]] + more, r))
  {
    var head := Quote(o[0].key) + ":" + gap + Quote(o[0].value);
    var more := RenderMembers(o[1..], gap);
    var inner := more + "}" + rest;
    var tail := "," + (gap + inner);
    var s := RenderMembers(o, gap) + "}" + rest;
    ConsSplit(o, gap, rest);
    ReadRenderedMember(o[0], gap, tail);
    ParseAfterMember(s, o[0], tail);
    assert tail[1..] == gap + inner;
    RenderedMembersStart(o[1..], gap);
    SkipGap(gap, inner);
  }

  /** The text of two or more rendered members: the first member, then the
      comma, the gap and the rest. */
  lemma ConsSplit(o: StringObject, gap: string, rest: string)
    requires |o| >= 2
    ensures RenderMembers(o, gap) + "}" + rest ==
      (Quote(o[0].key) + ":" + gap + Quote(o[0].value))
      + ("," + (gap + (RenderMembers(o[1..], gap) + "}" + rest)))
  {
    var head := Quote(o[0].key) + ":" + gap + Quote(o[0].value);
    var more := RenderMembers(o[1..], gap);
    assert RenderMembers(o, gap) == head + ("," + gap + more);
    Reassociate(head, gap, more, rest);
  }

  lemma Reassociate(head: string, gap: string, more: string, rest: string)
    ensures head + ("," + gap + more) + "}" + rest == head + ("," + (gap + (more + "}" + rest)))
  {
  }

  lemma RenderedMembersStart(o: StringObject, gap: string)
    requires o != []
    ensures RenderMembers(o, gap) != [] && RenderMembers(o, gap)[0] == '"'
  {
    var q := Quote(o[0].key);
    assert q[0] == '"';
    assert RenderMembers(o, gap) == q + (":" + gap + Quote(o[0].value)
      + (if |o| == 1 then "" else "," + gap + RenderMembers(o[1..], gap)));
  }

  lemma {:induction false} ParseRenderedMembers(o: StringObject, gap: string, rest: string)
    requires o != []
    requires AllWhitespace(gap)
    ensures ParseMembers(RenderMembers(o, gap) + "}" + rest) == Some((o, rest))
    decreases |o|
  {
    if |o| == 1 {
      ParseRenderedLast(o[0], gap, rest);
      assert [o[0]] == o;
    } else {
      ParseRenderedCons(o, gap, rest);
      ParseRenderedMembers(o[1..], gap, rest);
      assert [o[0]] + o[1..] == o;
    }
  }

  /** A rendered object's text: no leading whitespace, the opening brace,
      then the members and the closing brace. */
  lemma RenderOpening(o: StringObject, gap: string)
    ensures Render(o, gap) != [] && Render(o, gap)[0] == '{'
    ensures Render(o, gap)[1..] == RenderMembers(o, gap) + "}"
    ensures SkipWhitespace(Render(o, gap)) == Render(o, gap)
  {
    var s := Render(o, gap);
    assert s == "{" + (RenderMembers(o, gap) + "}");
    SkipGap([], s);
    assert [] + s == s;
  }

  /** The members and closing brace of a non-empty rendered object parse to
      the object with nothing left over. */
  lemma ParseRenderedBody(o: StringObject, gap: string)
    requires o != [] && AllWhitespace(gap)
    ensures var body := RenderMembers(o, gap) + "}";
      SkipWhitespace(body) == body && body[0] == '"' && ParseMembers(body) == Some((o, []))
  {
    var body := RenderMembers(o, gap) + "}";
    ParseRenderedMembers(o, gap, []);
    assert body + [] == body;
    RenderedMembersStart(o, gap);
    SkipGap([], body);
    assert [] + body == body;
  }

  /** Decoding a rendered object, with any whitespace gaps, yields the object. */
  lemma ParseRender(o: StringObject, gap: string)
    requires AllWhitespace(gap)
    ensures Parse(Render(o, gap)) == Some(o)
  {
    RenderOpening(o, gap);
    if o == [] {
      var body := RenderMembers(o, gap) + "}";
      assert body == "}";
      SkipGap([], body);
      assert [] + body == body;
      SkipGap([], body[1..]);
    } else {
      ParseRenderedBody(o, gap);
    }
  }

  /** `Parse(Stringify(o))` gives back `o`: the same round trip as
      `JSON.parse(JSON.stringify(o))` for objects whose keys are distinct and
      not array indices. */
  lemma ParseStringify(o: StringObject)
    ensures Parse(Stringify(o)) == Some(o)
  {
    ParseRender(o, "");
  }

  // ---------------------------------------------------------------------------
  // The two texts of the payload

  /** A character `JSON.stringify` writes as itself. */
  predicate IsPlain(c: char) {
    c >= ' ' && c != '"' && c != '\\'
  }

  predicate AllPlain(s: string) {
    forall i :: 0 <= i < |s| ==> IsPlain(s[i])
  }

  /** A string of plain characters is its own escape. */
  lemma {:induction false} EscapePlain(s: string)
    requires AllPlain(s)
    ensures Escape(s) == s
    decreases |s|
  {
    if s != [] {
      EscapePlain(s[1..]);
      assert [s[0]] + s[1..] == s;
    }
  }

  lemma QuotePlain(s: string)
    requires AllPlain(s)
    ensures Quote(s) == "\"" + s + "\""
  {
    EscapePlain(s);
  }

  /** Every string in the payload is plain. */
  lemma PayloadPlain()
    ensures AllPlain("qr_string") && AllPlain("redirected") && AllPlain("message")
  {
  }

  lemma MessagePlain()
    ensures AllPlain(Message)
  {
  }

  /** The spaced literal around any message, token by token. */
  lemma SpacedText(m: string, qa: string, qb: string, qc: string, qd: string)
    requires qa == "\"" + "qr_string" + "\"" && qb == "\"" + "redirected" + "\""
    requires qc == "\"" + "message" + "\"" && qd == "\"" + m + "\""
    ensures "{\"qr_string\": \"redirected\", " + "\"message\": \"" + m + "\"}" ==
      "{" + qa + ":" + " " + qb + "," + " " + qc + ":" + " " + qd + "}"
  {
    assert "{\"qr_string\": \"redirected\", " == "{" + qa + ":" + " " + qb + "," + " ";
    assert "\"message\": \"" == qc + ":" + " " + "\"";
  }

  /** `Render` of a two-member object, token by token. */
  lemma RenderPair(a: string, b: string, c: string, d: string, gap: string)
    ensures Render([Member(a, b), Member(c, d)], gap) ==
      "{" + Quote(a) + ":" + gap + Quote(b) + "," + gap + Quote(c) + ":" + gap + Quote(d) + "}"
  {
    var o := [Member(a, b), Member(c, d)];
    assert o[1..] == [Member(c, d)];
    assert RenderMembers([Member(c, d)], gap) == Quote(c) + ":" + gap + Quote(d) + "";
    Regroup(Quote(a), Quote(b), Quote(c), Quote(d), gap);
  }

  /** Re-associating the tokens of a rendered pair. */
  lemma Regroup(qa: string, qb: string, qc: string, qd: string, gap: string)
    ensures "{" + (qa + ":" + gap + qb + ("," + gap + (qc + ":" + gap + qd + ""))) + "}"
      == "{" + qa + ":" + gap + qb + "," + gap + qc + ":" + gap + qd + "}"
  {
  }

  /** A two-member object of plain strings, rendered with a gap. */
  lemma RenderPlainPair(a: string, b: string, c: string, d: string, gap: string)
    requires AllPlain(a) && AllPlain(b) && AllPlain(c) && AllPlain(d)
    ensures Render([Member(a, b), Member(c, d)], gap) ==
      "{" + ("\"" + a + "\"") + ":" + gap + ("\"" + b + "\"") + "," + gap
      + ("\"" + c + "\"") + ":" + gap + ("\"" + d + "\"") + "}"
  {
    RenderPair(a, b, c, d, gap);
    QuotePlain(a);
    QuotePlain(b);
    QuotePlain(c);
    QuotePlain(d);
  }

  /** The payload rendered with `gap` after each colon and comma, token by
      token. */
  lemma PayloadTokens(gap: string)
    ensures Render(Payload, gap) ==
      "{" + ("\"" + "qr_string" + "\"") + ":" + gap + ("\"" + "redirected" + "\"") + "," + gap
      + ("\"" + "message" + "\"") + ":" + gap + ("\"" + Message + "\"") + "}"
  {
    PayloadPlain();
    MessagePlain();
    RenderPlainPair("qr_string", "redirected", "message", Message, gap);
  }

  /** The fetch text, token by token. */
  lemma FetchTextTokens()
    ensures FetchText ==
      "{" + ("\"" + "qr_string" + "\"") + ":" + " " + ("\"" + "redirected" + "\"") + "," + " "
      + ("\"" + "message" + "\"") + ":" + " " + ("\"" + Message + "\"") + "}"
  {
    SpacedText(Message, "\"" + "qr_string" + "\"", "\"" + "redirected" + "\"",
      "\"" + "message" + "\"", "\"" + Message + "\"");
  }

  /** The fetch path's text is the payload rendered with one space after each
      colon and comma. */
  lemma FetchTextIsSpacedPayload()
    ensures FetchText == Render(Payload, " ")
  {
    PayloadTokens(" ");
    FetchTextTokens();
  }

  /** The compact literal around any message, token by token. */
  lemma CompactTokens(m: string, qa: string, qb: string, qc: string, qd: string)
    requires qa == "\"" + "qr_string" + "\"" && qb == "\"" + "redirected" + "\""
    requires qc == "\"" + "message" + "\"" && qd == "\"" + m + "\""
    ensures "{\"qr_string\":\"redirected\"," + "\"message\":\"" + m + "\"}" ==
      "{" + qa + ":" + "" + qb + "," + "" + qc + ":" + "" + qd + "}"
  {
    assert "{\"qr_string\":\"redirected\"," == "{" + qa + ":" + "" + qb + "," + "";
    assert "\"message\":\"" == qc + ":" + "" + "\"";
  }

  /** `JSON.stringify(Payload)` is `CompactText`. */
  lemma StringifiedPayload()
    ensures Stringify(Payload) == CompactText
  {
    PayloadTokens("");
    CompactTokens(Message, "\"" + "qr_string" + "\"", "\"" + "redirected" + "\"",
      "\"" + "message" + "\"", "\"" + Message + "\"");
  }

  lemma FetchTextDecodes()
    ensures Parse(FetchText) == Some(Payload)
  {
    FetchTextIsSpacedPayload();
    ParseRender(Payload, " ");
  }

  lemma CompactTextDecodes()
    ensures Parse(CompactText) == Some(Payload)
  {
    StringifiedPayload();
    ParseStringify(Payload);
  }

  /** Both texts the interceptor hands out decode to the payload. */
  lemma PayloadTextsDecode()
    ensures Parse(FetchText) == Some(Payload)
    ensures Parse(CompactText) == Some(Payload)
  {
    FetchTextDecodes();
    CompactTextDecodes();
  }

  /** In the payload's token form, the character after the first colon is the
      gap's first character, or the value's opening quote when there is no gap. */
  lemma CharAfterFirstColon(gap: string, b: string, c: string, m: string)
    ensures var t := "{" + ("\"" + "qr_string" + "\"") + ":" + gap + ("\"" + b + "\"") + "," + gap
      + ("\"" + c + "\"") + ":" + gap + ("\"" + m + "\"") + "}";
      |t| > 13 && t[12] == ':' && t[13] == (if gap == [] then '"' else gap[0])
  {
  }

  /** The two texts are different strings: right after the first colon the
      fetch text has a space where the `JSON.stringify` text has the value's
      opening quote. */
  lemma PayloadTextsDiffer()
    ensures |FetchText| > 13 && FetchText[12] == ':' && FetchText[13] == ' '
    ensures |CompactText| > 13 && CompactText[12] == ':' && CompactText[13] == '"'
    ensures FetchText != CompactText
  {
    FetchTextTokens();
    PayloadTokens("");
    StringifiedPayload();
    CharAfterFirstColon(" ", "redirected", "message", Message);
    CharAfterFirstColon("", "redirected", "message", Message);
  }
}
