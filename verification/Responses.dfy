/**
  The echo response that process_request formats, and a reader of HTTP/1.1
  messages framed by Content-Length (section 6.3 of RFC 9112).
 */
module Responses {
  import opened Basics

  const BUFFER_SIZE: nat := 4096
  const BODY_SIZE: nat := 1024

  const CRLF: string := "\r\n"
  const STATUS: string := "HTTP/1.1 200 OK"
  const TYPE_FIELD: string := "Content-Type: text/plain"
  const LENGTH_NAME: string := "Content-Length: "
  const CONNECTION_FIELD: string := "Connection: keep-alive"
  const ECHO: string := "Echo: "

  // ---- Decimal numbers ------------------------------------------------------

  function Digit(d: nat): char
    requires d < 10
  {
    "0123456789"[d]
  }

  /** printf's %d for a non-negative argument. */
  function Decimal(n: nat): string {
    if n < 10 then [Digit(n)] else Decimal(n / 10) + [Digit(n % 10)]
  }

  predicate IsDigit(c: char) { '0' <= c <= '9' }

  function ParseDecimal(s: string): nat
    requires forall k | 0 <= k < |s| :: IsDigit(s[k])
  {
    if s == [] then 0
    else
      assert IsDigit(s[|s| - 1]);
      10 * ParseDecimal(s[..|s| - 1]) + (s[|s| - 1] as int - '0' as int)
  }

  lemma {:induction false} DecimalRoundTrip(n: nat)
    ensures |Decimal(n)| > 0
    ensures forall k | 0 <= k < |Decimal(n)| :: IsDigit(Decimal(n)[k])
    ensures ParseDecimal(Decimal(n)) == n
  {
    if n >= 10 {
      DecimalRoundTrip(n / 10);
      assert Decimal(n)[..|Decimal(n)| - 1] == Decimal(n / 10);
    } else {
      assert Decimal(n)[..0] == [];
    }
  }

  lemma DecimalLength(n: nat)
    requires n < 10000
    ensures 1 <= |Decimal(n)| <= 4
  {
    if n >= 10 {
      DecimalLength(n / 10);
      if n >= 1000 {
        assert n / 10 / 10 / 10 < 10;
        assert |Decimal(n / 10)| == 1 + |Decimal(n / 10 / 10)| == 2 + |Decimal(n / 10 / 10 / 10)|;
      } else if n >= 100 {
        assert |Decimal(n / 10)| == 1 + |Decimal(n / 10 / 10)|;
      }
    }
  }

  // ---- Formatting -----------------------------------------------------------

  /** The body the client is meant to receive. */
  function EchoBody(payload: string): string { ECHO + UpToNul(payload) }

  function Head(length: nat): string {
    STATUS + CRLF + TYPE_FIELD + CRLF + LENGTH_NAME + Decimal(length) + CRLF + CONNECTION_FIELD + CRLF + CRLF
  }

  /** The response text: the declared length is snprintf's result, the body is what fitted. */
  function Format(payload: string): string {
    Head(|EchoBody(payload)|) + Clip(EchoBody(payload), BODY_SIZE)
  }

  /** Every response to a read of at most 4096 bytes fits in 1114 bytes, so it is always installed. */
  lemma FormatFits(payload: string)
    requires |payload| <= BUFFER_SIZE
    ensures 0 < |Format(payload)| <= 1114 < BUFFER_SIZE
  {
    DecimalLength(|EchoBody(payload)|);
  }

  /**
    The text of a response: fixed header lines, a decimal length, and as a body the
    beginning of "Echo: " and the payload up to its first NUL, cut to 1023 characters.
    The length is that of the body before the cut.
   */
  lemma ResponseText(payload: string) returns (digits: string, text: string, body: string)
    ensures Format(payload)
            == "HTTP/1.1 200 OK" + "\r\n" + "Content-Type: text/plain" + "\r\n" + "Content-Length: " + digits + "\r\n"
               + "Connection: keep-alive" + "\r\n" + "\r\n" + body
    ensures (forall k | 0 <= k < |digits| :: IsDigit(digits[k])) && ParseDecimal(digits) == |"Echo: " + text|
    ensures text <= payload && '\0' !in text && (|text| == |payload| || payload[|text|] == '\0')
    ensures body <= "Echo: " + text && |body| <= 1023 && (|body| == 1023 || body == "Echo: " + text)
  {
    text := UpToNul(payload);
    digits := Decimal(|EchoBody(payload)|);
    body := Clip(EchoBody(payload), BODY_SIZE);
    DecimalRoundTrip(|EchoBody(payload)|);
  }

  // ---- Reading --------------------------------------------------------------

  /** One line and what follows its CRLF. */
  datatype Line = Line(text: string, rest: string)

  function TakeLine(s: string): Option<Line> {
    if |s| < 2 then None
    else if s[..2] == CRLF then Some(Line([], s[2..]))
    else
      match TakeLine(s[1..])
      case None => None
      case Some(l) => Some(Line([s[0]] + l.text, l.rest))
  }

  lemma {:induction false} TakeLineShrinks(s: string)
    ensures TakeLine(s).Some? ==> |TakeLine(s).value.rest| + |TakeLine(s).value.text| + 2 == |s|
  {
    if |s| >= 2 && s[..2] != CRLF {
      TakeLineShrinks(s[1..]);
    }
  }

  const FIELD_NAME: string := "Content-Length:"

  /** Field names are case-insensitive (section 5.1 of RFC 9110). */
  function Lower(c: char): char {
    if 'A' <= c <= 'Z' then (c as int + 32) as char else c
  }

  predicate NameMatches(line: string, name: string) {
    |line| >= |name| && forall k | 0 <= k < |name| :: Lower(line[k]) == Lower(name[k])
  }

  function SkipBlanks(s: string): string {
    if s != [] && (s[0] == ' ' || s[0] == '\t') then SkipBlanks(s[1..]) else s
  }

  /** The value of a Content-Length field line. */
  function LengthField(line: string): Option<nat> {
    if NameMatches(line, FIELD_NAME) then
      var value := SkipBlanks(line[|FIELD_NAME|..]);
      if value != [] && (forall k | 0 <= k < |value| :: IsDigit(value[k])) then Some(ParseDecimal(value)) else None
    else None
  }

  /** Field lines up to the empty line: the declared length and the text after the head. */
  datatype Fields = Fields(length: Option<nat>, rest: string)

  function ReadFields(s: string, length: Option<nat>): Option<Fields>
    ensures ReadFields(s, length).Some? ==> |ReadFields(s, length).value.rest| < |s|
    decreases |s|
  {
    TakeLineShrinks(s);
    match TakeLine(s)
    case None => None
    case Some(l) =>
      if l.text == [] then Some(Fields(length, l.rest))
      else ReadFields(l.rest, if LengthField(l.text).Some? then LengthField(l.text) else length)
  }

  datatype Received = Received(body: string, rest: string)

  /** One message: a status line, the fields, and as many bytes as they declare. */
  function ReadMessage(s: string): Option<Received>
    ensures ReadMessage(s).Some? ==> |ReadMessage(s).value.rest| < |s|
  {
    TakeLineShrinks(s);
    match TakeLine(s)
    case None => None
    case Some(status) =>
      match ReadFields(status.rest, None)
      case None => None
      case Some(f) =>
        if f.length.None? || f.length.value > |f.rest| then None
        else Some(Received(f.rest[..f.length.value], f.rest[f.length.value..]))
  }

  /** The bodies of a stream of messages that ends with its last one. */
  function ReadStream(s: string): Option<seq<string>>
    decreases |s|
  {
    if s == [] then Some([])
    else
      match ReadMessage(s)
      case None => None
      case Some(m) =>
        match ReadStream(m.rest)
        case None => None
        case Some(bodies) => Some([m.body] + bodies)
  }

  // ---- Round trip -----------------------------------------------------------

  lemma {:induction false} TakeLineOf(text: string, rest: string)
    requires '\r' !in text
    ensures TakeLine(text + CRLF + rest) == Some(Line(text, rest))
  {
    var s := text + CRLF + rest;
    if text == [] {
      assert s == CRLF + rest;
      assert s[..2] == CRLF && s[2..] == rest;
    } else {
      TakeLineOf(text[1..], rest);
      assert s[1..] == text[1..] + CRLF + rest;
      assert s[0] == text[0] != '\r' && s[..2][0] == s[0];
      assert [text[0]] + text[1..] == text;
    }
  }

  lemma LengthFieldOf(n: nat)
    ensures LengthField(LENGTH_NAME + Decimal(n)) == Some(n)
    ensures '\r' !in LENGTH_NAME + Decimal(n)
  {
    DecimalRoundTrip(n);
    var line := LENGTH_NAME + Decimal(n);
    var value := line[|FIELD_NAME|..];
    assert value == [' '] + Decimal(n);
    assert value[1..] == Decimal(n) && IsDigit(Decimal(n)[0]);
    assert SkipBlanks(value) == Decimal(n);
  }

  /** A Content-Type or Connection field line declares no length. */
  lemma OtherFields()
    ensures LengthField(TYPE_FIELD).None? && LengthField(CONNECTION_FIELD).None?
    ensures '\r' !in STATUS && '\r' !in TYPE_FIELD && '\r' !in CONNECTION_FIELD
  {
    assert Lower(TYPE_FIELD[8]) != Lower(LENGTH_NAME[8]);
    assert Lower(CONNECTION_FIELD[3]) != Lower(LENGTH_NAME[3]);
  }

  lemma ReadFieldsOf(text: string, rest: string, length: Option<nat>)
    requires text != [] && '\r' !in text
    ensures ReadFields(text + CRLF + rest, length)
            == ReadFields(rest, if LengthField(text).Some? then LengthField(text) else length)
  {
    TakeLineOf(text, rest);
  }

  lemma ReadNoField(rest: string, length: Option<nat>)
    ensures ReadFields(CRLF + rest, length) == Some(Fields(length, rest))
  {
    assert CRLF + rest == [] + CRLF + rest;
    TakeLineOf([], rest);
  }

  /** A head of any status line and three field lines, split line by line. */
  lemma HeadSplits(a: string, b: string, c: string, d: string, crlf: string, rest: string)
    ensures (a + crlf + b + crlf + c + crlf + d + crlf + crlf) + rest
            == a + crlf + (b + crlf + (c + crlf + (d + crlf + (crlf + rest))))
  {
  }

  lemma HeadText(n: nat)
    ensures Head(n)
            == STATUS + CRLF + TYPE_FIELD + CRLF + (LENGTH_NAME + Decimal(n)) + CRLF + CONNECTION_FIELD + CRLF + CRLF
  {
    HeadAssoc(STATUS + CRLF + TYPE_FIELD + CRLF, LENGTH_NAME, Decimal(n));
  }

  lemma HeadAssoc(a: string, b: string, c: string)
    ensures a + b + c == a + (b + c)
  {
  }

  /** Reading a head that declares `n` leaves exactly the bytes after it. */
  lemma HeadDeclares(n: nat, rest: string)
    ensures TakeLine(Head(n) + rest).Some?
    ensures ReadFields(TakeLine(Head(n) + rest).value.rest, None) == Some(Fields(Some(n), rest))
  {
    var length := LENGTH_NAME + Decimal(n);
    var s3 := CONNECTION_FIELD + CRLF + (CRLF + rest);
    var s2 := length + CRLF + s3;
    var s1 := TYPE_FIELD + CRLF + s2;
    HeadText(n);
    HeadSplits(STATUS, TYPE_FIELD, length, CONNECTION_FIELD, CRLF, rest);
    OtherFields();
    LengthFieldOf(n);
    TakeLineOf(STATUS, s1);
    ReadFieldsOf(TYPE_FIELD, s2, None);
    ReadFieldsOf(length, s3, None);
    ReadFieldsOf(CONNECTION_FIELD, CRLF + rest, Some(n));
    ReadNoField(rest, Some(n));
  }

  /** The longest echo whose whole body fits in the 1024-byte buffer. */
  predicate Fits(payload: string) { |UpToNul(payload)| <= 1017 }

  lemma ReadFormatted(payload: string, rest: string)
    requires Fits(payload)
    ensures ReadMessage(Format(payload) + rest) == Some(Received(EchoBody(payload), rest))
  {
    var body := EchoBody(payload);
    var s := body + rest;
    assert Format(payload) + rest == Head(|body|) + s;
    HeadDeclares(|body|, s);
    assert s[..|body|] == body && s[|body|..] == rest;
  }

  function Formatted(payloads: seq<string>): seq<string> {
    if payloads == [] then [] else [Format(payloads[0])] + Formatted(payloads[1..])
  }

  function Echoes(payloads: seq<string>): seq<string> {
    if payloads == [] then [] else [EchoBody(payloads[0])] + Echoes(payloads[1..])
  }

  /** Any concatenation of responses that fit is read back as exactly the echoed bodies. */
  lemma {:induction false} StreamRoundTrip(payloads: seq<string>)
    requires forall k | 0 <= k < |payloads| :: Fits(payloads[k])
    ensures ReadStream(Concat(Formatted(payloads))) == Some(Echoes(payloads))
  {
    if payloads != [] {
      var rest := Concat(Formatted(payloads[1..]));
      ReadFormatted(payloads[0], rest);
      StreamRoundTrip(payloads[1..]);
      assert Formatted(payloads)[1..] == Formatted(payloads[1..]);
      assert Concat(Formatted(payloads)) == Format(payloads[0]) + rest;
    }
  }

  /**
    The declared length is the length of the body that follows, and a client can
    read the response, exactly when the echo fits; a longer echo makes the client
    wait for bytes that are never sent.
   */
  lemma FramedIffFits(payload: string)
    ensures Fits(payload) <==> |EchoBody(payload)| == |Clip(EchoBody(payload), BODY_SIZE)|
    ensures Fits(payload) <==> ReadMessage(Format(payload)).Some?
    ensures Fits(payload) ==> ReadMessage(Format(payload)) == Some(Received(EchoBody(payload), []))
  {
    var body := EchoBody(payload);
    HeadDeclares(|body|, Clip(body, BODY_SIZE));
    if Fits(payload) {
      ReadFormatted(payload, []);
      assert Format(payload) + [] == Format(payload);
    }
  }

  /** A concrete payload of one read that is not framed correctly. */
  lemma LongEchoIsMisframed()
    ensures var payload := seq(1018, _ => 'x');
            |payload| <= BUFFER_SIZE && '\0' !in payload && ReadMessage(Format(payload)).None?
  {
    var payload := seq(1018, _ => 'x');
    FramedIffFits(payload);
  }
}
