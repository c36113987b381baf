/**
 Firecracker's control API on the wire: HTTP/1.1 messages with a
 Content-Length, as sections 2, 5 and 6 of RFC 9112 lay them out.
 */
module Http {
  import opened Wrappers
  import opened Text

  const CRLF: string := "\r\n"
  const BLANK: string := "\r\n\r\n"

  // ---- lines -----------------------------------------------------------------------

  function Join(lines: seq<string>): string {
    if lines == [] then "" else if |lines| == 1 then lines[0] else lines[0] + CRLF + Join(lines[1..])
  }

  predicate StartsWith(s: string, prefix: string) {
    |prefix| <= |s| && s[..|prefix|] == prefix
  }

  /** The first position of `pattern`, or the length if there is none. */
  function Search(pattern: string, s: string): (n: nat)
    ensures n <= |s|
  {
    if s == "" || StartsWith(s, pattern) then 0 else 1 + Search(pattern, s[1..])
  }

  /** `split("\r\n")`. */
  function SplitLines(s: string): seq<string>
    decreases |s|
  {
    var n := Search(CRLF, s);
    if n == |s| then [s]
    else if n + 2 > |s| then [s]
    else [s[..n]] + SplitLines(s[n + 2..])
  }

  predicate Plain(line: string) {
    '\r' !in line
  }

  lemma {:induction false} SearchSkips(pattern: string, line: string, rest: string)
    requires Plain(line) && pattern != "" && pattern[0] == '\r'
    ensures Search(pattern, line + rest) == |line| + Search(pattern, rest)
  {
    if line == "" {
      assert line + rest == rest;
    } else {
      assert (line + rest)[0] == line[0] && line[0] in line;
      assert (line + rest)[1..] == line[1..] + rest;
      SearchSkips(pattern, line[1..], rest);
    }
  }

  lemma SearchHere(pattern: string, rest: string)
    requires pattern != ""
    ensures Search(pattern, pattern + rest) == 0
  {
    assert (pattern + rest)[..|pattern|] == pattern;
  }

  lemma Differs(s: string, pattern: string, i: nat)
    requires i < |s| && i < |pattern| && s[i] != pattern[i]
    ensures !StartsWith(s, pattern)
  {
    if |pattern| <= |s| {
      assert s[..|pattern|][i] == s[i];
    }
  }

  /** A line end in front of a line that starts with no carriage return is no blank line. */
  lemma SearchSkipsLineEnd(rest: string)
    requires rest != "" && rest[0] != '\r'
    ensures Search(BLANK, CRLF + rest) == 2 + Search(BLANK, rest)
  {
    var s := CRLF + rest;
    assert s[1..][1..] == rest;
    Differs(s, BLANK, 2);
    Differs(s[1..], BLANK, 0);
  }

  predicate Lines(lines: seq<string>) {
    lines != [] && forall i :: 0 <= i < |lines| ==> lines[i] != "" && Plain(lines[i])
  }

  lemma {:induction false} HeadEnds(lines: seq<string>, rest: string)
    requires Lines(lines)
    ensures Search(BLANK, Join(lines) + BLANK + rest) == |Join(lines)|
  {
    var tail := BLANK + rest;
    if |lines| == 1 {
      assert Join(lines) + BLANK + rest == lines[0] + tail;
      SearchSkips(BLANK, lines[0], tail);
      SearchHere(BLANK, rest);
    } else {
      var more := Join(lines[1..]) + BLANK + rest;
      JoinStarts(lines[1..]);
      assert Join(lines) + BLANK + rest == lines[0] + (CRLF + more);
      SearchSkips(BLANK, lines[0], CRLF + more);
      assert more[0] == Join(lines[1..])[0];
      SearchSkipsLineEnd(more);
      HeadEnds(lines[1..], rest);
    }
  }

  lemma JoinStarts(lines: seq<string>)
    requires Lines(lines)
    ensures Join(lines) != "" && Join(lines)[0] != '\r'
  {
    assert Join(lines)[0] == lines[0][0];
    assert lines[0][0] in lines[0];
  }

  lemma SplitFirst(line: string, rest: string)
    requires Plain(line)
    ensures SplitLines(line + CRLF + rest) == [line] + SplitLines(rest)
  {
    var s := line + CRLF + rest;
    assert s == line + (CRLF + rest);
    SearchSkips(CRLF, line, CRLF + rest);
    SearchHere(CRLF, rest);
    assert s[..|line|] == line && s[|line| + 2..] == rest;
  }

  lemma SplitNone(none: string)
    requires none == ""
    ensures SplitLines(none) == [none]
  {
  }

  lemma SplitEnd(line: string, none: string)
    requires Plain(line) && none == ""
    ensures SplitLines(line + CRLF + (none + CRLF + none)) == [line, none, none]
  {
    SplitFirst(line, none + CRLF + none);
    SplitFirst(none, none);
    SplitNone(none);
  }

  lemma {:induction false} SplitJoined(lines: seq<string>)
    requires Lines(lines)
    ensures SplitLines(Join(lines) + BLANK) == lines + ["", ""]
  {
    if |lines| == 1 {
      SplitEnd(lines[0], "");
      assert Join(lines) + BLANK == lines[0] + CRLF + ("" + CRLF + "");
      assert lines + ["", ""] == [lines[0], "", ""];
    } else {
      assert Join(lines) + BLANK == lines[0] + CRLF + (Join(lines[1..]) + BLANK);
      SplitFirst(lines[0], Join(lines[1..]) + BLANK);
      SplitJoined(lines[1..]);
      assert [lines[0]] + (lines[1..] + ["", ""]) == lines + ["", ""];
    }
  }

  // ---- header fields -------------------------------------------------------------------

  /** `str.lower` on ISO-8859-1 text. */
  function LowerChar(c: char): char {
    var n := c as int;
    if 'A' <= c <= 'Z' || (0xc0 <= n <= 0xde && n != 0xd7) then (n + 32) as char else c
  }

  /** Letters beyond ASCII fold as ISO-8859-1 has them: 0xe0 to 0xfe are the small letters, the division sign apart. */
  lemma LowerFolds(n: nat)
    requires 0xe0 <= n <= 0xfe && n != 0xf7
    ensures LowerChar((n - 32) as char) == LowerChar(n as char) == n as char
    ensures LowerChar(0xd7 as char) == 0xd7 as char
  {
  }

  function Lower(s: string): string {
    seq(|s|, i requires 0 <= i < |s| => LowerChar(s[i]))
  }

  type Fields = map<string, string>

  /** One line into the dictionary: `partition(":")`, both sides stripped, the name lowered. */
  function WithLine(fields: Fields, line: string): Fields {
    if line == "" then fields
    else
      var n := Find(':', line);
      var value := if n == |line| then "" else line[n + 1..];
      fields[Lower(Strip(PythonSpace, line[..n])) := Strip(PythonSpace, value)]
  }

  function FieldsOf(lines: seq<string>): Fields {
    if lines == [] then map[] else WithLine(FieldsOf(lines[..|lines| - 1]), lines[|lines| - 1])
  }

  function StatusOf(line: string): Option<int> {
    var n := Find(' ', line);
    if n == |line| || !StartsWith(line[..n], "HTTP/") then None
    else
      var rest := line[n + 1..];
      PyInt(Strip(PythonSpace, rest[..Find(' ', rest)]))
  }

  function HeadOf(head: string): Result<(int, Fields)> {
    var lines := SplitLines(head);
    match StatusOf(lines[0])
    case None => Err
    case Some(status) => Ok((status, FieldsOf(lines[1..])))
  }

  method ParseFields(lines: seq<string>) returns (headers: Fields)
    ensures headers == FieldsOf(lines)
  {
    headers := map[];
    for i := 0 to |lines|
      invariant headers == FieldsOf(lines[..i])
    {
      NextField(lines, i);
      if lines[i] != "" {
        headers := WithLine(headers, lines[i]);
      }
    }
    assert lines[..|lines|] == lines;
  }

  lemma NextField(lines: seq<string>, i: nat)
    requires i < |lines|
    ensures FieldsOf(lines[..i + 1]) == WithLine(FieldsOf(lines[..i]), lines[i])
  {
    assert lines[..i + 1][..i] == lines[..i];
  }

  /** `parse_head`. */
  method ParseHead(head: string) returns (r: Result<(int, Fields)>)
    ensures r == HeadOf(head)
  {
    var lines := SplitLines(head);
    var status := StatusOf(lines[0]);
    if status.None? {
      return Err;
    }
    var headers := ParseFields(lines[1..]);
    r := Ok((status.value, headers));
  }

  // ---- messages ------------------------------------------------------------------------------

  const CONTENT_LENGTH: string := "content-length"
  const TRANSFER_ENCODING: string := "transfer-encoding"

  /** The length a set of fields announces; absent and empty both mean none. */
  function LengthOf(fields: Fields): Option<int> {
    if CONTENT_LENGTH !in fields || fields[CONTENT_LENGTH] == "" then Some(0) else PyInt(fields[CONTENT_LENGTH])
  }

  /** `readexactly` of the announced length. */
  function BodyOf(length: Option<int>, after: string): Result<string> {
    match length
    case None => Err
    case Some(n) => if 0 <= n <= |after| then Ok(after[..n]) else Err
  }

  datatype Message = Message(head: string, fields: Fields, body: string)

  /** The head of a message: up to the first blank line.  Nothing comes back for a stream without one. */
  function TakeHead(stream: string): Option<string> {
    var n := Search(BLANK, stream);
    if n + 4 > |stream| then None else Some(stream[..n + 4])
  }

  /** The head, then as many bytes as its fields announce to a Python reader. */
  function TakeMessage(stream: string): Result<Message> {
    match TakeHead(stream)
    case None => Err
    case Some(head) =>
      var fields := FieldsOf(SplitLines(head)[1..]);
      match BodyOf(LengthOf(fields), stream[|head|..])
      case Err => Err
      case Ok(body) => Ok(Message(head, fields, body))
  }

  datatype Response = Response(status: int, body: string)

  /** A response off the front of a stream. */
  function ResponseOf(stream: string): Result<Response> {
    match TakeMessage(stream)
    case Err => Err
    case Ok(m) =>
      match StatusOf(SplitLines(m.head)[0])
      case None => Err
      case Some(status) => if TRANSFER_ENCODING in m.fields then Err else Ok(Response(status, m.body))
  }

  class StreamReader {
    const incoming: string
    var pos: nat

    ghost predicate Valid()
      reads this
    {
      pos <= |incoming|
    }

    constructor (incoming: string)
      ensures Valid() && this.incoming == incoming && pos == 0
    {
      this.incoming := incoming;
      pos := 0;
    }

    /** `readuntil(b"\r\n\r\n")`. */
    method ReadHead() returns (r: Result<string>)
      requires Valid()
      modifies this
      ensures Valid()
      ensures match TakeHead(incoming[old(pos)..])
        case None => r.Err? && pos == old(pos)
        case Some(head) => r == Ok(head) && pos == old(pos) + |head|
    {
      var s := incoming[pos..];
      var n := Search(BLANK, s);
      if n + 4 > |s| {
        return Err;
      }
      pos := pos + n + 4;
      r := Ok(s[..n + 4]);
    }

    /** `readexactly`. */
    method ReadExactly(length: int) returns (r: Result<string>)
      requires Valid()
      modifies this
      ensures Valid()
      ensures r == if length < 0 || old(pos) + length > |incoming| then Err
                   else Ok(incoming[old(pos)..old(pos) + length])
      ensures pos == old(pos) + (if r.Ok? then length else 0)
    {
      if length < 0 || pos + length > |incoming| {
        return Err;
      }
      r := Ok(incoming[pos..pos + length]);
      pos := pos + length;
    }
  }

  /** `read_response`. */
  method ReadResponse(reader: StreamReader) returns (r: Result<Response>)
    requires reader.Valid()
    modifies reader
    ensures reader.Valid()
    ensures r == ResponseOf(reader.incoming[old(reader.pos)..])
    ensures r.Ok? ==> var m := TakeMessage(reader.incoming[old(reader.pos)..]).value;
      reader.pos == old(reader.pos) + |m.head| + |m.body|
  {
    ghost var stream := reader.incoming[reader.pos..];
    var head := reader.ReadHead();
    if head.Err? {
      return Err;
    }
    ghost var after := reader.incoming[reader.pos..];
    assert after == stream[|head.value|..];
    var parsed := ParseHead(head.value);
    if parsed.Err? {
      return Err;
    }
    var headers := parsed.value.1;
    if TRANSFER_ENCODING in headers {
      return Err;
    }
    var body := ReadBody(reader, headers);
    if body.Err? {
      return Err;
    }
    r := Ok(Response(parsed.value.0, body.value));
  }

  method ReadBody(reader: StreamReader, headers: Fields) returns (r: Result<string>)
    requires reader.Valid()
    modifies reader
    ensures reader.Valid()
    ensures r == BodyOf(LengthOf(headers), reader.incoming[old(reader.pos)..])
    ensures reader.pos == old(reader.pos) + (if r.Ok? then |r.value| else 0)
  {
    var length := LengthOf(headers);
    if length.None? {
      return Err;
    }
    if length.value == 0 {
      return Ok("");
    }
    r := reader.ReadExactly(length.value);
    assert r.Ok? ==> r.value == reader.incoming[old(reader.pos)..][..length.value];
  }

  // ---- requests ------------------------------------------------------------------------------

  function Field(name: string, value: string): string {
    name + ": " + value
  }

  /** A field list as lines. */
  function Rendered(fields: seq<(string, string)>): seq<string> {
    seq(|fields|, i requires 0 <= i < |fields| => Field(fields[i].0, fields[i].1))
  }

  const HOST_HEADER: string := "localhost"

  function Standing(host: string): seq<(string, string)> {
    [("Host", host), ("Accept", "application/json"), ("Connection", "close")]
  }

  const LENGTH_NAME: string := "Content-Length"
  const TYPE_FIELD: (string, string) := ("Content-Type", "application/json")

  function WithLength(before: seq<(string, string)>, n: nat, typed: bool): seq<(string, string)> {
    before + [(LENGTH_NAME, Dec(n))] + (if typed then [TYPE_FIELD] else [])
  }

  function RequestFields(host: string, payload: string): seq<(string, string)> {
    WithLength(Standing(host), |payload|, payload != "")
  }

  function StartLine(verb: string, path: string): string {
    verb + " " + path + " HTTP/1.1"
  }

  function RequestLines(verb: string, path: string, payload: string): seq<string> {
    [StartLine(verb, path)] + Rendered(RequestFields(HOST_HEADER, payload))
  }

  /** `encode_request`; `payload` is the JSON text of the body, or empty for no body. */
  function EncodeRequest(verb: string, path: string, payload: string): string {
    Join(RequestLines(verb, path, payload)) + BLANK + payload
  }

  // ---- framing theorems ------------------------------------------------------------------------

  lemma StripField(value: string)
    requires Stripped(PythonSpace, value)
    ensures Strip(PythonSpace, value) == value && Strip(PythonSpace, SP + value) == value
  {
    assert (SP + value)[1..] == value;
  }

  predicate FieldOk(name: string, value: string) {
    && ':' !in name && Plain(name) && Plain(value) && Stripped(PythonSpace, name) && Stripped(PythonSpace, value)
  }

  lemma FieldLine(fields: Fields, name: string, value: string)
    requires FieldOk(name, value)
    ensures WithLine(fields, Field(name, value)) == fields[Lower(name) := value]
    ensures Field(name, value) != "" && Plain(Field(name, value))
  {
    var line := Field(name, value);
    assert line == name + [':'] + (SP + value);
    FindAt(':', name, SP + value);
    assert line[..|name|] == name && line[|name| + 1..] == SP + value;
    StripField(name);
    StripField(value);
  }

  /** Whitespace around name and value does not count, nor does the case of the name; colons may be in the value. */
  lemma FieldInGeneral(fields: Fields, a: string, name: string, b: string, c: string, value: string, d: string)
    requires AllSpace(PythonSpace, a) && AllSpace(PythonSpace, b)
    requires AllSpace(PythonSpace, c) && AllSpace(PythonSpace, d)
    requires Stripped(PythonSpace, name) && ':' !in name && Stripped(PythonSpace, value)
    ensures WithLine(fields, (a + name + b) + [':'] + (c + value + d)) == fields[Lower(name) := value]
  {
    var front, back := a + name + b, c + value + d;
    assert ':' !in a && ':' !in b;
    FindAt(':', front, back);
    var line := front + [':'] + back;
    assert line[..|front|] == front && line[|front| + 1..] == back;
    StripsAround(PythonSpace, a, name, b);
    StripsAround(PythonSpace, c, value, d);
  }

  lemma FieldsOfHead(lines: seq<string>)
    requires Lines(lines)
    ensures var split := SplitLines(Join(lines) + BLANK);
      split[0] == lines[0] && FieldsOf(split[1..]) == FieldsOf(lines[1..])
  {
    SplitJoined(lines);
    var more := lines[1..];
    assert (lines + ["", ""])[1..] == more + ["", ""];
    var all := more + ["", ""];
    assert all[..|all| - 1] == more + [""] && (more + [""])[..|more|] == more;
  }

  /** The head of rendered lines is found whole whatever follows it, and its fields are those of the lines. */
  lemma HeadIsTaken(lines: seq<string>, after: string)
    requires Lines(lines)
    ensures var stream := Join(lines) + BLANK + after;
      TakeHead(stream) == Some(Join(lines) + BLANK) && stream[|Join(lines) + BLANK|..] == after
  {
    HeadEnds(lines, after);
    var stream := Join(lines) + BLANK + after;
    assert stream[..|Join(lines)| + 4] == Join(lines) + BLANK;
  }

  /** The dictionary a field list means: later fields win, names without regard to case. */
  function Meaning(fields: seq<(string, string)>): Fields {
    if fields == [] then map[]
    else Meaning(fields[..|fields| - 1])[Lower(fields[|fields| - 1].0) := fields[|fields| - 1].1]
  }

  predicate FieldsOk(fields: seq<(string, string)>) {
    forall i :: 0 <= i < |fields| ==> FieldOk(fields[i].0, fields[i].1)
  }

  lemma {:induction false} RenderedMeans(fields: seq<(string, string)>)
    requires FieldsOk(fields)
    ensures FieldsOf(Rendered(fields)) == Meaning(fields)
    ensures forall i :: 0 <= i < |fields| ==> Rendered(fields)[i] != "" && Plain(Rendered(fields)[i])
  {
    if fields != [] {
      var init, last := fields[..|fields| - 1], fields[|fields| - 1];
      RenderedMeans(init);
      FieldLine(Meaning(init), last.0, last.1);
      assert Rendered(fields)[..|fields| - 1] == Rendered(init);
      forall i | 0 <= i < |fields|
        ensures Rendered(fields)[i] != "" && Plain(Rendered(fields)[i])
      {
        if i < |init| {
          assert Rendered(init)[i] == Rendered(fields)[i];
        }
      }
    }
  }

  /** The length a server reads off a request, section 6.2 of RFC 9112: digits and nothing else. */
  function AnnouncedLength(fields: Fields): Option<int> {
    if CONTENT_LENGTH in fields && fields[CONTENT_LENGTH] != "" && AllDigits(fields[CONTENT_LENGTH])
    then Some(DigitsValue(fields[CONTENT_LENGTH])) else None
  }

  lemma TypeFieldOk()
    ensures FieldOk(TYPE_FIELD.0, TYPE_FIELD.1)
  {
  }

  lemma StandingOk(host: string)
    requires FieldOk("Host", host)
    ensures FieldsOk(Standing(host))
  {
    assert FieldOk("Accept", "application/json");
    assert FieldOk("Connection", "close");
  }

  lemma MeaningLast(fields: seq<(string, string)>, last: (string, string))
    ensures Meaning(fields + [last]) == Meaning(fields)[Lower(last.0) := last.1]
  {
    assert (fields + [last])[..|fields|] == fields;
  }

  lemma LengthFieldOk(n: nat)
    ensures FieldOk(LENGTH_NAME, Dec(n)) && Lower(LENGTH_NAME) == CONTENT_LENGTH
  {
    DecIsSolid(PythonSpace, n);
    assert IsSpace(PythonSpace, '\r');
  }

  lemma TypeIsNotLength()
    ensures Lower(TYPE_FIELD.0) != CONTENT_LENGTH
  {
    assert |Lower(TYPE_FIELD.0)| != |CONTENT_LENGTH|;
  }

  /** A length field stays in force behind any fields and in front of a type field. */
  lemma LengthInForce(before: seq<(string, string)>, n: nat, typed: bool)
    requires FieldsOk(before)
    ensures var all := WithLength(before, n, typed);
      FieldsOk(all) && CONTENT_LENGTH in Meaning(all) && Meaning(all)[CONTENT_LENGTH] == Dec(n)
  {
    TypeFieldOk();
    LengthFieldOk(n);
    TypeIsNotLength();
    var upTo := before + [(LENGTH_NAME, Dec(n))];
    MeaningLast(before, (LENGTH_NAME, Dec(n)));
    MeaningLast(upTo, TYPE_FIELD);
    assert upTo + [] == upTo;
  }

  lemma StartLineOk(verb: string, path: string)
    requires Plain(verb) && Plain(path)
    ensures StartLine(verb, path) != "" && Plain(StartLine(verb, path))
  {
  }

  /** A start line and well-formed fields come back from the stream, with the rest behind them. */
  lemma MessageIsTaken(start: string, fields: seq<(string, string)>, after: string)
    requires start != "" && Plain(start) && FieldsOk(fields)
    ensures var head := Join([start] + Rendered(fields)) + BLANK; var stream := head + after;
      && TakeHead(stream) == Some(head) && stream[|head|..] == after
      && SplitLines(head)[0] == start && FieldsOf(SplitLines(head)[1..]) == Meaning(fields)
  {
    var lines := [start] + Rendered(fields);
    RenderedMeans(fields);
    assert lines[1..] == Rendered(fields);
    assert Lines(lines);
    HeadIsTaken(lines, after);
    FieldsOfHead(lines);
  }

  /** What a server reading `stream` gets: this start line, the length of `payload`, and `payload` before `rest`. */
  ghost predicate ServerReads(stream: string, start: string, payload: string, rest: string) {
    && TakeHead(stream).Some?
    && var head := TakeHead(stream).value;
       && SplitLines(head)[0] == start
       && AnnouncedLength(FieldsOf(SplitLines(head)[1..])) == Some(|payload|)
       && stream[|head|..] == payload + rest
  }

  lemma DecIsAnnounced(fields: Fields, n: nat)
    requires CONTENT_LENGTH in fields && fields[CONTENT_LENGTH] == Dec(n)
    ensures AnnouncedLength(fields) == Some(n)
  {
    DecReadsBack(n);
  }

  lemma FramingBehind(start: string, before: seq<(string, string)>, payload: string, rest: string)
    requires start != "" && Plain(start) && FieldsOk(before)
    ensures ServerReads(Join([start] + Rendered(WithLength(before, |payload|, payload != ""))) + BLANK + payload + rest,
                        start, payload, rest)
  {
    var fields := WithLength(before, |payload|, payload != "");
    LengthInForce(before, |payload|, payload != "");
    DecIsAnnounced(Meaning(fields), |payload|);
    MessageIsTaken(start, fields, payload + rest);
    ServedBehind(Join([start] + Rendered(fields)) + BLANK, start, payload, rest);
  }

  lemma ServedBehind(head: string, start: string, payload: string, rest: string)
    requires TakeHead(head + (payload + rest)) == Some(head) && SplitLines(head)[0] == start
    requires AnnouncedLength(FieldsOf(SplitLines(head)[1..])) == Some(|payload|)
    ensures ServerReads(head + payload + rest, start, payload, rest)
  {
    assert head + payload + rest == head + (payload + rest);
  }

  /** A line at its spaces. */
  function AtSpaces(line: string): (words: seq<string>)
    decreases |line|
  {
    var n := Find(' ', line);
    if n == |line| then [line] else [line[..n]] + AtSpaces(line[n + 1..])
  }

  lemma FirstOfSpaces(word: string, more: string)
    requires ' ' !in word
    ensures AtSpaces(word + " " + more) == [word] + AtSpaces(more) && AtSpaces(word) == [word]
  {
    var line := word + " " + more;
    FindAt(' ', word, more);
    assert line[..|word|] == word && line[|word| + 1..] == more;
    assert Find(' ', word) == |word|;
  }

  lemma StartLineReads(verb: string, path: string)
    requires ' ' !in verb && ' ' !in path
    ensures AtSpaces(StartLine(verb, path)) == [verb, path, VERSION]
  {
    assert StartLine(verb, path) == verb + " " + (path + " " + VERSION);
    ThreeAtSpaces(verb, path, VERSION);
  }

  lemma ThreeAtSpaces(a: string, b: string, c: string)
    requires ' ' !in a && ' ' !in b && ' ' !in c
    ensures AtSpaces(a + " " + (b + " " + c)) == [a, b, c]
  {
    FirstOfSpaces(a, b + " " + c);
    FirstOfSpaces(b, c);
    FirstOfSpaces(c, "");
  }

  /** The names that matter are recognised however the far end spells them. */
  lemma NamesAreRecognised()
    ensures Lower("Transfer-Encoding") == TRANSFER_ENCODING && Lower("Content-Length") == CONTENT_LENGTH
    ensures Lower("CONTENT-LENGTH") == CONTENT_LENGTH
  {
  }

  lemma FourMean(a: (string, string), b: (string, string), c: (string, string), d: (string, string))
    ensures Meaning([a, b, c, d]) == map[][Lower(a.0) := a.1][Lower(b.0) := b.1][Lower(c.0) := c.1][Lower(d.0) := d.1]
  {
    MeaningLast([], a);
    MeaningLast([a], b);
    MeaningLast([a, b], c);
    MeaningLast([a, b, c], d);
    assert [] + [a] == [a] && [a] + [b] == [a, b] && [a, b] + [c] == [a, b, c] && [a, b, c] + [d] == [a, b, c, d];
  }

  /** What the fields of a request mean: the connection is not to be kept, and a payload comes with its type. */
  function RequestMeaning(payload: string): Fields {
    map["host" := "localhost"]["accept" := "application/json"]["connection" := "close"]
      ["content-length" := Dec(|payload|)]
    + (if payload == "" then map[] else map["content-type" := "application/json"])
  }

  lemma RequestMeans(payload: string)
    ensures Meaning(RequestFields(HOST_HEADER, payload)) == RequestMeaning(payload)
  {
    var standing := Standing(HOST_HEADER);
    var h, a, c, l := standing[0], standing[1], standing[2], (LENGTH_NAME, Dec(|payload|));
    FourMean(h, a, c, l);
    MeaningLast([h, a, c, l], TYPE_FIELD);
    LowerNames();
    assert standing + [l] == [h, a, c, l];
    assert payload == "" ==> RequestFields(HOST_HEADER, payload) == [h, a, c, l];
    assert payload != "" ==> RequestFields(HOST_HEADER, payload) == [h, a, c, l] + [TYPE_FIELD];
  }

  lemma LowerNames()
    ensures Lower("Host") == "host" && Lower("Accept") == "accept" && Lower("Connection") == "connection"
    ensures Lower(LENGTH_NAME) == "content-length" && Lower(TYPE_FIELD.0) == "content-type"
  {
  }

  /** What a server reads of the first line of a request's head, split at its spaces. */
  function RequestWords(stream: string): seq<string> {
    match TakeHead(stream)
    case Some(head) => AtSpaces(SplitLines(head)[0])
    case None => []
  }

  /** What a server reads of a request's fields. */
  function RequestFieldsRead(stream: string): Fields {
    match TakeHead(stream)
    case Some(head) => FieldsOf(SplitLines(head)[1..])
    case None => map[]
  }

  /**
   A server that reads an encoded request finds verb, path and version on the first line, the length of
   the payload among the fields, the payload behind the blank line, and what came behind it exactly left.
   */
  lemma RequestFraming(verb: string, path: string, payload: string, rest: string)
    requires Plain(verb) && Plain(path)
    ensures var stream := EncodeRequest(verb, path, payload) + rest;
      && TakeHead(stream).Some?
      && AnnouncedLength(RequestFieldsRead(stream)) == Some(|payload|)
      && stream[|TakeHead(stream).value|..] == payload + rest
      && (' ' !in verb && ' ' !in path ==> RequestWords(stream) == [verb, path, "HTTP/1.1"])
  {
    StandingOk(HOST_HEADER);
    StartLineOk(verb, path);
    FramingBehind(StartLine(verb, path), Standing(HOST_HEADER), payload, rest);
    assert ServerReads(EncodeRequest(verb, path, payload) + rest, StartLine(verb, path), payload, rest);
    if ' ' !in verb && ' ' !in path {
      StartLineReads(verb, path);
    }
  }

  lemma RequestIsRendered(verb: string, path: string, payload: string, rest: string)
    ensures EncodeRequest(verb, path, payload) + rest
         == Join([StartLine(verb, path)] + Rendered(RequestFields(HOST_HEADER, payload))) + BLANK + (payload + rest)
  {
  }

  /** The fields that server reads. */
  lemma RequestFieldsAre(verb: string, path: string, payload: string, rest: string)
    requires Plain(verb) && Plain(path)
    ensures RequestFieldsRead(EncodeRequest(verb, path, payload) + rest) == RequestMeaning(payload)
  {
    var fields := RequestFields(HOST_HEADER, payload);
    StandingOk(HOST_HEADER);
    StartLineOk(verb, path);
    LengthInForce(Standing(HOST_HEADER), |payload|, payload != "");
    MessageIsTaken(StartLine(verb, path), fields, payload + rest);
    RequestMeans(payload);
    RequestIsRendered(verb, path, payload, rest);
  }

  /** A response as the far end renders it; `reason` is empty or starts with a space. */
  function StatusLine(status: nat, reason: string): string {
    "HTTP/1.1 " + Dec(status) + reason
  }

  function RenderHead(status: nat, reason: string, fields: seq<(string, string)>): string {
    Join([StatusLine(status, reason)] + Rendered(fields)) + BLANK
  }

  const VERSION: string := "HTTP/1.1"

  predicate ReasonOk(reason: string) {
    Plain(reason) && (reason != "" ==> reason[0] == ' ')
  }

  lemma StatusLineOk(status: nat, reason: string)
    requires Plain(reason)
    ensures StatusLine(status, reason) != "" && Plain(StatusLine(status, reason))
  {
    DecIsSolid(PythonSpace, status);
    assert IsSpace(PythonSpace, '\r');
  }

  /** The second word of a line. */
  lemma SecondWord(d: string, reason: string)
    requires ' ' !in d && (reason != "" ==> reason[0] == ' ')
    ensures (d + reason)[..Find(' ', d + reason)] == d
  {
    if reason == "" {
      assert d + reason == d;
      assert Find(' ', d) == |d|;
    } else {
      assert d + reason == d + [' '] + reason[1..];
      FindAt(' ', d, reason[1..]);
    }
  }

  lemma StatusReadsBack(status: nat, reason: string)
    requires ReasonOk(reason)
    ensures StatusOf(StatusLine(status, reason)) == PyInt(Dec(status))
  {
    var d := Dec(status);
    var line := StatusLine(status, reason);
    assert line == VERSION + [' '] + (d + reason);
    FindAt(' ', VERSION, d + reason);
    assert line[..8] == VERSION && line[9..] == d + reason;
    assert StartsWith(VERSION, "HTTP/");
    DecIsSolid(PythonSpace, status);
    assert IsSpace(PythonSpace, ' ');
    SecondWord(d, reason);
    StripField(d);
  }

  /** What stands on a first line in general: nothing without a space or of another protocol, else Python's `int`. */
  lemma StatusInGeneral(word: string, code: string, reason: string)
    requires ' ' !in word && ' ' !in code && (reason != "" ==> reason[0] == ' ')
    ensures StatusOf(word).None?
    ensures StatusOf(word + [' '] + (code + reason)) ==
      if "HTTP/" <= word then PyInt(Strip(PythonSpace, code)) else None
  {
    var line := word + [' '] + (code + reason);
    FindAt(' ', word, code + reason);
    assert line[..|word|] == word && line[|word| + 1..] == code + reason;
    SecondWord(code, reason);
    assert Find(' ', word) == |word|;
    assert StartsWith(word, "HTTP/") <==> "HTTP/" <= word;
  }

  /** A line without a colon is a name without a value, and an empty line is nothing. */
  lemma FieldWithoutColon(fields: Fields, name: string)
    requires ':' !in name && name != "" && Stripped(PythonSpace, name)
    ensures WithLine(fields, name) == fields[Lower(name) := ""] && WithLine(fields, "") == fields
  {
    assert Find(':', name) == |name| && name[..|name|] == name;
    StripField(name);
    StripField("");
  }

  /** The fields announce `body`: by its printed length, or an empty one by no length at all. */
  predicate Announces(fields: Fields, body: string) {
    if CONTENT_LENGTH in fields && fields[CONTENT_LENGTH] != ""
    then fields[CONTENT_LENGTH] == Dec(|body|) else body == ""
  }

  /** The body that fields announce, cut off in front of whatever follows. */
  lemma BodyIsTaken(fields: Fields, body: string, rest: string)
    requires Announces(fields, body)
    ensures BodyOf(LengthOf(fields), body + rest) == if |Dec(|body|)| <= MAX_INT_DIGITS then Ok(body) else Err
  {
    PyIntReadsBack(|body|);
    DecReadsBack(|body|);
    assert (body + rest)[..|body|] == body;
  }

  /**
   A rendered response parses back to its status and the body its fields announce, by the last
   Content-Length or by having none, whatever bytes come behind it.  It is refused exactly if some
   field is a transfer encoding, or a number has more digits than Python's int takes.
   */
  lemma ResponseFraming(status: nat, reason: string, fields: seq<(string, string)>, body: string, rest: string)
    requires ReasonOk(reason) && FieldsOk(fields)
    requires Announces(Meaning(fields), body)
    ensures var stream := RenderHead(status, reason, fields) + (body + rest);
      ResponseOf(stream) ==
        if TRANSFER_ENCODING in Meaning(fields) || |Dec(status)| > MAX_INT_DIGITS || |Dec(|body|)| > MAX_INT_DIGITS
        then Err else Ok(Response(status, body))
    ensures var stream := RenderHead(status, reason, fields) + (body + rest);
      TakeMessage(stream).Ok? ==>
        TakeMessage(stream).value == Message(RenderHead(status, reason, fields), Meaning(fields), body)
  {
    StatusLineOk(status, reason);
    StatusReadsBack(status, reason);
    MessageIsTaken(StatusLine(status, reason), fields, body + rest);
    BodyIsTaken(Meaning(fields), body, rest);
    PyIntReadsBack(status);
  }

  /** A response without a length, such as every empty 204, reads as empty in front of any rest. */
  lemma UnannouncedIsEmpty(status: nat, reason: string, fields: seq<(string, string)>, rest: string)
    requires ReasonOk(reason) && FieldsOk(fields) && |Dec(status)| <= MAX_INT_DIGITS
    requires CONTENT_LENGTH !in Meaning(fields) && TRANSFER_ENCODING !in Meaning(fields)
    ensures ResponseOf(RenderHead(status, reason, fields) + rest) == Ok(Response(status, ""))
  {
    DecReadsBack(0);
    DecLength(0, 1);
    ResponseFraming(status, reason, fields, "", rest);
    assert "" + rest == rest;
  }

  /**
   When a connection carries one response and ends, what is read is all of the body exactly if the fields have no
   transfer encoding and the length they announce is the body's own.  In particular a body that only the end of the
   connection delimits is dropped in silence unless it is empty.
   */
  lemma WholeBody(status: nat, reason: string, fields: seq<(string, string)>, body: string)
    requires ReasonOk(reason) && FieldsOk(fields) && |Dec(status)| <= MAX_INT_DIGITS
    ensures ResponseOf(RenderHead(status, reason, fields) + body) == Ok(Response(status, body)) <==>
      TRANSFER_ENCODING !in Meaning(fields) && LengthOf(Meaning(fields)) == Some(|body|)
    ensures CONTENT_LENGTH !in Meaning(fields) && TRANSFER_ENCODING !in Meaning(fields) ==>
      ResponseOf(RenderHead(status, reason, fields) + body) == Ok(Response(status, ""))
  {
    StatusLineOk(status, reason);
    StatusReadsBack(status, reason);
    MessageIsTaken(StatusLine(status, reason), fields, body);
    PyIntReadsBack(status);
    if LengthOf(Meaning(fields)) == Some(|body|) {
      assert body[..|body|] == body;
    }
  }

  /** A stream that ends before the rendered response does is never taken for a response. */
  lemma TruncatedResponseIsRefused(status: nat, reason: string, fields: seq<(string, string)>, body: string, n: nat)
    requires ReasonOk(reason) && FieldsOk(fields)
    requires Announces(Meaning(fields), body)
    requires n < |RenderHead(status, reason, fields) + body|
    ensures ResponseOf((RenderHead(status, reason, fields) + body)[..n]) == Err
  {
    var head := RenderHead(status, reason, fields);
    StatusLineOk(status, reason);
    StatusReadsBack(status, reason);
    if n < |head| {
      MessageIsTaken(StatusLine(status, reason), fields, "");
      assert head + "" == head;
      ShorterHasNoHead(head, n);
      assert (head + body)[..n] == head[..n];
    } else {
      var part := body[..n - |head|];
      assert (head + body)[..n] == head + part;
      MessageIsTaken(StatusLine(status, reason), fields, part);
      PyIntReadsBack(|body|);
    }
  }

  /** A proper prefix of a head holds no blank line. */
  lemma ShorterHasNoHead(head: string, n: nat)
    requires TakeHead(head) == Some(head) && n < |head|
    ensures TakeHead(head[..n]) == None
  {
    SearchInPrefix(BLANK, head, n);
  }

  lemma {:induction false} SearchInPrefix(pattern: string, s: string, n: nat)
    requires pattern != "" && n <= |s|
    ensures var m := Search(pattern, s[..n]); m == n || m == Search(pattern, s)
    ensures Search(pattern, s[..n]) < n ==> Search(pattern, s[..n]) + |pattern| <= n
    decreases n
  {
    if n > 0 {
      assert s[..n][1..] == s[1..][..n - 1];
      assert |pattern| <= n ==> s[..n][..|pattern|] == s[..|pattern|];
      if !StartsWith(s[..n], pattern) {
        SearchInPrefix(pattern, s[1..], n - 1);
      }
    }
  }
}
