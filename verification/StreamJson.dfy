/** The line protocol of the headless workers: prompts out, events in. */
module StreamJson {
  import opened Model
  import opened Json
  import opened Sequences

  /** A parsed output line; the cost, a float, is not part of this model. */
  datatype Event =
    | Init(sessionId: Option<string>, model: Option<string>, cwd: Option<string>)
    | System(subtype: string, text: string)
    | Assistant(text: string, tools: seq<string>)
    | ToolResult(text: string)
    | TextDelta(text: string)
    | Result(isError: bool, answer: Option<string>, usage: TokenUsage, numTurns: Option<u32>, sessionId: Option<string>)
    | Other(kind: string)

  // ----- reading fields -----

  /** The last member with the key, as in a map built by successive insertions. */
  function Find(members: seq<Member>, key: string): Option<Value> {
    if members == [] then None
    else if members[|members| - 1].key == key then Some(members[|members| - 1].value)
    else Find(members[..|members| - 1], key)
  }

  function Get(v: Value, key: string): Option<Value> { if v.Object? then Find(v.members, key) else None }

  function GetStr(v: Value, key: string): Option<string> {
    match Get(v, key)
    case Some(String(s)) => Some(s)
    case _ => None
  }

  function StrOr(o: Option<string>, default: string): string { if o.Some? then o.value else default }

  function Decimal(digits: string): nat
    requires forall i :: 0 <= i < |digits| ==> IsDigit(digits[i])
  {
    if digits == [] then 0 else
    assert IsDigit(digits[|digits| - 1]);
    Decimal(digits[..|digits| - 1]) * 10 + (digits[|digits| - 1] as int - '0' as int)
  }

  /** Numbers written as plain digits that fit 64 bits. */
  function AsU64(v: Value): Option<nat> {
    if v.Number? && (forall i :: 0 <= i < |v.lexeme| ==> IsDigit(v.lexeme[i])) && Decimal(v.lexeme) < U64
    then Some(Decimal(v.lexeme)) else None
  }

  function GetU64(v: Value, key: string): Option<nat> {
    var f := Get(v, key);
    if f.None? then None else AsU64(f.value)
  }

  function Counter(usage: Value, key: string): nat {
    var n := GetU64(usage, key);
    if n.Some? then n.value else 0
  }

  function ParseUsage(usage: Value): TokenUsage {
    TokenUsage(Counter(usage, "input_tokens"), Counter(usage, "output_tokens"),
               Counter(usage, "cache_creation_input_tokens"), Counter(usage, "cache_read_input_tokens"))
  }

  // ----- message contents -----

  function FlattenText(v: Value): string {
    match v
    case String(s) => s
    case Array(items) => FlattenItems(items)
    case _ => ""
  }

  function FlattenItems(items: seq<Value>): string {
    if items == [] then "" else StrOr(GetStr(items[0], "text"), "") + FlattenItems(items[1..])
  }

  /** What one content block adds to the visible text. */
  function BlockText(b: Value): string {
    var kind := GetStr(b, "type");
    if kind == Some("text") then StrOr(GetStr(b, "text"), "")
    else if kind == Some("tool_result") then
      match Get(b, "content")
      case Some(c) => FlattenText(c)
      case None => ""
    else ""
  }

  function BlockTools(b: Value): seq<string> {
    if GetStr(b, "type") == Some("tool_use") && GetStr(b, "name").Some? then [GetStr(b, "name").value] else []
  }

  function Texts(blocks: seq<Value>): string {
    if blocks == [] then "" else Texts(blocks[..|blocks| - 1]) + BlockText(blocks[|blocks| - 1])
  }

  function Tools(blocks: seq<Value>): seq<string> {
    if blocks == [] then [] else Tools(blocks[..|blocks| - 1]) + BlockTools(blocks[|blocks| - 1])
  }

  function Content(message: Value): (string, seq<string>) {
    match Get(message, "content")
    case Some(String(s)) => (s, [])
    case Some(Array(blocks)) => (Texts(blocks), Tools(blocks))
    case _ => ("", [])
  }

  /** One turn of the block loop. */
  method ReadBlock(b: Value, text: string, tools: seq<string>) returns (text': string, tools': seq<string>)
    ensures text' == text + BlockText(b) && tools' == tools + BlockTools(b)
  {
    text', tools' := text, tools;
    var kind := GetStr(b, "type");
    if kind == Some("text") {
      var t := GetStr(b, "text");
      if t.Some? { text' := text + t.value; }
    } else if kind == Some("tool_use") {
      var name := GetStr(b, "name");
      if name.Some? { tools' := tools + [name.value]; }
    } else if kind == Some("tool_result") {
      var c := Get(b, "content");
      if c.Some? { text' := text + FlattenText(c.value); }
    }
  }

  /** The block loop of `parse_message_content`. */
  method ReadBlocks(blocks: seq<Value>) returns (text: string, tools: seq<string>)
    ensures text == Texts(blocks) && tools == Tools(blocks)
  {
    text, tools := "", [];
    for i := 0 to |blocks|
      invariant text == Texts(blocks[..i]) && tools == Tools(blocks[..i])
    {
      assert blocks[..i + 1][..i] == blocks[..i] && blocks[..i + 1][i] == blocks[i];
      text, tools := ReadBlock(blocks[i], text, tools);
    }
    assert blocks[..|blocks|] == blocks;
  }

  method ParseMessageContent(message: Value) returns (text: string, tools: seq<string>)
    ensures (text, tools) == Content(message)
    ensures forall bs :: Get(message, "content") == Some(Array(BlockValues(bs))) ==>
              text == Said(bs) && tools == Called(bs)
  {
    text, tools := "", [];
    var content := Get(message, "content");
    if content.Some? && content.value.String? {
      text := content.value.s;
    } else if content.Some? && content.value.Array? {
      text, tools := ReadBlocks(content.value.items);
      forall bs | content.value.items == BlockValues(bs) ensures text == Said(bs) && tools == Called(bs) {
        BlocksSay(bs);
      }
    }
  }

  // ----- lines -----

  /** Characters with the Unicode `White_Space` property. */
  predicate IsWhite(c: char) {
    || '\U{0009}' <= c <= '\U{000D}' || c == ' ' || c == '\U{0085}' || c == '\U{00A0}' || c == '\U{1680}'
    || '\U{2000}' <= c <= '\U{200A}' || c == '\U{2028}' || c == '\U{2029}' || c == '\U{202F}'
    || c == '\U{205F}' || c == '\U{3000}'
  }

  function TrimStart(s: string): string { if s != [] && IsWhite(s[0]) then TrimStart(s[1..]) else s }

  function TrimEnd(s: string): string {
    if s != [] && IsWhite(s[|s| - 1]) then TrimEnd(s[..|s| - 1]) else s
  }

  function Take(s: string, n: nat): string { if |s| <= n then s else s[..n] }

  /** The message of an event, if there is one. */
  function MessageContent(v: Value): (string, seq<string>) {
    match Get(v, "message")
    case Some(m) => Content(m)
    case None => ("", [])
  }

  function DeltaText(v: Value): string {
    match Get(v, "event")
    case None => ""
    case Some(e) =>
      match Get(e, "delta")
      case None => ""
      case Some(d) => if GetStr(d, "type") == Some("text_delta") then StrOr(GetStr(d, "text"), "") else ""
  }

  /** The event a JSON value stands for; `line` is its text. */
  function EventOf(v: Value, line: string): Event {
    var kind := StrOr(GetStr(v, "type"), "unknown");
    if kind == "system" then
      var subtype := StrOr(GetStr(v, "subtype"), "");
      if subtype == "init" then Init(GetStr(v, "session_id"), GetStr(v, "model"), GetStr(v, "cwd"))
      else System(subtype, Take(line, 400))
    else if kind == "assistant" then Assistant(MessageContent(v).0, MessageContent(v).1)
    else if kind == "user" then ToolResult(MessageContent(v).0)
    else if kind == "stream_event" then
      if DeltaText(v) == "" then Other("stream_event") else TextDelta(DeltaText(v))
    else if kind == "result" then
      var turns := GetU64(v, "num_turns");
      Result(Get(v, "is_error") == Some(Bool(true)),
             GetStr(v, "result"),
             match Get(v, "usage") case Some(u) => ParseUsage(u) case None => NO_TOKENS,
             if turns.Some? then Some(turns.value % 0x1_0000_0000) else None,
             GetStr(v, "session_id"))
    else Other(kind)
  }

  function ParseLine(text: string): Option<Event> {
    var line := TrimEnd(TrimStart(text));
    if line == "" then None else
    match Parse(line)
    case Ok(v, _) => Some(EventOf(v, line))
    case Fail => None
  }

  /** The reader's call: messages go through the block loop. */
  method ReadLine(text: string) returns (e: Option<Event>)
    ensures e == ParseLine(text)
  {
    var line := TrimEnd(TrimStart(text));
    if line == "" { return None; }
    var parsed := Parse(line);
    if parsed.Fail? { return None; }
    var v := parsed.value;
    var kind := StrOr(GetStr(v, "type"), "unknown");
    if kind != "assistant" && kind != "user" { return Some(EventOf(v, line)); }
    var message := Get(v, "message");
    var said, called := "", [];
    if message.Some? { said, called := ParseMessageContent(message.value); }
    e := Some(if kind == "assistant" then Assistant(said, called) else ToolResult(said));
  }

  function UserMessage(prompt: string): Value {
    Object([Member("message", Object([Member("content", String(prompt)), Member("role", String("user"))])),
            Member("type", String("user"))])
  }

  function UserMessageLine(prompt: string): string { Print(UserMessage(prompt)) + "\n" }

  function FirstBreak(s: string): nat
    ensures FirstBreak(s) <= |s|
    ensures FirstBreak(s) < |s| ==> s[FirstBreak(s)] == '\n'
  {
    if s == [] || s[0] == '\n' then 0 else 1 + FirstBreak(s[1..])
  }

  /** Lines as a buffered reader yields them: without the line feed or a carriage return before it. */
  function Lines(s: string): seq<string>
    decreases |s|
  {
    if s == [] then [] else
    var n := FirstBreak(s);
    if n == |s| then [s] else
    [if n > 0 && s[n - 1] == '\r' then s[..n - 1] else s[..n]] + Lines(s[n + 1..])
  }

  // ----- framing -----

  /** Any printed object, read back as a line, yields its event. */
  lemma ParsePrintedObject(members: seq<Member>)
    requires Printable(Object(members), DEPTH_LIMIT)
    ensures var line := Print(Object(members));
            ParseLine(line) == Some(EventOf(Object(members), line))
  {
    var line := Print(Object(members));
    assert line[0] == '{' && line[|line| - 1] == '}';
    assert TrimStart(line) == line && TrimEnd(line) == line;
    ValueRoundTrip(Object(members), [], DEPTH_LIMIT);
    assert line + [] == line;
  }

  /** A line ends at the first line feed, and loses one carriage return before it; the last line needs none. */
  lemma {:induction false} LineEnds(body: string, rest: string)
    requires forall i :: 0 <= i < |body| ==> body[i] != '\n'
    ensures Lines(body + "\n" + rest) ==
            [if body != [] && body[|body| - 1] == '\r' then body[..|body| - 1] else body] + Lines(rest)
    ensures Lines(body) == if body == [] then [] else [body]
  {
    var text := body + "\n" + rest;
    FirstFeed(body, "\n" + rest);
    FirstFeed(body, []);
    assert text == body + ("\n" + rest) && body + [] == body;
    assert text[..|body|] == body && text[|body| + 1..] == rest;
    assert |body| > 0 ==> text[|body| - 1] == body[|body| - 1] && text[..|body| - 1] == body[..|body| - 1];
  }

  lemma {:induction false} FirstFeed(body: string, rest: string)
    requires (forall i :: 0 <= i < |body| ==> body[i] != '\n') && (rest == [] || rest[0] == '\n')
    ensures FirstBreak(body + rest) == |body|
    decreases |body|
  {
    if body == [] {
      assert body + rest == rest;
    } else {
      assert (body + rest)[0] == body[0] && (body + rest)[1..] == body[1..] + rest;
      FirstFeed(body[1..], rest);
    }
  }

  function Written(values: seq<Value>): string {
    if values == [] then "" else Print(values[0]) + "\n" + Written(values[1..])
  }

  /** Writing any JSON values one a line and splitting the stream at line breaks gives back their
      texts: framing never depends on what is inside the strings. */
  lemma {:induction false} LinesOfWritten(values: seq<Value>)
    requires forall i :: 0 <= i < |values| ==> Printable(values[i], DEPTH_LIMIT)
    ensures |Lines(Written(values))| == |values|
    ensures forall i :: 0 <= i < |values| ==> Lines(Written(values))[i] == Print(values[i])
    decreases |values|
  {
    if values != [] {
      var body, rest := Print(values[0]), Written(values[1..]);
      var text := body + "\n" + rest;
      PrintIsVisible(values[0], DEPTH_LIMIT);
      LineEnds(body, rest);
      LinesOfWritten(values[1..]);
      assert Lines(text) == [body] + Lines(rest);
      FirstAndRest(values, body, Lines(rest), Lines(text));
    }
  }

  lemma FirstAndRest(values: seq<Value>, first: string, rest: seq<string>, lines: seq<string>)
    requires values != [] && first == Print(values[0]) && |rest| == |values| - 1 && lines == [first] + rest
    requires forall i :: 0 <= i < |values| - 1 ==> rest[i] == Print(values[1..][i])
    ensures forall i :: 0 <= i < |values| ==> lines[i] == Print(values[i])
  {
    forall i | 0 <= i < |values| ensures lines[i] == Print(values[i]) {
      if i > 0 { assert values[1..][i - 1] == values[i] && lines[i] == rest[i - 1]; }
    }
  }

  function Sent(prompts: seq<string>): string {
    if prompts == [] then "" else UserMessageLine(prompts[0]) + Sent(prompts[1..])
  }

  lemma {:induction false} SentIsWritten(prompts: seq<string>)
    ensures Sent(prompts) == Written(seq(|prompts|, i requires 0 <= i < |prompts| => UserMessage(prompts[i])))
    decreases |prompts|
  {
    var values := seq(|prompts|, i requires 0 <= i < |prompts| => UserMessage(prompts[i]));
    if prompts != [] {
      SentIsWritten(prompts[1..]);
      assert values[1..] == seq(|prompts[1..]|, i requires 0 <= i < |prompts[1..]| => UserMessage(prompts[1..][i]));
    }
  }

  lemma UserMessageIsToolResult(prompt: string, line: string)
    ensures Printable(UserMessage(prompt), DEPTH_LIMIT)
    ensures EventOf(UserMessage(prompt), line) == ToolResult(prompt)
  {
    var m := UserMessage(prompt);
    var inner := m.members[0].value;
    assert m.members[..1] == [m.members[0]] && inner.members[..1] == [inner.members[0]];
    assert Get(m, "type") == Some(String("user"));
    assert "message" != "type" && "content" != "role";
    assert Find([m.members[0]], "message") == Some(inner);
    assert Get(m, "message") == Some(inner);
    assert Find([inner.members[0]], "content") == Some(String(prompt));
    assert Get(inner, "content") == Some(String(prompt));
    assert Printable(inner, DEPTH_LIMIT - 1);
  }

  /** Framing round trip: however many prompts are written to a worker, and whatever characters they
      contain, reading the stream line by line gives back exactly those prompts in order. */
  lemma {:induction false} FramingRoundTrip(prompts: seq<string>)
    ensures |Lines(Sent(prompts))| == |prompts|
    ensures forall i :: 0 <= i < |prompts| ==> ParseLine(Lines(Sent(prompts))[i]) == Some(ToolResult(prompts[i]))
  {
    var values := seq(|prompts|, i requires 0 <= i < |prompts| => UserMessage(prompts[i]));
    forall i | 0 <= i < |prompts| ensures Printable(values[i], DEPTH_LIMIT) {
      UserMessageIsToolResult(prompts[i], "");
    }
    SentIsWritten(prompts);
    LinesOfWritten(values);
    forall i | 0 <= i < |prompts|
      ensures ParseLine(Lines(Sent(prompts))[i]) == Some(ToolResult(prompts[i]))
    {
      assert values[i] == UserMessage(prompts[i]);
      UserMessageIsToolResult(prompts[i], Print(values[i]));
      ParsePrintedObject(values[i].members);
    }
  }

  // ----- messages made of content blocks -----

  predicate DistinctKeys(members: seq<Member>) {
    forall i, j :: 0 <= i < j < |members| ==> members[i].key != members[j].key
  }

  lemma {:induction false} FindAt(members: seq<Member>, i: nat)
    requires i < |members| && DistinctKeys(members)
    ensures Find(members, members[i].key) == Some(members[i].value)
    decreases |members|
  {
    if i < |members| - 1 { FindAt(members[..|members| - 1], i); }
  }

  /** The content blocks of a message, as the agent prints them. */
  datatype Block =
    | TextBlock(text: string)
    | ToolUse(name: string, input: Value)
    | ToolOutput(content: string)
    | ToolParts(parts: seq<string>)

  function TextPart(text: string): Value { Object([Member("type", String("text")), Member("text", String(text))]) }

  function PartValues(parts: seq<string>): seq<Value> {
    if parts == [] then [] else [TextPart(parts[0])] + PartValues(parts[1..])
  }

  function BlockMembers(b: Block): seq<Member> {
    match b
    case TextBlock(text) => [Member("type", String("text")), Member("text", String(text))]
    case ToolUse(name, input) =>
      [Member("type", String("tool_use")), Member("name", String(name)), Member("input", input)]
    case ToolOutput(content) => [Member("type", String("tool_result")), Member("content", String(content))]
    case ToolParts(parts) => [Member("type", String("tool_result")), Member("content", Array(PartValues(parts)))]
  }

  function BlockValues(blocks: seq<Block>): seq<Value> {
    if blocks == [] then [] else [Object(BlockMembers(blocks[0]))] + BlockValues(blocks[1..])
  }

  function MessageMembers(kind: string, blocks: seq<Block>): seq<Member> {
    [Member("type", String(kind)),
     Member("message", Object([Member("role", String(kind)), Member("content", Array(BlockValues(blocks)))]))]
  }

  /** What a message says: the texts one after the other, and the tools it calls, in order. */
  function Says(b: Block): string {
    match b
    case TextBlock(text) => text
    case ToolUse(_, _) => ""
    case ToolOutput(content) => content
    case ToolParts(parts) => Joined(parts)
  }

  function Calls(b: Block): seq<string> { if b.ToolUse? then [b.name] else [] }

  function Said(blocks: seq<Block>): string { if blocks == [] then "" else Says(blocks[0]) + Said(blocks[1..]) }

  function Called(blocks: seq<Block>): seq<string> {
    if blocks == [] then [] else Calls(blocks[0]) + Called(blocks[1..])
  }

  lemma TwoMembers(a: Member, b: Member)
    requires a.key != b.key
    ensures Find([a, b], a.key) == Some(a.value) && Find([a, b], b.key) == Some(b.value)
  {
    FindAt([a, b], 0);
    FindAt([a, b], 1);
  }

  lemma {:induction false} PartsFlatten(parts: seq<string>)
    ensures FlattenItems(PartValues(parts)) == Joined(parts)
    decreases |parts|
  {
    if parts != [] {
      assert "type" != "text";
      TwoMembers(Member("type", String("text")), Member("text", String(parts[0])));
      PartsFlatten(parts[1..]);
      assert PartValues(parts)[1..] == PartValues(parts[1..]);
      JoinedFromFront(parts[0], parts[1..]);
      assert parts == [parts[0]] + parts[1..];
    }
  }

  lemma BlockSays(b: Block)
    ensures var v := Object(BlockMembers(b));
            BlockText(v) == Says(b) && BlockTools(v) == Calls(b)
  {
    var ms := BlockMembers(b);
    assert "type" != "text" && |"type"| == 4 && |"content"| == 7 && |"input"| == 5 && "type" != "name";
    assert DistinctKeys(ms);
    FindAt(ms, 0);
    FindAt(ms, 1);
    assert "text" != "tool_use" && "text" != "tool_result" && |"tool_use"| == 8 && |"tool_result"| == 11;
    if b.ToolParts? { PartsFlatten(b.parts); }
  }

  lemma {:induction false} TextsFromFront(v: Value, vs: seq<Value>)
    ensures Texts([v] + vs) == BlockText(v) + Texts(vs)
    decreases |vs|
  {
    var all := [v] + vs;
    if vs == [] {
      assert all[..0] == [] && all == [v];
    } else {
      var n := |vs| - 1;
      assert all[..|all| - 1] == [v] + vs[..n] && all[|all| - 1] == vs[n];
      TextsFromFront(v, vs[..n]);
      Associates(BlockText(v), Texts(vs[..n]), BlockText(vs[n]));
    }
  }

  lemma {:induction false} ToolsFromFront(v: Value, vs: seq<Value>)
    ensures Tools([v] + vs) == BlockTools(v) + Tools(vs)
    decreases |vs|
  {
    var all := [v] + vs;
    if vs == [] {
      assert all[..0] == [] && all == [v];
    } else {
      var n := |vs| - 1;
      assert all[..|all| - 1] == [v] + vs[..n] && all[|all| - 1] == vs[n];
      ToolsFromFront(v, vs[..n]);
      Associates(BlockTools(v), Tools(vs[..n]), BlockTools(vs[n]));
    }
  }

  lemma {:induction false} BlocksSay(blocks: seq<Block>)
    ensures Texts(BlockValues(blocks)) == Said(blocks) && Tools(BlockValues(blocks)) == Called(blocks)
    decreases |blocks|
  {
    if blocks != [] {
      var v := Object(BlockMembers(blocks[0]));
      TextsFromFront(v, BlockValues(blocks[1..]));
      ToolsFromFront(v, BlockValues(blocks[1..]));
      BlockSays(blocks[0]);
      BlocksSay(blocks[1..]);
    }
  }

  /** Tool inputs nest less deep than a reader tolerates inside a message. */
  predicate Readable(blocks: seq<Block>) {
    forall i :: 0 <= i < |blocks| && blocks[i].ToolUse? ==> Printable(blocks[i].input, DEPTH_LIMIT - 4)
  }

  lemma {:induction false} PartsPrintable(parts: seq<string>, depth: nat)
    requires depth > 1
    ensures forall i :: 0 <= i < |PartValues(parts)| ==> Printable(PartValues(parts)[i], depth)
    decreases |parts|
  {
    if parts != [] { PartsPrintable(parts[1..], depth); }
  }

  lemma {:induction false} BlocksPrintable(blocks: seq<Block>)
    requires Readable(blocks)
    ensures forall i :: 0 <= i < |BlockValues(blocks)| ==> Printable(BlockValues(blocks)[i], DEPTH_LIMIT - 3)
    decreases |blocks|
  {
    if blocks != [] {
      if blocks[0].ToolParts? { PartsPrintable(blocks[0].parts, DEPTH_LIMIT - 5); }
      assert Printable(Object(BlockMembers(blocks[0])), DEPTH_LIMIT - 3);
      BlocksPrintable(blocks[1..]);
    }
  }

  lemma MessagePrintable(kind: string, blocks: seq<Block>)
    requires Readable(blocks)
    ensures Printable(Object(MessageMembers(kind, blocks)), DEPTH_LIMIT)
  {
    BlocksPrintable(blocks);
    assert Printable(Array(BlockValues(blocks)), DEPTH_LIMIT - 2);
    assert Printable(MessageMembers(kind, blocks)[1].value, DEPTH_LIMIT - 1);
  }

  /** Any list of text, tool-call and tool-result blocks, printed as an assistant's or a user's message and
      read back as a line, yields all its texts joined in order and exactly the tools it calls, in order. */
  lemma MessageRoundTrip(blocks: seq<Block>)
    requires Readable(blocks)
    ensures ParseLine(Print(Object(MessageMembers("assistant", blocks)))) ==
            Some(Assistant(Said(blocks), Called(blocks)))
    ensures ParseLine(Print(Object(MessageMembers("user", blocks)))) == Some(ToolResult(Said(blocks)))
  {
    MessageSays("assistant", blocks);
    MessageSays("user", blocks);
    ParsePrintedObject(MessageMembers("assistant", blocks));
    ParsePrintedObject(MessageMembers("user", blocks));
    EventOfMessage(Object(MessageMembers("assistant", blocks)), Print(Object(MessageMembers("assistant", blocks))));
    EventOfMessage(Object(MessageMembers("user", blocks)), Print(Object(MessageMembers("user", blocks))));
  }

  lemma EventOfMessage(v: Value, line: string)
    ensures GetStr(v, "type") == Some("assistant") ==>
              EventOf(v, line) == Assistant(MessageContent(v).0, MessageContent(v).1)
    ensures GetStr(v, "type") == Some("user") ==> EventOf(v, line) == ToolResult(MessageContent(v).0)
  {
    assert |"assistant"| == 9 && |"user"| == 4 && |"system"| == 6;
  }

  lemma MessageSays(kind: string, blocks: seq<Block>)
    requires Readable(blocks)
    ensures var ms := MessageMembers(kind, blocks);
            && Printable(Object(ms), DEPTH_LIMIT)
            && GetStr(Object(ms), "type") == Some(kind)
            && MessageContent(Object(ms)) == (Said(blocks), Called(blocks))
  {
    var ms := MessageMembers(kind, blocks);
    MessagePrintable(kind, blocks);
    assert |"type"| == 4 && |"message"| == 7 && |"role"| == 4 && |"content"| == 7;
    TwoMembers(ms[0], ms[1]);
    TwoMembers(ms[1].value.members[0], ms[1].value.members[1]);
    BlocksSay(blocks);
  }

  // ----- results carry their counters -----

  function Digits(n: nat): string {
    if n < 10 then [('0' as int + n) as char] else Digits(n / 10) + [('0' as int + n % 10) as char]
  }

  predicate AllDigits(s: string) { forall i :: 0 <= i < |s| ==> IsDigit(s[i]) }

  lemma {:induction false} DigitsRoundTrip(n: nat)
    ensures AllDigits(Digits(n)) && Digits(n) != [] && Decimal(Digits(n)) == n
    ensures Digits(n)[0] == '0' ==> |Digits(n)| == 1
    ensures n > 0 ==> Digits(n)[0] != '0'
  {
    if n >= 10 {
      DigitsRoundTrip(n / 10);
      var s := Digits(n);
      assert s[..|s| - 1] == Digits(n / 10);
    } else {
      assert Digits(n)[..0] == [];
    }
  }

  lemma {:induction false} DigitsSpan(s: string)
    requires AllDigits(s)
    ensures Span(s, IsDigit) == |s| && Span(s, IsNumberChar) == |s|
    decreases |s|
  {
    if s != [] { DigitsSpan(s[1..]); }
  }

  lemma DigitsAreNumber(n: nat)
    ensures Printable(Number(Digits(n)), 1)
    ensures n < U64 ==> AsU64(Number(Digits(n))) == Some(n)
  {
    DigitsRoundTrip(n);
    DigitsSpan(Digits(n));
  }

  function UsageMembers(u: TokenUsage): seq<Member> {
    [Member("input_tokens", Number(Digits(u.input))),
     Member("output_tokens", Number(Digits(u.output))),
     Member("cache_creation_input_tokens", Number(Digits(u.cacheCreation))),
     Member("cache_read_input_tokens", Number(Digits(u.cacheRead)))]
  }

  /** The end-of-turn message as the agent prints it. */
  function ResultMembers(isError: bool, answer: string, usage: TokenUsage, turns: nat): seq<Member> {
    [Member("type", String("result")),
     Member("is_error", Bool(isError)),
     Member("result", String(answer)),
     Member("num_turns", Number(Digits(turns))),
     Member("usage", Object(UsageMembers(usage)))]
  }

  lemma CounterIs(members: seq<Member>, i: nat, n: nat)
    requires i < |members| && DistinctKeys(members) && members[i].value == Number(Digits(n)) && n < U64
    ensures GetU64(Object(members), members[i].key) == Some(n) && Counter(Object(members), members[i].key) == n
  {
    FindAt(members, i);
    DigitsAreNumber(n);
  }

  lemma UsageKeysDiffer(u: TokenUsage)
    ensures DistinctKeys(UsageMembers(u))
  {
    assert |"input_tokens"| == 12 && |"output_tokens"| == 13;
    assert |"cache_creation_input_tokens"| == 27 && |"cache_read_input_tokens"| == 23;
  }

  /** Each counter lands in its own field. */
  lemma UsageRoundTrip(u: TokenUsage)
    requires Fits(u)
    ensures ParseUsage(Object(UsageMembers(u))) == u
  {
    UsageKeysDiffer(u);
    CounterIs(UsageMembers(u), 0, u.input);
    CounterIs(UsageMembers(u), 1, u.output);
    CounterIs(UsageMembers(u), 2, u.cacheCreation);
    CounterIs(UsageMembers(u), 3, u.cacheRead);
  }

  lemma ResultKeysDiffer(isError: bool, answer: string, usage: TokenUsage, turns: nat)
    ensures DistinctKeys(ResultMembers(isError, answer, usage, turns))
  {
    assert |"type"| == 4 && |"is_error"| == 8 && |"result"| == 6 && |"num_turns"| == 9 && |"usage"| == 5;
  }

  lemma ResultIsPrintable(isError: bool, answer: string, usage: TokenUsage, turns: nat)
    ensures Printable(Object(ResultMembers(isError, answer, usage, turns)), DEPTH_LIMIT)
  {
    DigitsAreNumber(turns);
    UsageIsPrintable(usage, DEPTH_LIMIT - 1);
  }

  lemma UsageIsPrintable(usage: TokenUsage, depth: nat)
    requires depth > 1
    ensures Printable(Object(UsageMembers(usage)), depth)
  {
    DigitsAreNumber(usage.input);
    DigitsAreNumber(usage.output);
    DigitsAreNumber(usage.cacheCreation);
    DigitsAreNumber(usage.cacheRead);
  }

  lemma NoSessionId(isError: bool, answer: string, usage: TokenUsage, turns: nat)
    ensures Find(ResultMembers(isError, answer, usage, turns), "session_id") == None
  {
    var ms := ResultMembers(isError, answer, usage, turns);
    forall i | 0 <= i < |ms| ensures ms[i].key != "session_id" {
      assert |"session_id"| == 10 && |ms[i].key| < 10;
    }
    FindNone(ms, "session_id");
  }

  lemma {:induction false} FindNone(members: seq<Member>, key: string)
    requires forall i :: 0 <= i < |members| ==> members[i].key != key
    ensures Find(members, key) == None
    decreases |members|
  {
    if members != [] { FindNone(members[..|members| - 1], key); }
  }

  /** A result line yields its error flag, its text, all four counters, and its turn count cut to 32 bits. */
  lemma ResultRoundTrip(isError: bool, answer: string, usage: TokenUsage, turns: nat)
    requires Fits(usage) && turns < U64
    ensures ParseLine(Print(Object(ResultMembers(isError, answer, usage, turns)))) ==
            Some(Result(isError, Some(answer), usage, Some(turns % 0x1_0000_0000), None))
  {
    var ms := ResultMembers(isError, answer, usage, turns);
    ResultSays(isError, answer, usage, turns, Print(Object(ms)));
    ResultIsPrintable(isError, answer, usage, turns);
    ParsePrintedObject(ms);
  }

  lemma ResultSays(isError: bool, answer: string, usage: TokenUsage, turns: nat, line: string)
    requires Fits(usage) && turns < U64
    ensures EventOf(Object(ResultMembers(isError, answer, usage, turns)), line) ==
            Result(isError, Some(answer), usage, Some(turns % 0x1_0000_0000), None)
  {
    var ms := ResultMembers(isError, answer, usage, turns);
    ResultKeysDiffer(isError, answer, usage, turns);
    FindAt(ms, 0);
    FindAt(ms, 1);
    FindAt(ms, 2);
    FindAt(ms, 4);
    CounterIs(ms, 3, turns);
    NoSessionId(isError, answer, usage, turns);
    UsageRoundTrip(usage);
  }

  // ----- every kind of line, field by field -----

  lemma {:induction false} FindIff(members: seq<Member>, key: string, value: Value)
    requires DistinctKeys(members)
    ensures Find(members, key) == Some(value) <==> Member(key, value) in members
    decreases |members|
  {
    if members != [] {
      var front, last := members[..|members| - 1], members[|members| - 1];
      FindIff(front, key, value);
      assert members == front + [last];
      forall i | 0 <= i < |front| ensures front[i].key != last.key { assert members[i] == front[i]; }
    }
  }

  lemma StringFieldIff(members: seq<Member>, key: string, s: string)
    requires DistinctKeys(members)
    ensures GetStr(Object(members), key) == Some(s) <==> Member(key, String(s)) in members
  {
    FindIff(members, key, String(s));
  }

  /** An optional text of an event is the string member of that name, and absent otherwise. */
  predicate FieldIs(members: seq<Member>, key: string, field: Option<string>) {
    if field.Some? then Member(key, String(field.value)) in members
    else forall m :: m in members && m.key == key ==> !m.value.String?
  }

  lemma FieldRead(members: seq<Member>, key: string)
    requires DistinctKeys(members)
    ensures FieldIs(members, key, GetStr(Object(members), key))
  {
    var field := GetStr(Object(members), key);
    if field.Some? {
      StringFieldIff(members, key, field.value);
    } else {
      forall m | m in members && m.key == key ensures !m.value.String? {
        FindIff(members, key, m.value);
        assert m == Member(key, m.value);
      }
    }
  }

  lemma KindIs(members: seq<Member>, kind: string)
    requires DistinctKeys(members) && Member("type", String(kind)) in members
    ensures StrOr(GetStr(Object(members), "type"), "unknown") == kind
  {
    StringFieldIff(members, "type", kind);
  }

  /** The handshake carries the agent's session id, its model and its directory, each in its own field. */
  lemma InitFields(members: seq<Member>, line: string)
    requires DistinctKeys(members) && Member("type", String("system")) in members
    requires Member("subtype", String("init")) in members
    ensures var e := EventOf(Object(members), line);
            && e.Init? && FieldIs(members, "session_id", e.sessionId)
            && FieldIs(members, "model", e.model) && FieldIs(members, "cwd", e.cwd)
  {
    KindIs(members, "system");
    StringFieldIff(members, "subtype", "init");
    FieldRead(members, "session_id");
    FieldRead(members, "model");
    FieldRead(members, "cwd");
  }

  /** Any other system line carries its subtype and its own text, cut to 400 characters. */
  lemma SystemFields(members: seq<Member>, subtype: string, line: string)
    requires DistinctKeys(members) && Member("type", String("system")) in members
    requires Member("subtype", String(subtype)) in members && subtype != "init"
    ensures var e := EventOf(Object(members), line);
            && e.System? && e.subtype == subtype
            && e.text <= line && |e.text| == if |line| <= 400 then |line| else 400
  {
    KindIs(members, "system");
    StringFieldIff(members, "subtype", subtype);
  }

  /** A partial message yields a text if and only if it has a text delta with just that text, not empty. */
  lemma DeltaFields(members: seq<Member>, event: seq<Member>, delta: seq<Member>, text: string, line: string)
    requires DistinctKeys(members) && DistinctKeys(event) && DistinctKeys(delta)
    requires Member("type", String("stream_event")) in members && Member("event", Object(event)) in members
    requires Member("delta", Object(delta)) in event
    ensures var e := EventOf(Object(members), line);
            && (e == TextDelta(text) <==>
                  text != "" && Member("type", String("text_delta")) in delta && Member("text", String(text)) in delta)
            && (e.TextDelta? || e == Other("stream_event"))
  {
    KindIs(members, "stream_event");
    FindIff(members, "event", Object(event));
    FindIff(event, "delta", Object(delta));
    StringFieldIff(delta, "type", "text_delta");
    StringFieldIff(delta, "text", text);
    StreamEventSays(Object(members), line);
  }

  lemma StreamEventSays(v: Value, line: string)
    requires GetStr(v, "type") == Some("stream_event")
    ensures EventOf(v, line) == if DeltaText(v) == "" then Other("stream_event") else TextDelta(DeltaText(v))
  {
    assert |"stream_event"| == 12 && |"system"| == 6 && |"assistant"| == 9 && |"user"| == 4;
  }

  /** A result is an error exactly if it says so; its answer, counters, turn count and session id are those
      of their members, and absent or zero without them. */
  lemma ResultFields(members: seq<Member>, line: string)
    requires DistinctKeys(members) && Member("type", String("result")) in members
    ensures var e := EventOf(Object(members), line);
            && e.Result? && (e.isError <==> Member("is_error", Bool(true)) in members)
            && FieldIs(members, "result", e.answer) && FieldIs(members, "session_id", e.sessionId)
            && (forall u :: Fits(u) && Member("usage", Object(UsageMembers(u))) in members ==> e.usage == u)
            && ((forall m :: m in members ==> m.key != "usage") ==> e.usage == TokenUsage(0, 0, 0, 0))
            && (forall n: nat :: n < U64 && Member("num_turns", Number(Digits(n))) in members ==>
                  e.numTurns == Some(n % 0x1_0000_0000))
            && ((forall m :: m in members ==> m.key != "num_turns") ==> e.numTurns == None)
  {
    var e := EventOf(Object(members), line);
    KindIs(members, "result");
    assert |"result"| == 6 && "result" != "system" && |"assistant"| == 9 && |"user"| == 4 && |"stream_event"| == 12;
    FindIff(members, "is_error", Bool(true));
    FieldRead(members, "result");
    FieldRead(members, "session_id");
    ResultUsage(members, e.usage);
    ResultTurns(members);
  }

  lemma ResultUsage(members: seq<Member>, usage: TokenUsage)
    requires DistinctKeys(members)
    requires usage == match Get(Object(members), "usage") case Some(u) => ParseUsage(u) case None => NO_TOKENS
    ensures forall u :: Fits(u) && Member("usage", Object(UsageMembers(u))) in members ==> usage == u
    ensures (forall m :: m in members ==> m.key != "usage") ==> usage == TokenUsage(0, 0, 0, 0)
  {
    forall u | Fits(u) && Member("usage", Object(UsageMembers(u))) in members ensures usage == u {
      FindIff(members, "usage", Object(UsageMembers(u)));
      UsageRoundTrip(u);
    }
    if forall m :: m in members ==> m.key != "usage" { FindNone(members, "usage"); }
  }

  lemma ResultTurns(members: seq<Member>)
    requires DistinctKeys(members)
    ensures forall n: nat :: n < U64 && Member("num_turns", Number(Digits(n))) in members ==>
              GetU64(Object(members), "num_turns") == Some(n)
    ensures (forall m :: m in members ==> m.key != "num_turns") ==> GetU64(Object(members), "num_turns") == None
  {
    forall n: nat | n < U64 && Member("num_turns", Number(Digits(n))) in members
      ensures GetU64(Object(members), "num_turns") == Some(n)
    {
      FindIff(members, "num_turns", Number(Digits(n)));
      DigitsAreNumber(n);
    }
    if forall m :: m in members ==> m.key != "num_turns" { FindNone(members, "num_turns"); }
  }

  /** Any other kind of line is kept by its name. */
  lemma OtherKinds(members: seq<Member>, line: string)
    requires DistinctKeys(members)
    ensures forall kind ::
              (kind !in {"system", "assistant", "user", "stream_event", "result"}
               && Member("type", String(kind)) in members) ==> EventOf(Object(members), line) == Other(kind)
    ensures (forall m :: m in members ==> m.key != "type") ==> EventOf(Object(members), line) == Other("unknown")
  {
    forall kind | kind !in {"system", "assistant", "user", "stream_event", "result"}
                  && Member("type", String(kind)) in members
      ensures EventOf(Object(members), line) == Other(kind)
    {
      KindIs(members, kind);
    }
    if forall m :: m in members ==> m.key != "type" {
      FindNone(members, "type");
      assert |"unknown"| == 7 && |"system"| == 6 && |"assistant"| == 9 && |"user"| == 4;
      assert |"stream_event"| == 12 && |"result"| == 6;
    }
  }

  /** What the agent reads on its stdin: one line, a user's message in the role of the user. */
  lemma PromptIsUserTurn(prompt: string)
    ensures var line := UserMessageLine(prompt);
            && line[|line| - 1] == '\n' && (forall i :: 0 <= i < |line| - 1 ==> line[i] >= ' ')
            && Parse(line[..|line| - 1]).Ok?
            && var v := Parse(line[..|line| - 1]).value;
            && v.Object? && GetStr(v, "type") == Some("user") && |v.members| == 2
            && Get(v, "message").Some?
            && GetStr(Get(v, "message").value, "role") == Some("user")
            && GetStr(Get(v, "message").value, "content") == Some(prompt)
  {
    var v := UserMessage(prompt);
    var line := UserMessageLine(prompt);
    assert line[..|line| - 1] == Print(v);
    UserMessageIsToolResult(prompt, "");
    PrintIsVisible(v, DEPTH_LIMIT);
    ParsesBack(v);
    PromptFields(prompt);
  }

  lemma ParsesBack(v: Value)
    requires Printable(v, DEPTH_LIMIT)
    ensures Parse(Print(v)) == Ok(v, [])
  {
    ValueRoundTrip(v, [], DEPTH_LIMIT);
    assert Print(v) + [] == Print(v);
  }

  lemma PromptFields(prompt: string)
    ensures var v := UserMessage(prompt);
            && v.Object? && GetStr(v, "type") == Some("user") && |v.members| == 2
            && Get(v, "message").Some?
            && GetStr(Get(v, "message").value, "role") == Some("user")
            && GetStr(Get(v, "message").value, "content") == Some(prompt)
  {
    var v := UserMessage(prompt);
    assert |"type"| == 4 && |"message"| == 7 && |"role"| == 4 && |"content"| == 7;
    TwoMembers(v.members[0], v.members[1]);
    TwoMembers(v.members[0].value.members[0], v.members[0].value.members[1]);
  }

  // ----- white space around a line -----

  /** The characters Unicode counts as white space. */
  const WHITE_SPACE: set<char> := {
    '\U{0009}', '\U{000A}', '\U{000B}', '\U{000C}', '\U{000D}', '\U{0020}', '\U{0085}', '\U{00A0}', '\U{1680}',
    '\U{2000}', '\U{2001}', '\U{2002}', '\U{2003}', '\U{2004}', '\U{2005}', '\U{2006}', '\U{2007}', '\U{2008}',
    '\U{2009}', '\U{200A}', '\U{2028}', '\U{2029}', '\U{202F}', '\U{205F}', '\U{3000}'}

  predicate AllWhite(s: string) { forall i :: 0 <= i < |s| ==> s[i] in WHITE_SPACE }

  lemma WhiteIsWhite(c: char)
    ensures IsWhite(c) <==> c in WHITE_SPACE
  {}

  lemma {:induction false} TrimsFront(a: string, s: string)
    requires AllWhite(a)
    ensures TrimStart(a + s) == TrimStart(s)
    decreases |a|
  {
    if a == [] {
      assert a + s == s;
    } else {
      assert (a + s)[0] == a[0] && (a + s)[1..] == a[1..] + s;
      WhiteIsWhite(a[0]);
      TrimsFront(a[1..], s);
    }
  }

  lemma {:induction false} TrimsBack(s: string, b: string)
    requires AllWhite(b)
    ensures TrimEnd(s + b) == TrimEnd(s)
    decreases |b|
  {
    if b == [] {
      assert s + b == s;
    } else {
      var n := |b| - 1;
      assert (s + b)[|s + b| - 1] == b[n] && (s + b)[..|s + b| - 1] == s + b[..n];
      WhiteIsWhite(b[n]);
      TrimsBack(s, b[..n]);
    }
  }

  /** White space around a printed object changes nothing, and a line of white space alone says nothing. */
  lemma WhiteSpaceIsIgnored(a: string, members: seq<Member>, b: string)
    requires AllWhite(a) && AllWhite(b) && Printable(Object(members), DEPTH_LIMIT)
    ensures ParseLine(a + Print(Object(members)) + b) == ParseLine(Print(Object(members)))
    ensures ParseLine(a) == None
  {
    var line := Print(Object(members));
    assert line[0] == '{' && line[|line| - 1] == '}';
    assert a + line + b == a + (line + b);
    TrimsFront(a, line + b);
    assert (line + b)[0] == line[0];
    assert TrimStart(line + b) == line + b && TrimStart(line) == line;
    TrimsBack(line, b);
    TrimsFront(a, []);
    assert a + [] == a;
  }
}
