/** Chat Completions messages as clients write them: whatever way a message list is written, it is read back exactly. */
module ChatPrinting {
  import opened Wrappers
  import opened Json
  import opened ChatModel
  import opened ChatCompletions

  datatype PartKind = TextKind | InputKind | OutputKind

  datatype TextPart = TextPart(kind: PartKind, text: string)

  datatype Content = Plain(text: string) | Parts(parts: seq<TextPart>) | NullContent | NoContent

  function Together(parts: seq<TextPart>): string {
    if parts == [] then "" else Together(parts[..|parts| - 1]) + parts[|parts| - 1].text
  }

  /** The text a content spells, if it spells one. */
  function Spoken(content: Content): Option<string> {
    match content
    case Plain(text) => Some(text)
    case Parts(parts) => Some(Together(parts))
    case NullContent => None
    case NoContent => None
  }

  function KindName(kind: PartKind): string {
    match kind
    case TextKind => "text"
    case InputKind => "input_text"
    case OutputKind => "output_text"
  }

  function PartJson(part: TextPart): Value {
    Obj(map["type" := Str(KindName(part.kind)), "text" := Str(part.text)])
  }

  function PartsJson(parts: seq<TextPart>): (values: seq<Value>)
    ensures |values| == |parts|
  {
    if parts == [] then [] else PartsJson(parts[..|parts| - 1]) + [PartJson(parts[|parts| - 1])]
  }

  function ContentJson(content: Content): Option<Value> {
    match content
    case Plain(text) => Some(Str(text))
    case Parts(parts) => Some(Arr(PartsJson(parts)))
    case NullContent => Some(Null)
    case NoContent => None
  }

  function RoleName(role: Role): string {
    match role
    case System => "system"
    case Developer => "developer"
    case User => "user"
    case Assistant => "assistant"
    case Tool => "tool"
  }

  /** How a message is written: its content, and whether an empty list of calls is written out. */
  datatype Style = Style(content: Content, emptyCalls: bool)

  /** Only an assistant turn can be without a text; other roles may write an empty one as no content. */
  predicate Suits(style: Style, m: Message) {
    if m.role.Assistant? then Spoken(style.content) == m.content
    else m.content == Some(Spoken(style.content).GetOr(""))
  }

  predicate Printable(m: Message) {
    if m.role.Assistant? then m.toolCallId.None?
    else m.content.Some? && m.reasoning.None? && m.toolCalls == [] && (m.toolCallId.Some? <==> m.role.Tool?)
  }

  function With(fields: map<string, Value>, key: string, value: Option<Value>): map<string, Value> {
    if value.Some? then fields[key := value.value] else fields
  }

  function OptionStr(text: Option<string>): Option<Value> { if text.Some? then Some(Str(text.value)) else None }

  function CallsMember(codec: Codec, m: Message, style: Style): Option<Value> {
    if m.toolCalls != [] || style.emptyCalls then Some(Arr(CallsJson(WireAll(codec, m.toolCalls)))) else None
  }

  function Print(codec: Codec, m: Message, style: Style): Value {
    var said := With(map["role" := Str(RoleName(m.role))], "content", ContentJson(style.content));
    Obj(match m.role
        case Tool => With(said, "tool_call_id", OptionStr(m.toolCallId))
        case Assistant =>
          With(With(said, "reasoning_content", OptionStr(m.reasoning)), "tool_calls", CallsMember(codec, m, style))
        case _ => said)
  }

  // ---------------------------------------------------------------- one message reads back

  lemma PartMembers(part: TextPart)
    ensures GetStr(PartJson(part), "type") == Some(KindName(part.kind))
    ensures GetStr(PartJson(part), "text") == Some(part.text)
  {
    hide KindName;
  }

  lemma {:induction false} PartsReadBack(parts: seq<TextPart>)
    ensures ParseParts(PartsJson(parts)) == Ok(Together(parts))
  {
    if parts != [] {
      var front, last := parts[..|parts| - 1], parts[|parts| - 1];
      PartsReadBack(front);
      assert PartsJson(parts)[..|parts| - 1] == PartsJson(front);
      hide PartJson, GetStr;
      PartMembers(last);
    }
  }

  lemma ContentReadsBack(content: Content)
    ensures ParseContent(ContentJson(content)) == Ok(Spoken(content))
  {
    if content.Parts? { PartsReadBack(content.parts); }
  }

  lemma SaidMembers(codec: Codec, m: Message, style: Style)
    ensures
      var v := Print(codec, m, style);
      GetStr(v, "role") == Some(RoleName(m.role)) && Get(v, "content") == ContentJson(style.content)
  {
    hide RoleName, ContentJson, CallsMember;
  }

  lemma OtherMembers(codec: Codec, m: Message, style: Style)
    ensures
      var v := Print(codec, m, style);
      && (m.role.Tool? ==> GetStr(v, "tool_call_id") == m.toolCallId)
      && (m.role.Assistant? ==>
           && GetStr(v, "reasoning_content") == m.reasoning
           && Get(v, "tool_calls") == CallsMember(codec, m, style))
  {
    hide RoleName, ContentJson, CallsMember;
  }

  lemma CallsReadBack(codec: Codec, m: Message, style: Style)
    ensures
      var read := ReadCalls(codec, WireAll(codec, m.toolCalls));
      ParseToolCalls(codec, match CallsMember(codec, m, style) case Some(Arr(values)) => values case _ => [])
      == if read.Ok? then Ok(read.value) else Err(BadArguments(read.error))
  {
    ReadCallsJson(codec, WireAll(codec, m.toolCalls));
    if m.toolCalls == [] { NoCalls(codec); }
  }

  /** Whatever way a message is written, its role, text, call id, reasoning and calls are read back, the calls decoded;
      only a call whose arguments are no object can fail. */
  lemma MessageReadsBack(codec: Codec, m: Message, style: Style)
    requires Printable(m) && Suits(style, m)
    ensures
      var read := ReadCalls(codec, WireAll(codec, m.toolCalls));
      ParseMessage(codec, Print(codec, m, style))
      == if read.Ok? then Ok(m.(toolCalls := read.value)) else Err(BadArguments(read.error))
  {
    if m.toolCalls == [] { NoCalls(codec); }
    hide Print, ParseContent, ContentJson, GetStr, ReadCalls, WireAll, ParseToolCalls, CallsMember;
    SaidMembers(codec, m, style);
    OtherMembers(codec, m, style);
    ContentReadsBack(style.content);
    CallsReadBack(codec, m, style);
  }

  // ---------------------------------------------------------------- whole message lists

  predicate AllPrintable(messages: seq<Message>, styles: seq<Style>) {
    && |styles| == |messages|
    && forall i :: 0 <= i < |messages| ==> Printable(messages[i]) && Suits(styles[i], messages[i])
  }

  function Written(codec: Codec, messages: seq<Message>, styles: seq<Style>): (values: seq<Value>)
    requires |styles| == |messages|
    ensures |values| == |messages|
  {
    if messages == [] then []
    else
      var n := |messages| - 1;
      Written(codec, messages[..n], styles[..n]) + [Print(codec, messages[n], styles[n])]
  }

  predicate CallsRoundTrip(codec: Codec, m: Message) {
    forall call :: call in m.toolCalls ==> codec.RoundTrips(call.arguments)
  }

  /** A message is read back as itself exactly if its calls survive. */
  lemma MessageExact(codec: Codec, m: Message, style: Style)
    requires Printable(m) && Suits(style, m)
    ensures ParseMessage(codec, Print(codec, m, style)) == Ok(m) <==> CallsRoundTrip(codec, m)
  {
    MessageReadsBack(codec, m, style);
    CallsSurvive(codec, m.toolCalls);
    hide ParseMessage, Print, Suits, ReadCalls, WireAll;
    var read := ReadCalls(codec, WireAll(codec, m.toolCalls));
    if read.Ok? { assert m.(toolCalls := read.value) == m <==> read.value == m.toolCalls; }
  }

  lemma NoMessages(codec: Codec)
    ensures ParseMessages(codec, []) == Ok([])
  {
  }

  lemma ParseOneMore(codec: Codec, values: seq<Value>, value: Value)
    ensures
      ParseMessages(codec, values + [value]) ==
        var before, parsed := ParseMessages(codec, values), ParseMessage(codec, value);
        if before.Err? then before else if parsed.Err? then Err(parsed.error)
        else Ok(before.value + [parsed.value])
  {
    hide ParseMessage;
    assert (values + [value])[..|values|] == values;
  }

  /** Any list of messages, written in any style, message by message, is read back as that list if and only if the
      arguments of its calls survive being written as text. */
  lemma {:induction false} MessagesReadBack(codec: Codec, messages: seq<Message>, styles: seq<Style>)
    requires AllPrintable(messages, styles)
    ensures
      ParseMessages(codec, Written(codec, messages, styles)) == Ok(messages)
      <==> forall m :: m in messages ==> CallsRoundTrip(codec, m)
  {
    hide ParseMessage, ParseMessages, Print, Printable, Suits, CallsRoundTrip;
    if messages == [] {
      NoMessages(codec);
    } else {
      var n := |messages| - 1;
      var front, last := messages[..n], messages[n];
      MessagesReadBack(codec, front, styles[..n]);
      MessageExact(codec, last, styles[n]);
      assert messages == front + [last];
      var values, value := Written(codec, front, styles[..n]), Print(codec, last, styles[n]);
      ParseOneMore(codec, values, value);
      var before, parsed := ParseMessages(codec, values), ParseMessage(codec, value);
      if before.Ok? && parsed.Ok? { SameSnoc(before.value, parsed.value, front, last); }
      assert (forall m :: m in messages ==> CallsRoundTrip(codec, m))
          <==> (forall m :: m in front ==> CallsRoundTrip(codec, m)) && CallsRoundTrip(codec, last);
    }
  }
}
