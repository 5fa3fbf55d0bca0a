/** Histories as clients write them: whatever way a message list is written, it is read back exactly. */
module HistoryPrinting {
  import opened Wrappers
  import opened Json
  import opened ChatModel
  import opened History

  // ---------------------------------------------------------------- ways to write a text

  /** Text parts are tagged by who wrote them; a reader does not care. */
  datatype TextPart = TextPart(byModel: bool, text: string)

  /** A message's content: a string, a list of text parts, `null`, or no such member at all. */
  datatype Content = Plain(text: string) | Parts(parts: seq<TextPart>) | NullContent | NoContent

  function Together(parts: seq<TextPart>): string {
    if parts == [] then "" else Together(parts[..|parts| - 1]) + parts[|parts| - 1].text
  }

  function Spoken(content: Content): string {
    match content
    case Plain(text) => text
    case Parts(parts) => Together(parts)
    case NullContent => ""
    case NoContent => ""
  }

  function PartJson(part: TextPart): Value {
    Obj(map["type" := Str(if part.byModel then "output_text" else "input_text"), "text" := Str(part.text)])
  }

  function PartsJson(parts: seq<TextPart>): (values: seq<Value>)
    ensures |values| == |parts|
  {
    if parts == [] then [] else PartsJson(parts[..|parts| - 1]) + [PartJson(parts[|parts| - 1])]
  }

  function ContentJson(content: Content): Option<Value> {
    match content
    case Plain(text) => Some(Str(text))
    case Parts(parts) => Some(Arr(PartsJson(parts)))
    case NullContent => Some(Null)
    case NoContent => None
  }

  function RoleName(role: Role): string {
    match role
    case System => "system"
    case Developer => "developer"
    case User => "user"
    case Assistant => "assistant"
    case Tool => "tool"
  }

  function Thoughts(parts: seq<string>): string {
    if parts == [] then "" else Thoughts(parts[..|parts| - 1]) + parts[|parts| - 1]
  }

  function SummaryJson(parts: seq<string>): (values: seq<Value>)
    ensures |values| == |parts|
  {
    if parts == [] then []
    else
      SummaryJson(parts[..|parts| - 1])
      + [Obj(map["type" := Str("summary_text"), "text" := Str(parts[|parts| - 1])])]
  }

  // ---------------------------------------------------------------- input items

  /** One input item. A message may leave out its `type`. */
  datatype Entry =
    | Speech(typed: bool, role: Role, content: Content)
    | ToolSpeech(typed: bool, callId: string, content: Content)
    | FunctionOutput(callId: string, output: Value)
    | FunctionCall(call: ToolCall)
    | Thinking(summary: seq<string>)

  function WithContent(fields: map<string, Value>, content: Content): map<string, Value> {
    var json := ContentJson(content);
    if json.Some? then fields["content" := json.value] else fields
  }

  function WithType(fields: map<string, Value>, typed: bool): map<string, Value> {
    if typed then fields["type" := Str("message")] else fields
  }

  function EntryJson(codec: Codec, entry: Entry): Value {
    match entry
    case Speech(typed, role, content) =>
      Obj(WithType(WithContent(map["role" := Str(RoleName(role))], content), typed))
    case ToolSpeech(typed, callId, content) =>
      Obj(WithType(WithContent(map["role" := Str("tool"), "tool_call_id" := Str(callId)], content), typed))
    case FunctionOutput(callId, output) =>
      Obj(map["type" := Str("function_call_output"), "call_id" := Str(callId), "output" := output])
    case FunctionCall(call) =>
      Obj(map["type" := Str("function_call"), "call_id" := Str(call.id), "name" := Str(call.name),
              "arguments" := Str(codec.write(Obj(call.arguments)))])
    case Thinking(summary) => Obj(map["type" := Str("reasoning"), "summary" := Arr(SummaryJson(summary))])
  }

  /** What an item contributes to the history it stands in. A tool result that is not a string is shown as JSON text. */
  function PieceOf(codec: Codec, entry: Entry): Result<Piece, InputError> {
    match entry
    case Speech(_, role, content) =>
      Ok(if role.Assistant? then Said(Spoken(content)) else Boundary(TextMessage(role, Spoken(content))))
    case ToolSpeech(_, callId, content) => Ok(Boundary(ToolMessage(callId, Spoken(content))))
    case FunctionOutput(callId, output) =>
      Ok(Boundary(ToolMessage(callId, if output.Str? then output.s else codec.write(output))))
    case FunctionCall(call) =>
      (match codec.readObject(codec.write(Obj(call.arguments)))
       case Some(arguments) => Ok(Called(ToolCall(call.id, call.name, arguments)))
       case None => Err(BadArguments(call.name)))
    case Thinking(summary) =>
      Ok(if Thoughts(summary) == "" then Silent else Thought(Thoughts(summary)))
  }

  // ---------------------------------------------------------------- every item reads back

  lemma {:induction false} PartsReadBack(parts: seq<TextPart>)
    ensures ParseParts(PartsJson(parts)) == Ok(Together(parts))
  {
    if parts != [] {
      var front, last := parts[..|parts| - 1], parts[|parts| - 1];
      PartsReadBack(front);
      assert PartsJson(parts)[..|parts| - 1] == PartsJson(front);
      PartMembers(last);
    }
  }

  lemma PartMembers(part: TextPart)
    ensures GetStr(PartJson(part), "type") == Some(if part.byModel then "output_text" else "input_text")
    ensures GetStr(PartJson(part), "text") == Some(part.text)
  {
  }

  lemma {:induction false} SummaryReadsBack(parts: seq<string>)
    ensures ParseSummary(SummaryJson(parts)) == Ok(Thoughts(parts))
  {
    if parts != [] {
      var front, last := parts[..|parts| - 1], parts[|parts| - 1];
      SummaryReadsBack(front);
      assert SummaryJson(parts)[..|parts| - 1] == SummaryJson(front);
      var part := SummaryJson(parts)[|parts| - 1];
      assert GetStr(part, "type") == Some("summary_text") && GetStr(part, "text") == Some(last);
    }
  }

  lemma ContentReadsBack(content: Content)
    ensures ParseContent(ContentJson(content)) == Ok(Spoken(content))
  {
    if content.Parts? { PartsReadBack(content.parts); }
  }

  lemma RoleReadsBack(role: Role)
    ensures ParseRole(RoleName(role)) == Ok(role)
  {
  }

  lemma SpeechMembers(codec: Codec, typed: bool, role: Role, content: Content)
    ensures
      var v := EntryJson(codec, Speech(typed, role, content));
      && KindOf(v) == Ok("message") && GetStr(v, "role") == Some(RoleName(role))
      && Get(v, "content") == ContentJson(content)
  {
    hide RoleName, ContentJson;
  }

  lemma ToolMembers(codec: Codec, typed: bool, callId: string, content: Content)
    ensures
      var v := EntryJson(codec, ToolSpeech(typed, callId, content));
      && KindOf(v) == Ok("message") && GetStr(v, "role") == Some("tool")
      && GetStr(v, "tool_call_id") == Some(callId) && Get(v, "content") == ContentJson(content)
  {
    hide ContentJson;
  }

  lemma SpeechReadsBack(codec: Codec, typed: bool, role: Role, content: Content)
    requires !role.Tool?
    ensures ParseItem(codec, EntryJson(codec, Speech(typed, role, content)))
            == PieceOf(codec, Speech(typed, role, content))
  {
    hide EntryJson, RoleName, ParseRole, ParseContent, Spoken, KindOf, GetStr, ContentJson;
    SpeechMembers(codec, typed, role, content);
    RoleReadsBack(role);
    ContentReadsBack(content);
  }

  lemma ToolReadsBack(codec: Codec, typed: bool, callId: string, content: Content)
    ensures ParseItem(codec, EntryJson(codec, ToolSpeech(typed, callId, content)))
            == PieceOf(codec, ToolSpeech(typed, callId, content))
  {
    ToolRole();
    hide EntryJson, ParseRole, ParseContent, Spoken, KindOf, GetStr, ContentJson;
    ToolMembers(codec, typed, callId, content);
    ContentReadsBack(content);
  }

  lemma ToolRole()
    ensures ParseRole("tool") == Ok(Tool)
  {
    assert RoleName(Tool) == "tool";
    RoleReadsBack(Tool);
  }

  lemma OutputReadsBack(codec: Codec, callId: string, output: Value)
    ensures ParseItem(codec, EntryJson(codec, FunctionOutput(callId, output)))
            == PieceOf(codec, FunctionOutput(callId, output))
  {
    var v := EntryJson(codec, FunctionOutput(callId, output));
    assert GetStr(v, "type") == Some("function_call_output");
    assert GetStr(v, "call_id") == Some(callId) && Get(v, "output") == Some(output);
  }

  lemma CallReadsBack(codec: Codec, call: ToolCall)
    ensures ParseItem(codec, EntryJson(codec, FunctionCall(call))) == PieceOf(codec, FunctionCall(call))
  {
    var v := EntryJson(codec, FunctionCall(call));
    assert GetStr(v, "type") == Some("function_call") && GetStr(v, "call_id") == Some(call.id);
    assert GetStr(v, "name") == Some(call.name);
    assert GetStr(v, "arguments") == Some(codec.write(Obj(call.arguments)));
  }

  lemma ThinkingReadsBack(codec: Codec, summary: seq<string>)
    ensures ParseItem(codec, EntryJson(codec, Thinking(summary))) == PieceOf(codec, Thinking(summary))
  {
    var v := EntryJson(codec, Thinking(summary));
    SummaryReadsBack(summary);
    assert GetStr(v, "type") == Some("reasoning") && Get(v, "summary") == Some(Arr(SummaryJson(summary)));
  }

  /** A speech of a tool is written with its call id. */
  predicate Writable(entry: Entry) { entry.Speech? ==> !entry.role.Tool? }

  /** Whatever way an item is written, it contributes what it says: its role, its whole text, its call id, its call. */
  lemma EntryReadsBack(codec: Codec, entry: Entry)
    requires Writable(entry)
    ensures ParseItem(codec, EntryJson(codec, entry)) == PieceOf(codec, entry)
  {
    hide ParseItem, EntryJson, PieceOf;
    match entry
    case Speech(typed, role, content) => SpeechReadsBack(codec, typed, role, content);
    case ToolSpeech(typed, callId, content) => ToolReadsBack(codec, typed, callId, content);
    case FunctionOutput(callId, output) => OutputReadsBack(codec, callId, output);
    case FunctionCall(call) => CallReadsBack(codec, call);
    case Thinking(summary) => ThinkingReadsBack(codec, summary);
  }

  // ---------------------------------------------------------------- whole histories

  /** How one message is written: its text, its reasoning, whether the item has a `type`, and whether a tool message is
      written as a function output. */
  datatype Style = Style(content: Content, thoughts: seq<string>, typed: bool, asOutput: bool)

  /** The style spells this message's own text and reasoning. */
  predicate Suits(style: Style, m: Message) {
    && (m.content.Some? ==> Spoken(style.content) == m.content.value)
    && (m.reasoning.Some? ==> Thoughts(style.thoughts) == m.reasoning.value)
  }

  /** The messages a history can hold: an assistant turn says, thinks or calls something; any other message has a text,
      and a call id exactly if it is a tool's. */
  predicate Printable(m: Message) {
    if m.role.Assistant? then
      && m.toolCallId.None? && m.reasoning != Some("")
      && (m.content.Some? || m.reasoning.Some? || m.toolCalls != [])
    else m.content.Some? && m.reasoning.None? && m.toolCalls == [] && (m.toolCallId.Some? <==> m.role.Tool?)
  }

  function CallEntries(calls: seq<ToolCall>): (entries: seq<Entry>)
    ensures |entries| == |calls|
  {
    if calls == [] then [] else CallEntries(calls[..|calls| - 1]) + [FunctionCall(calls[|calls| - 1])]
  }

  function Print(m: Message, style: Style): seq<Entry>
    requires Printable(m)
  {
    match m.role
    case Tool =>
      if style.asOutput then [FunctionOutput(m.toolCallId.value, Str(m.content.value))]
      else [ToolSpeech(style.typed, m.toolCallId.value, style.content)]
    case Assistant =>
      (if m.reasoning.Some? then [Thinking(style.thoughts)] else [])
      + (if m.content.Some? then [Speech(style.typed, Assistant, style.content)] else [])
      + CallEntries(m.toolCalls)
    case _ => [Speech(style.typed, m.role, style.content)]
  }

  function Jsons(codec: Codec, entries: seq<Entry>): (values: seq<Value>)
    ensures |values| == |entries|
  {
    if entries == [] then []
    else Jsons(codec, entries[..|entries| - 1]) + [EntryJson(codec, entries[|entries| - 1])]
  }

  /** The items of a whole message list. */
  function Written(codec: Codec, messages: seq<Message>, styles: seq<Style>): seq<Value>
    requires |styles| == |messages| && forall i :: 0 <= i < |messages| ==> Printable(messages[i])
  {
    if messages == [] then []
    else
      var n := |messages| - 1;
      Written(codec, messages[..n], styles[..n]) + Jsons(codec, Print(messages[n], styles[n]))
  }

  // ---------------------------------------------------------------- reading one written message

  lemma FeedNothing(codec: Codec, acc: Acc)
    ensures FeedAll(codec, acc, []) == Ok(acc) && Jsons(codec, []) == []
  {
  }

  /** One more item at the end. */
  lemma FeedEntry(codec: Codec, acc: Acc, entries: seq<Entry>, last: Entry)
    requires Writable(last)
    ensures
      FeedAll(codec, acc, Jsons(codec, entries + [last])) ==
        var before, piece := FeedAll(codec, acc, Jsons(codec, entries)), PieceOf(codec, last);
        if before.Err? then before else if piece.Err? then Err(piece.error) else Ok(before.value.Feed(piece.value))
  {
    hide ParseItem, PieceOf, EntryJson, Acc.Feed;
    EntryReadsBack(codec, last);
    assert (entries + [last])[..|entries|] == entries;
    var values := Jsons(codec, entries + [last]);
    assert values[..|values| - 1] == Jsons(codec, entries);
  }

  /** A turn with these decoded calls added to it. */
  function Calling(next: Acc, calls: seq<ToolCall>): Acc {
    if calls == [] then next
    else Acc(next.messages, Some(next.Pending().(toolCalls := next.Pending().toolCalls + calls)))
  }

  lemma CallingGrows(next: Acc, calls: seq<ToolCall>, call: ToolCall)
    ensures Calling(next, calls).Feed(Called(call)) == Calling(next, calls + [call])
  {
    var p := next.Pending();
    assert p.toolCalls + calls + [call] == p.toolCalls + (calls + [call]);
    assert calls == [] ==> calls + [call] == [call];
  }

  /** The calls of a turn are added to it, decoded; the first one that does not decode ends the parse. */
  lemma {:induction false} FeedCalls(codec: Codec, acc: Acc, entries: seq<Entry>, next: Acc, calls: seq<ToolCall>)
    requires FeedAll(codec, acc, Jsons(codec, entries)) == Ok(next)
    ensures
      FeedAll(codec, acc, Jsons(codec, entries + CallEntries(calls))) ==
        match ReadCalls(codec, WireAll(codec, calls))
        case Err(name) => Err(BadArguments(name))
        case Ok(read) => Ok(Calling(next, read))
  {
    hide FeedAll, Jsons, WireAll, ReadCalls, Calling, Acc.Feed;
    if calls == [] {
      NoCalls(codec);
      assert entries + [] == entries;
      CallingNothing(next);
    } else {
      var front, last := calls[..|calls| - 1], calls[|calls| - 1];
      FeedCalls(codec, acc, entries, next, front);
      assert entries + CallEntries(calls) == entries + CallEntries(front) + [FunctionCall(last)];
      FeedEntry(codec, acc, entries + CallEntries(front), FunctionCall(last));
      WireSplits(codec, calls);
      ReadSplits(codec, WireAll(codec, front), Wire(codec, last));
      var read, decoded := ReadCalls(codec, WireAll(codec, front)), codec.readObject(Wire(codec, last).arguments);
      if read.Ok? && decoded.Some? { CallingGrows(next, read.value, ToolCall(last.id, last.name, decoded.value)); }
    }
  }

  lemma CallingNothing(next: Acc)
    ensures Calling(next, []) == next
  {
  }

  /** What one message makes of the history before it. */
  function After(codec: Codec, acc: Acc, m: Message): Result<Acc, InputError> {
    if !m.role.Assistant? then Ok(Acc(acc.Flush() + [m], None))
    else
      match ReadCalls(codec, WireAll(codec, m.toolCalls))
      case Err(name) => Err(BadArguments(name))
      case Ok(calls) => Ok(Acc(acc.messages, Some(m.(toolCalls := calls))))
  }

  lemma FeedOther(codec: Codec, acc: Acc, m: Message, style: Style)
    requires Printable(m) && Suits(style, m) && !m.role.Assistant?
    ensures FeedAll(codec, acc, Jsons(codec, Print(m, style))) == After(codec, acc, m)
  {
    hide FeedAll, Jsons;
    var entry := Print(m, style)[0];
    FeedNothing(codec, acc);
    FeedEntry(codec, acc, [], entry);
    assert [] + [entry] == Print(m, style);
  }

  /** What a turn has before its calls. */
  function Opening(m: Message, style: Style): seq<Entry> {
    (if m.reasoning.Some? then [Thinking(style.thoughts)] else [])
    + (if m.content.Some? then [Speech(style.typed, Assistant, style.content)] else [])
  }

  lemma FeedOpening(codec: Codec, acc: Acc, m: Message, style: Style)
    requires Printable(m) && Suits(style, m) && m.role.Assistant? && acc.assistant.None?
    ensures
      FeedAll(codec, acc, Jsons(codec, Opening(m, style))) ==
        Ok(if m.content.None? && m.reasoning.None? then acc
           else Acc(acc.messages, Some(AssistantMessage(m.content, m.reasoning, []))))
  {
    hide FeedAll, Jsons;
    FeedNothing(codec, acc);
    var thinking, speech := Thinking(style.thoughts), Speech(style.typed, Assistant, style.content);
    if m.reasoning.Some? {
      FeedEntry(codec, acc, [], thinking);
      assert [] + [thinking] == [thinking];
      assert "" + m.reasoning.value == m.reasoning.value;
    }
    if m.content.Some? {
      assert "" + m.content.value == m.content.value;
      FeedEntry(codec, acc, if m.reasoning.Some? then [thinking] else [], speech);
    }
    assert [thinking] + [] == [thinking];
  }

  lemma FeedTurn(codec: Codec, acc: Acc, m: Message, style: Style)
    requires Printable(m) && Suits(style, m) && m.role.Assistant? && acc.assistant.None?
    ensures FeedAll(codec, acc, Jsons(codec, Print(m, style))) == After(codec, acc, m)
  {
    hide FeedAll, Jsons, WireAll, ReadCalls;
    FeedOpening(codec, acc, m, style);
    var next := if m.content.None? && m.reasoning.None? then acc
                else Acc(acc.messages, Some(AssistantMessage(m.content, m.reasoning, [])));
    FeedCalls(codec, acc, Opening(m, style), next, m.toolCalls);
    var read := ReadCalls(codec, WireAll(codec, m.toolCalls));
    if read.Ok? {
      ReadLength(codec, WireAll(codec, m.toolCalls));
      assert [] + read.value == read.value;
    }
  }

  // ---------------------------------------------------------------- reading whole histories

  function Reached(codec: Codec, messages: seq<Message>): Result<Acc, InputError> {
    if messages == [] then Ok(START)
    else
      var before :- Reached(codec, messages[..|messages| - 1]);
      After(codec, before, messages[|messages| - 1])
  }

  predicate AllPrintable(messages: seq<Message>) {
    forall i :: 0 <= i < |messages| ==> Printable(messages[i])
  }

  predicate AllSuit(messages: seq<Message>, styles: seq<Style>) {
    |styles| == |messages| && forall i :: 0 <= i < |messages| ==> Suits(styles[i], messages[i])
  }

  /** A turn is pending exactly if the last message read was an assistant's. */
  lemma ReachedPends(codec: Codec, messages: seq<Message>)
    requires Reached(codec, messages).Ok?
    ensures Reached(codec, messages).value.assistant.Some?
            <==> messages != [] && messages[|messages| - 1].role.Assistant?
  {
  }

  lemma {:induction false} WrittenIsReached(codec: Codec, messages: seq<Message>, styles: seq<Style>)
    requires AllPrintable(messages) && AllSuit(messages, styles) && NoAdjacentAssistants(messages)
    ensures FeedAll(codec, START, Written(codec, messages, styles)) == Reached(codec, messages)
  {
    hide FeedAll, Jsons, After, Print, Printable, Suits;
    if messages == [] {
      FeedNothing(codec, START);
    } else {
      var n := |messages| - 1;
      WrittenIsReached(codec, messages[..n], styles[..n]);
      FeedConcat(codec, START, Written(codec, messages[..n], styles[..n]),
                 Jsons(codec, Print(messages[n], styles[n])));
      if Reached(codec, messages[..n]).Ok? {
        ReachedPends(codec, messages[..n]);
        FeedMessage(codec, Reached(codec, messages[..n]).value, messages[n], styles[n]);
      }
    }
  }

  lemma FeedMessage(codec: Codec, acc: Acc, m: Message, style: Style)
    requires Printable(m) && Suits(style, m) && (m.role.Assistant? ==> acc.assistant.None?)
    ensures FeedAll(codec, acc, Jsons(codec, Print(m, style))) == After(codec, acc, m)
  {
    if m.role.Assistant? { FeedTurn(codec, acc, m, style); } else { FeedOther(codec, acc, m, style); }
  }

  predicate CallsRoundTrip(codec: Codec, m: Message) {
    forall call :: call in m.toolCalls ==> codec.RoundTrips(call.arguments)
  }

  /** One message more is read back as some message, and as itself exactly if its calls survive. */
  predicate OneMore(codec: Codec, acc: Acc, after: Acc, m: Message, x: Message) {
    after.Flush() == acc.Flush() + [x] && (x == m <==> CallsRoundTrip(codec, m))
  }

  lemma AfterTurn(codec: Codec, acc: Acc, m: Message) returns (x: Message)
    requires Printable(m) && m.role.Assistant? && acc.assistant.None?
    ensures var after := After(codec, acc, m);
      if after.Ok? then OneMore(codec, acc, after.value, m, x) else !CallsRoundTrip(codec, m)
  {
    hide WireAll, ReadCalls, Printable;
    CallsSurvive(codec, m.toolCalls);
    var read := ReadCalls(codec, WireAll(codec, m.toolCalls));
    x := if read.Ok? then m.(toolCalls := read.value) else m;
    if read.Ok? {
      assert acc.Flush() == acc.messages;
      assert Acc(acc.messages, Some(x)).Flush() == acc.Flush() + [x];
    }
  }

  lemma AfterMessage(codec: Codec, acc: Acc, m: Message) returns (x: Message)
    requires Printable(m) && (m.role.Assistant? ==> acc.assistant.None?)
    ensures var after := After(codec, acc, m);
      if after.Ok? then OneMore(codec, acc, after.value, m, x) else !CallsRoundTrip(codec, m)
  {
    if m.role.Assistant? {
      x := AfterTurn(codec, acc, m);
    } else {
      x := m;
      assert Acc(acc.Flush() + [m], None).Flush() == acc.Flush() + [m];
    }
  }

  lemma NothingReached(codec: Codec)
    ensures Reached(codec, []) == Ok(START) && START.Flush() == []
  {
  }

  lemma {:induction false} ReachedExact(codec: Codec, messages: seq<Message>)
    requires AllPrintable(messages) && NoAdjacentAssistants(messages)
    ensures
      var r := Reached(codec, messages);
      (r.Ok? && r.value.Flush() == messages) <==> forall m :: m in messages ==> CallsRoundTrip(codec, m)
  {
    hide After, Printable, CallsRoundTrip, Acc.Flush;
    if messages == [] {
      NothingReached(codec);
    } else {
      var front, last := messages[..|messages| - 1], messages[|messages| - 1];
      assert messages == front + [last];
      assert (forall m :: m in messages ==> CallsRoundTrip(codec, m))
          <==> (forall m :: m in front ==> CallsRoundTrip(codec, m)) && CallsRoundTrip(codec, last);
      ReachedExact(codec, front);
      if Reached(codec, front).Ok? {
        var acc := Reached(codec, front).value;
        ReachedPends(codec, front);
        var x := AfterMessage(codec, acc, last);
        SameSnoc(acc.Flush(), x, front, last);
      }
    }
  }

  /** Any list of messages in which no two assistant turns are adjacent, written in any style, message by message, is
      read back as that list if and only if the arguments of its calls survive being written as text. */
  lemma HistoryReadsBack(codec: Codec, messages: seq<Message>, styles: seq<Style>)
    requires AllPrintable(messages) && AllSuit(messages, styles) && NoAdjacentAssistants(messages)
    ensures
      Parse(codec, Written(codec, messages, styles)) == Ok(messages)
      <==> forall m :: m in messages ==> CallsRoundTrip(codec, m)
  {
    hide FeedAll, Reached, Written, AllPrintable, AllSuit, CallsRoundTrip;
    WrittenIsReached(codec, messages, styles);
    ReachedExact(codec, messages);
  }

  // ---------------------------------------------------------------- the theorem leaves nothing out

  lemma BoundaryIsPrintable(codec: Codec, item: Value)
    requires ParseItem(codec, item).Ok? && ParseItem(codec, item).value.Boundary?
    ensures Printable(ParseItem(codec, item).value.message)
    ensures !ParseItem(codec, item).value.message.role.Assistant?
  {
  }

  lemma ThoughtIsNotEmpty(codec: Codec, item: Value)
    requires ParseItem(codec, item).Ok? && ParseItem(codec, item).value.Thought?
    ensures ParseItem(codec, item).value.reasoning != ""
  {
  }

  predicate AccPrintable(acc: Acc) {
    AllPrintable(acc.messages)
    && (acc.assistant.Some? ==> acc.assistant.value.role.Assistant? && Printable(acc.assistant.value))
  }

  lemma FeedStaysPrintable(acc: Acc, piece: Piece)
    requires AccPrintable(acc) && (piece.Boundary? ==> Printable(piece.message))
    requires piece.Thought? ==> piece.reasoning != ""
    ensures AccPrintable(acc.Feed(piece))
  {
  }

  lemma {:induction false} FeedIsPrintable(codec: Codec, items: seq<Value>)
    requires FeedAll(codec, START, items).Ok?
    ensures AccPrintable(FeedAll(codec, START, items).value)
  {
    hide ParseItem, AccPrintable, Acc.Feed;
    if items == [] {
      NothingPrintable(codec);
    } else {
      var front, last := items[..|items| - 1], items[|items| - 1];
      FeedIsPrintable(codec, front);
      if ParseItem(codec, last).value.Boundary? { BoundaryIsPrintable(codec, last); }
      if ParseItem(codec, last).value.Thought? { ThoughtIsNotEmpty(codec, last); }
      FeedStaysPrintable(FeedAll(codec, START, front).value, ParseItem(codec, last).value);
    }
  }

  lemma NothingPrintable(codec: Codec)
    ensures AccPrintable(START)
  {
  }

  /** Everything that is ever parsed is a list the theorem is about. */
  lemma ParsedIsPrintable(codec: Codec, items: seq<Value>)
    requires Parse(codec, items).Ok?
    ensures AllPrintable(Parse(codec, items).value) && NoAdjacentAssistants(Parse(codec, items).value)
  {
    FeedIsPrintable(codec, items);
    ParsedTurnsAlternate(codec, items);
  }

  /** So reading, writing and reading again changes nothing, if the arguments survive. */
  lemma ParsedReadsBack(codec: Codec, items: seq<Value>, styles: seq<Style>)
    requires Parse(codec, items).Ok? && AllSuit(Parse(codec, items).value, styles)
    requires forall m :: m in Parse(codec, items).value ==> CallsRoundTrip(codec, m)
    ensures AllPrintable(Parse(codec, items).value)
    ensures Parse(codec, Written(codec, Parse(codec, items).value, styles)) == Parse(codec, items)
  {
    ParsedIsPrintable(codec, items);
    hide Parse, Written, AllPrintable, AllSuit, CallsRoundTrip, NoAdjacentAssistants;
    HistoryReadsBack(codec, Parse(codec, items).value, styles);
  }
}
