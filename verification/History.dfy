/** Reading Responses input items back as conversation history. */
module History {
  import opened Wrappers
  import opened Json
  import opened ChatModel

  datatype InputError =
    | MissingType
    | UnsupportedItem(kind: string)
    | MissingField(key: string)
    | UnsupportedRole(role: string)
    | UnsupportedPart(kind: string)
    | ContentNotText
    | SummaryNotArray
    | BadArguments(name: string)
    | MissingOutput

  // ---------------------------------------------------------------- single items

  function Required(v: Value, key: string): Result<string, InputError> {
    match GetStr(v, key)
    case Some(s) => Ok(s)
    case None => Err(MissingField(key))
  }

  function ParseParts(parts: seq<Value>): Result<string, InputError> {
    if parts == [] then Ok("")
    else
      var front :- ParseParts(parts[..|parts| - 1]);
      var part := parts[|parts| - 1];
      var kind :- Required(part, "type");
      if kind == "input_text" || kind == "output_text" then
        var text :- Required(part, "text");
        Ok(front + text)
      else Err(UnsupportedPart(kind))
  }

  function ParseContent(content: Option<Value>): Result<string, InputError> {
    match content
    case Some(Str(text)) => Ok(text)
    case Some(Arr(parts)) => ParseParts(parts)
    case None => Ok("")
    case Some(Null) => Ok("")
    case _ => Err(ContentNotText)
  }

  function ParseRole(role: string): Result<Role, InputError> {
    if role == "system" then Ok(System)
    else if role == "developer" then Ok(Developer)
    else if role == "user" then Ok(User)
    else if role == "assistant" then Ok(Assistant)
    else if role == "tool" then Ok(Tool)
    else Err(UnsupportedRole(role))
  }

  function ParseMessage(v: Value): Result<Message, InputError> {
    var name :- Required(v, "role");
    var role :- ParseRole(name);
    var content :- ParseContent(Get(v, "content"));
    if role.Tool? then
      var callId :- Required(v, "tool_call_id");
      Ok(ToolMessage(callId, content))
    else Ok(TextMessage(role, content))
  }

  function ParseSummary(parts: seq<Value>): Result<string, InputError> {
    if parts == [] then Ok("")
    else
      var front :- ParseSummary(parts[..|parts| - 1]);
      var part := parts[|parts| - 1];
      if GetStr(part, "type") != Some("summary_text") then Ok(front)
      else
        var text :- Required(part, "text");
        Ok(front + text)
  }

  function ParseReasoning(v: Value): Result<Option<string>, InputError> {
    match Get(v, "summary")
    case None => Ok(None)
    case Some(Arr(parts)) => var reasoning :- ParseSummary(parts); Ok(NonEmpty(reasoning))
    case _ => Err(SummaryNotArray)
  }

  function ParseFunctionCall(codec: Codec, v: Value): Result<ToolCall, InputError> {
    var callId :- Required(v, "call_id");
    var name :- Required(v, "name");
    var text :- Required(v, "arguments");
    match codec.readObject(text)
    case Some(arguments) => Ok(ToolCall(callId, name, arguments))
    case None => Err(BadArguments(name))
  }

  function ParseFunctionOutput(codec: Codec, v: Value): Result<Message, InputError> {
    var callId :- Required(v, "call_id");
    match Get(v, "output")
    case Some(Str(output)) => Ok(ToolMessage(callId, output))
    case Some(output) => Ok(ToolMessage(callId, codec.write(output)))
    case None => Err(MissingOutput)
  }

  function KindOf(item: Value): Result<string, InputError> {
    match GetStr(item, "type")
    case Some(kind) => Ok(kind)
    case None => if GetStr(item, "role").Some? then Ok("message") else Err(MissingType)
  }

  /** What one input item contributes, independent of what came before it. */
  datatype Piece =
    | Boundary(message: Message)
    | Said(text: string)
    | Called(call: ToolCall)
    | Thought(reasoning: string)
    | Silent

  function ParseItem(codec: Codec, item: Value): Result<Piece, InputError> {
    var kind :- KindOf(item);
    if kind == "message" then
      var message :- ParseMessage(item);
      Ok(if message.role.Assistant? && message.content.Some? then Said(message.content.value) else Boundary(message))
    else if kind == "function_call" then
      var call :- ParseFunctionCall(codec, item);
      Ok(Called(call))
    else if kind == "function_call_output" then
      var message :- ParseFunctionOutput(codec, item);
      Ok(Boundary(message))
    else if kind == "reasoning" then
      var reasoning :- ParseReasoning(item);
      Ok(if reasoning.Some? then Thought(reasoning.value) else Silent)
    else Err(UnsupportedItem(kind))
  }

  lemma BoundaryIsNotAssistant(codec: Codec, item: Value)
    requires ParseItem(codec, item).Ok? && ParseItem(codec, item).value.Boundary?
    ensures !ParseItem(codec, item).value.message.role.Assistant?
  {
  }

  // ---------------------------------------------------------------- the accumulator

  const NO_ANSWER: Message := AssistantMessage(None, None, [])

  function AppendText(target: Option<string>, text: string): Option<string> {
    Some(target.GetOr("") + text)
  }

  /** Finished messages and the assistant turn still being collected. */
  datatype Acc = Acc(messages: seq<Message>, assistant: Option<Message>) {
    function Pending(): Message { assistant.GetOr(NO_ANSWER) }

    function Flush(): seq<Message> {
      messages + (if assistant.Some? then [assistant.value] else [])
    }

    function Feed(piece: Piece): Acc {
      var p := Pending();
      match piece
      case Boundary(message) => Acc(Flush() + [message], None)
      case Said(text) => Acc(messages, Some(p.(content := AppendText(p.content, text))))
      case Called(call) => Acc(messages, Some(p.(toolCalls := p.toolCalls + [call])))
      case Thought(reasoning) => Acc(messages, Some(p.(reasoning := AppendText(p.reasoning, reasoning))))
      case Silent => this
    }
  }

  const START := Acc([], None)

  function FeedAll(codec: Codec, acc: Acc, items: seq<Value>): Result<Acc, InputError> {
    if items == [] then Ok(acc)
    else
      var before :- FeedAll(codec, acc, items[..|items| - 1]);
      var piece :- ParseItem(codec, items[|items| - 1]);
      Ok(before.Feed(piece))
  }

  function Parse(codec: Codec, items: seq<Value>): Result<seq<Message>, InputError> {
    var acc :- FeedAll(codec, START, items);
    Ok(acc.Flush())
  }

  lemma {:induction false} FeedConcat(codec: Codec, acc: Acc, xs: seq<Value>, ys: seq<Value>)
    ensures FeedAll(codec, acc, xs + ys) ==
            (var mid := FeedAll(codec, acc, xs); if mid.Err? then mid else FeedAll(codec, mid.value, ys))
  {
    hide ParseItem, Acc.Feed;
    if ys == [] {
      assert xs + ys == xs;
    } else {
      FeedConcat(codec, acc, xs, ys[..|ys| - 1]);
      assert (xs + ys)[..|xs + ys| - 1] == xs + ys[..|ys| - 1];
    }
  }

  // ---------------------------------------------------------------- the loop

  /** One more item extends what was accumulated, or ends the whole parse with its error. */
  lemma ParseStep(codec: Codec, items: seq<Value>, i: nat, acc: Acc)
    requires i < |items| && FeedAll(codec, START, items[..i]) == Ok(acc)
    ensures
      var piece := ParseItem(codec, items[i]);
      if piece.Ok? then FeedAll(codec, START, items[..i + 1]) == Ok(acc.Feed(piece.value))
      else Parse(codec, items) == Err(piece.error)
  {
    hide ParseItem;
    assert items[..i + 1][..i] == items[..i];
    assert items == items[..i + 1] + items[i + 1..];
    FeedConcat(codec, START, items[..i + 1], items[i + 1..]);
  }

  /** What one item makes of the messages and the pending assistant turn. */
  method TakeItem(codec: Codec, item: Value, messages: seq<Message>, assistant: Option<Message>)
    returns (r: Result<(seq<Message>, Option<Message>), InputError>)
    ensures
      var piece := ParseItem(codec, item);
      if piece.Err? then r == Err(piece.error)
      else
        var next := Acc(messages, assistant).Feed(piece.value);
        r == Ok((next.messages, next.assistant))
  {
    hide KindOf, ParseMessage, ParseFunctionCall, ParseFunctionOutput, ParseReasoning, AppendText;
    ghost var piece := ParseItem(codec, item);
    if piece.Ok? && piece.value.Boundary? { BoundaryIsNotAssistant(codec, item); }
    var flushed := messages + (if assistant.Some? then [assistant.value] else []);
    var pending := assistant.GetOr(NO_ANSWER);
    var kind := KindOf(item);
    if kind.Err? { return Err(kind.error); }
    if kind.value == "message" {
      var message := ParseMessage(item);
      if message.Err? { return Err(message.error); }
      if message.value.role.Assistant? {
        if message.value.content.Some? {
          pending := pending.(content := AppendText(pending.content, message.value.content.value));
        }
        return Ok((messages, Some(pending)));
      }
      return Ok((flushed + [message.value], None));
    } else if kind.value == "function_call" {
      var call := ParseFunctionCall(codec, item);
      if call.Err? { return Err(call.error); }
      return Ok((messages, Some(pending.(toolCalls := pending.toolCalls + [call.value]))));
    } else if kind.value == "function_call_output" {
      var output := ParseFunctionOutput(codec, item);
      if output.Err? { return Err(output.error); }
      return Ok((flushed + [output.value], None));
    } else if kind.value == "reasoning" {
      var reasoning := ParseReasoning(item);
      if reasoning.Err? { return Err(reasoning.error); }
      if reasoning.value.None? { return Ok((messages, assistant)); }
      return Ok((messages, Some(pending.(reasoning := AppendText(pending.reasoning, reasoning.value.value)))));
    }
    return Err(UnsupportedItem(kind.value));
  }

  /** The parser as it runs: one pass with a list of messages and an optional pending assistant turn. */
  method ParseInputItems(codec: Codec, items: seq<Value>) returns (r: Result<seq<Message>, InputError>)
    ensures r == Parse(codec, items)
  {
    var messages: seq<Message> := [];
    var assistant: Option<Message> := None;
    assert items[..0] == [] && FeedAll(codec, START, []) == Ok(START);
    hide FeedAll, ParseItem, Acc.Feed;
    var i := 0;
    while i < |items|
      invariant 0 <= i <= |items|
      invariant FeedAll(codec, START, items[..i]) == Ok(Acc(messages, assistant))
    {
      ParseStep(codec, items, i, Acc(messages, assistant));
      var taken := TakeItem(codec, items[i], messages, assistant);
      if taken.Err? { return Err(taken.error); }
      messages, assistant := taken.value.0, taken.value.1;
      i := i + 1;
    }
    assert items[..|items|] == items;
    messages := messages + (if assistant.Some? then [assistant.value] else []);
    return Ok(messages);
  }

  // ---------------------------------------------------------------- history parsing is compositional

  /** Messages already finished do not influence the rest of the parse. */
  lemma {:induction false} FeedShift(codec: Codec, before: seq<Message>, items: seq<Value>)
    ensures FeedAll(codec, Acc(before, None), items) ==
            (var r := FeedAll(codec, START, items);
             if r.Err? then r else Ok(Acc(before + r.value.messages, r.value.assistant)))
  {
    if items == [] {
      assert before + [] == before;
    } else {
      FeedShift(codec, before, items[..|items| - 1]);
      var r := FeedAll(codec, START, items[..|items| - 1]);
      var piece := ParseItem(codec, items[|items| - 1]);
      if r.Ok? && piece.Ok? && piece.value.Boundary? {
        var a := r.value;
        assert Acc(before + a.messages, a.assistant).Flush() + [piece.value.message]
            == before + (a.Flush() + [piece.value.message]);
      }
    }
  }

  /** A boundary item cuts the history: both sides parse on their own, errors included. */
  lemma ParseSplitsAtBoundary(codec: Codec, xs: seq<Value>, m: Value, ys: seq<Value>)
    requires ParseItem(codec, m).Ok? && ParseItem(codec, m).value.Boundary?
    ensures
      var left, right := Parse(codec, xs), Parse(codec, ys);
      Parse(codec, xs + [m] + ys) ==
        if left.Err? then left
        else if right.Err? then right
        else Ok(left.value + [ParseItem(codec, m).value.message] + right.value)
  {
    var message := ParseItem(codec, m).value.message;
    FeedConcat(codec, START, xs + [m], ys);
    FeedConcat(codec, START, xs, [m]);
    var left := FeedAll(codec, START, xs);
    if left.Ok? {
      assert [m][..0] == [];
      assert FeedAll(codec, left.value, [m]) == Ok(Acc(left.value.Flush() + [message], None));
      var before := left.value.Flush() + [message];
      FeedShift(codec, before, ys);
      var right := FeedAll(codec, START, ys);
      if right.Ok? {
        assert Acc(before + right.value.messages, right.value.assistant).Flush() == before + right.value.Flush();
      }
    }
  }

  predicate NoAdjacentAssistants(messages: seq<Message>) {
    forall i :: 0 <= i < |messages| - 1 ==> !(messages[i].role.Assistant? && messages[i + 1].role.Assistant?)
  }

  /** The finished messages alternate and do not end in an assistant turn, so the pending one may follow. */
  predicate TurnsApart(acc: Acc) {
    && NoAdjacentAssistants(acc.messages)
    && (acc.messages != [] ==> !acc.messages[|acc.messages| - 1].role.Assistant?)
    && (acc.assistant.Some? ==> acc.assistant.value.role.Assistant?)
  }

  lemma FeedTurnsApart(acc: Acc, piece: Piece)
    requires TurnsApart(acc) && (piece.Boundary? ==> !piece.message.role.Assistant?)
    ensures TurnsApart(acc.Feed(piece))
  {
  }

  lemma {:induction false} FeedKeepsTurnsApart(codec: Codec, items: seq<Value>)
    requires FeedAll(codec, START, items).Ok?
    ensures TurnsApart(FeedAll(codec, START, items).value)
  {
    hide ParseItem, Acc.Feed;
    if items != [] {
      var front, last := items[..|items| - 1], items[|items| - 1];
      FeedKeepsTurnsApart(codec, front);
      if ParseItem(codec, last).value.Boundary? { BoundaryIsNotAssistant(codec, last); }
      FeedTurnsApart(FeedAll(codec, START, front).value, ParseItem(codec, last).value);
    }
  }

  /** A parsed history never has two assistant messages in a row. */
  lemma ParsedTurnsAlternate(codec: Codec, items: seq<Value>)
    requires Parse(codec, items).Ok?
    ensures NoAdjacentAssistants(Parse(codec, items).value)
  {
    FeedKeepsTurnsApart(codec, items);
  }

  // ---------------------------------------------------------------- nothing is lost

  /** Everything the assistant said, thought and called, and every other message, in order. */
  datatype Transcript = Transcript(text: string, reasoning: string, calls: seq<ToolCall>, others: seq<Message>) {
    function Plus(t: Transcript): Transcript {
      Transcript(text + t.text, reasoning + t.reasoning, calls + t.calls, others + t.others)
    }
  }

  const BLANK := Transcript("", "", [], [])

  function OfMessage(m: Message): Transcript {
    if m.role.Assistant? then Transcript(m.content.GetOr(""), m.reasoning.GetOr(""), m.toolCalls, [])
    else Transcript("", "", [], [m])
  }

  function OfMessages(messages: seq<Message>): Transcript {
    if messages == [] then BLANK
    else OfMessages(messages[..|messages| - 1]).Plus(OfMessage(messages[|messages| - 1]))
  }

  function OfPiece(piece: Piece): Transcript {
    match piece
    case Boundary(message) => Transcript("", "", [], [message])
    case Said(text) => Transcript(text, "", [], [])
    case Called(call) => Transcript("", "", [call], [])
    case Thought(reasoning) => Transcript("", reasoning, [], [])
    case Silent => BLANK
  }

  function OfItems(codec: Codec, items: seq<Value>): Result<Transcript, InputError> {
    if items == [] then Ok(BLANK)
    else
      var front :- OfItems(codec, items[..|items| - 1]);
      var piece :- ParseItem(codec, items[|items| - 1]);
      Ok(front.Plus(OfPiece(piece)))
  }

  lemma PlusAssociative(a: Transcript, b: Transcript, c: Transcript)
    ensures a.Plus(b).Plus(c) == a.Plus(b.Plus(c)) && a.Plus(BLANK) == a
  {
    var l, r := a.Plus(b).Plus(c), a.Plus(b.Plus(c));
    assert l.text == r.text && l.reasoning == r.reasoning && l.calls == r.calls && l.others == r.others;
    var n := a.Plus(BLANK);
    assert n.text == a.text && n.reasoning == a.reasoning && n.calls == a.calls && n.others == a.others;
  }

  lemma OfAppended(messages: seq<Message>, m: Message)
    ensures OfMessages(messages + [m]) == OfMessages(messages).Plus(OfMessage(m))
  {
    assert (messages + [m])[..|messages|] == messages;
  }

  lemma FeedAddsPiece(acc: Acc, piece: Piece)
    requires acc.assistant.Some? ==> acc.assistant.value.role.Assistant?
    requires piece.Boundary? ==> !piece.message.role.Assistant?
    ensures OfMessages(acc.Feed(piece).Flush()) == OfMessages(acc.Flush()).Plus(OfPiece(piece))
  {
    var next, before := acc.Feed(piece), OfMessages(acc.messages);
    if piece.Boundary? {
      OfAppended(acc.Flush(), piece.message);
      assert next.Flush() == acc.Flush() + [piece.message];
    } else if piece.Silent? {
      PlusAssociative(OfMessages(acc.Flush()), BLANK, BLANK);
    } else {
      OfAppended(acc.messages, next.assistant.value);
      if acc.assistant.Some? {
        OfAppended(acc.messages, acc.assistant.value);
        PlusAssociative(before, OfMessage(acc.assistant.value), OfPiece(piece));
        PendingGrows(acc.assistant.value, piece);
      } else {
        PendingGrows(NO_ANSWER, piece);
        PlusAssociative(before, BLANK, OfPiece(piece));
        assert acc.Flush() == acc.messages;
      }
    }
  }

  lemma PendingGrows(p: Message, piece: Piece)
    requires p.role.Assistant? && !piece.Boundary? && !piece.Silent?
    ensures OfMessage(Acc([], Some(p)).Feed(piece).assistant.value) == OfMessage(p).Plus(OfPiece(piece))
    ensures OfMessage(NO_ANSWER) == BLANK
  {
    var l, r := OfMessage(Acc([], Some(p)).Feed(piece).assistant.value), OfMessage(p).Plus(OfPiece(piece));
    assert l.text == r.text && l.reasoning == r.reasoning && l.calls == r.calls && l.others == r.others;
  }

  /** The parse keeps everything: the transcript of the messages is the transcript of the items,
      and it fails on the same item with the same error. */
  lemma {:induction false} ParseLosesNothing(codec: Codec, items: seq<Value>)
    ensures
      var parsed, said := Parse(codec, items), OfItems(codec, items);
      if parsed.Ok? then said == Ok(OfMessages(parsed.value)) else said == Err(parsed.error)
  {
    if items != [] {
      var front, last := items[..|items| - 1], items[|items| - 1];
      ParseLosesNothing(codec, front);
      if FeedAll(codec, START, front).Ok? && ParseItem(codec, last).Ok? {
        FeedKeepsTurnsApart(codec, front);
        if ParseItem(codec, last).value.Boundary? { BoundaryIsNotAssistant(codec, last); }
        FeedAddsPiece(FeedAll(codec, START, front).value, ParseItem(codec, last).value);
      }
    }
  }

  // ---------------------------------------------------------------- system messages

  const SEPARATOR := "\n\n"

  function Join(parts: seq<string>): string {
    if parts == [] then ""
    else if |parts| == 1 then parts[0]
    else Join(parts[..|parts| - 1]) + SEPARATOR + parts[|parts| - 1]
  }

  /** Two non-empty lists of texts are joined by joining each and putting a blank line in between; a single text is
      joined to itself. This leaves no choice about the joined text. */
  lemma {:induction false} JoinConcat(a: seq<string>, b: seq<string>)
    requires a != [] && b != []
    ensures Join(a + b) == Join(a) + "\n\n" + Join(b)
  {
    var front, last := b[..|b| - 1], b[|b| - 1];
    assert (a + b)[..|a + b| - 1] == a + front;
    if front == [] {
      assert a + front == a;
    } else {
      JoinConcat(a, front);
      var x, y := Join(a) + SEPARATOR, Join(front);
      assert x + y + SEPARATOR + last == x + (y + SEPARATOR + last);
    }
  }

  /** Where a text starts in the joined text: after all texts before it, each with a blank line. */
  function TextStart(parts: seq<string>, i: nat): nat
    requires i <= |parts|
  {
    if i == 0 then 0 else TextStart(parts, i - 1) + |parts[i - 1]| + 2
  }

  /** The last text ends the joined text, a blank line after the texts before it. */
  lemma {:induction false} JoinEnds(parts: seq<string>)
    requires parts != []
    ensures
      var n, joined := |parts| - 1, Join(parts);
      var start := TextStart(parts, n);
      && start + |parts[n]| == |joined| && joined[start..] == parts[n]
      && (n > 0 ==> start >= 2 && joined[start - 2..start] == "\n\n" && joined[..start - 2] == Join(parts[..n]))
    decreases |parts|
  {
    var n := |parts| - 1;
    if n > 0 {
      JoinEnds(parts[..n]);
      StartsOfFront(parts, n, n - 1);
      assert |Join(parts[..n])| == TextStart(parts, n) - 2;
    }
  }

  /** Every text is there in full, in order, with a blank line between neighbours. */
  lemma {:induction false} JoinKeepsTexts(parts: seq<string>, i: nat)
    requires i < |parts|
    ensures
      var joined, start := Join(parts), TextStart(parts, i);
      && start + |parts[i]| <= |joined| && joined[start..start + |parts[i]|] == parts[i]
      && (if i == |parts| - 1 then start + |parts[i]| == |joined|
          else start + |parts[i]| + 2 <= |joined| && joined[start + |parts[i]|..start + |parts[i]| + 2] == "\n\n")
    decreases |parts|
  {
    hide Join;
    JoinEnds(parts);
    var n, joined := |parts| - 1, Join(parts);
    if i < n {
      var front, cut := parts[..n], TextStart(parts, n) - 2;
      StartsOfFront(parts, n, i);
      JoinKeepsTexts(front, i);
      var start := TextStart(parts, i);
      assert joined[..cut][start..start + |parts[i]|] == joined[start..start + |parts[i]|];
      if i == n - 1 {
        assert start + |parts[i]| == cut;
      } else {
        assert joined[..cut][start + |parts[i]|..start + |parts[i]| + 2]
            == joined[start + |parts[i]|..start + |parts[i]| + 2];
      }
    }
  }

  lemma {:induction false} StartsOfFront(parts: seq<string>, n: nat, i: nat)
    requires i <= n <= |parts|
    ensures TextStart(parts[..n], i) == TextStart(parts, i)
  {
    if i > 0 { StartsOfFront(parts, n, i - 1); }
  }

  function SystemTexts(messages: seq<Message>): seq<string> {
    if messages == [] then []
    else
      var last := messages[|messages| - 1];
      SystemTexts(messages[..|messages| - 1])
          + (if last.role.System? && last.content.Some? then [last.content.value] else [])
  }

  function Conversation(messages: seq<Message>): seq<Message> {
    if messages == [] then []
    else
      var last := messages[|messages| - 1];
      Conversation(messages[..|messages| - 1]) + (if last.role.System? then [] else [last])
  }

  function Coalesced(messages: seq<Message>): seq<Message> {
    var system := SystemTexts(messages);
    (if system == [] then [] else [TextMessage(System, Join(system))]) + Conversation(messages)
  }

  method CoalesceSystemMessages(messages: seq<Message>) returns (r: seq<Message>)
    ensures r == Coalesced(messages)
  {
    var system: seq<string>, conversation: seq<Message> := [], [];
    for i := 0 to |messages|
      invariant system == SystemTexts(messages[..i]) && conversation == Conversation(messages[..i])
    {
      assert messages[..i + 1][..i] == messages[..i];
      if messages[i].role.System? {
        if messages[i].content.Some? { system := system + [messages[i].content.value]; }
      } else {
        conversation := conversation + [messages[i]];
      }
    }
    assert messages[..|messages|] == messages;
    if system == [] { return conversation; }
    return [TextMessage(System, Join(system))] + conversation;
  }

  lemma {:induction false} ConversationHasNoSystem(messages: seq<Message>)
    ensures forall m :: m in Conversation(messages) ==> !m.role.System?
  {
    if messages != [] { ConversationHasNoSystem(messages[..|messages| - 1]); }
  }

  lemma {:induction false} AllConversation(messages: seq<Message>)
    requires forall m :: m in messages ==> !m.role.System?
    ensures Conversation(messages) == messages && SystemTexts(messages) == []
  {
    if messages != [] {
      var front, last := messages[..|messages| - 1], messages[|messages| - 1];
      AllConversation(front);
      assert last in messages && front + [last] == messages;
    }
  }

  lemma {:induction false} SystemTextsAfter(m: Message, talk: seq<Message>)
    requires forall x :: x in talk ==> !x.role.System?
    ensures SystemTexts([m] + talk) == SystemTexts([m])
    ensures Conversation([m] + talk) == Conversation([m]) + talk
  {
    if talk == [] {
      assert [m] + talk == [m];
    } else {
      var front, last := talk[..|talk| - 1], talk[|talk| - 1];
      SystemTextsAfter(m, front);
      assert ([m] + talk)[..|talk|] == [m] + front;
      assert Conversation([m]) + front + [last] == Conversation([m]) + talk;
    }
  }

  lemma OneSystem(text: string)
    ensures SystemTexts([TextMessage(System, text)]) == [text] && Conversation([TextMessage(System, text)]) == []
  {
    var head := [TextMessage(System, text)];
    assert head[..0] == [] && SystemTexts(head[..0]) == [] && Conversation(head[..0]) == [];
  }

  lemma CoalescedParts(messages: seq<Message>)
    ensures
      var r, system := Coalesced(messages), SystemTexts(messages);
      && SystemTexts(r) == (if system == [] then [] else [Join(system)])
      && Conversation(r) == Conversation(messages)
  {
    var system, talk := SystemTexts(messages), Conversation(messages);
    ConversationHasNoSystem(messages);
    if system != [] {
      var head := TextMessage(System, Join(system));
      OneSystem(Join(system));
      SystemTextsAfter(head, talk);
    } else {
      AllConversation(talk);
      assert [] + talk == talk;
    }
  }

  /** Coalescing leaves at most one system message, in front, and keeps the conversation in order. */
  lemma CoalescedIsNormal(messages: seq<Message>)
    ensures forall i :: 0 < i < |Coalesced(messages)| ==> !Coalesced(messages)[i].role.System?
    ensures Conversation(Coalesced(messages)) == Conversation(messages)
  {
    CoalescedParts(messages);
    ConversationHasNoSystem(messages);
  }

  lemma {:induction false} TextsConcat(a: seq<Message>, b: seq<Message>)
    ensures SystemTexts(a + b) == SystemTexts(a) + SystemTexts(b)
  {
    if b == [] {
      assert a + b == a;
    } else {
      TextsConcat(a, b[..|b| - 1]);
      assert (a + b)[..|a + b| - 1] == a + b[..|b| - 1];
    }
  }

  lemma {:induction false} TalkConcat(a: seq<Message>, b: seq<Message>)
    ensures Conversation(a + b) == Conversation(a) + Conversation(b)
  {
    if b == [] {
      assert a + b == a;
    } else {
      TalkConcat(a, b[..|b| - 1]);
      assert (a + b)[..|a + b| - 1] == a + b[..|b| - 1];
    }
  }

  /** Where a system message in the middle of a history goes, and where any other message goes: its text after the texts
      before it, itself after the conversation before it. */
  lemma MessageGoes(before: seq<Message>, m: Message, after: seq<Message>)
    ensures
      var all := before + [m] + after;
      && SystemTexts(all)
         == SystemTexts(before) + (if m.role.System? && m.content.Some? then [m.content.value] else [])
            + SystemTexts(after)
      && Conversation(all) == Conversation(before) + (if m.role.System? then [] else [m]) + Conversation(after)
  {
    TextsConcat(before + [m], after);
    TextsConcat(before, [m]);
    TalkConcat(before + [m], after);
    TalkConcat(before, [m]);
    assert [m][..0] == [];
  }

  /** Every system text of a history survives coalescing, in full and in order, a blank line between neighbours, in one
      message in front; without any there is no such message. */
  lemma CoalescedKeepsTexts(messages: seq<Message>, i: nat)
    requires i < |SystemTexts(messages)|
    ensures
      var texts, r := SystemTexts(messages), Coalesced(messages);
      var start := TextStart(texts, i);
      && r != [] && r[0].role.System? && r[0].content.Some?
      && var joined := r[0].content.value;
      && start + |texts[i]| <= |joined| && joined[start..start + |texts[i]|] == texts[i]
      && (if i == |texts| - 1 then start + |texts[i]| == |joined|
          else start + |texts[i]| + 2 <= |joined|
               && joined[start + |texts[i]|..start + |texts[i]| + 2] == "\n\n")
  {
    JoinKeepsTexts(SystemTexts(messages), i);
  }

  /** Coalescing changes nothing the second time. */
  lemma CoalescingTwice(messages: seq<Message>)
    ensures Coalesced(Coalesced(messages)) == Coalesced(messages)
  {
    CoalescedParts(messages);
  }
}
