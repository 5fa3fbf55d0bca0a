/** Output items as JSON: a client can read every finished item back from what it is sent. */
module ItemWire {
  import opened Wrappers
  import opened Json
  import opened Responses

  // ---------------------------------------------------------------- identities

  function Pow16(width: nat): (p: nat)
    ensures p > 0
  {
    if width == 0 then 1 else 16 * Pow16(width - 1)
  }

  function DigitValue(c: char): int {
    if '0' <= c <= '9' then c as int - '0' as int else c as int - 'a' as int + 10
  }

  /** The number a hexadecimal text stands for. */
  function HexValue(s: string): int {
    if s == "" then 0 else 16 * HexValue(s[..|s| - 1]) + DigitValue(s[|s| - 1])
  }

  /** The digits of a number read back as that number. */
  lemma {:induction false} HexReadsBack(n: nat, width: nat)
    requires n < Pow16(width)
    ensures HexValue(Hex(n, width)) == n
  {
    if width > 0 {
      HexEnds(n, width);
      DigitReadsBack(n % 16);
      hide Hex;
      HexReadsBack(n / 16, width - 1);
    }
  }

  lemma HexEnds(n: nat, width: nat)
    requires width > 0
    ensures |Hex(n, width)| == width && Hex(n, width)[width - 1] == HEX_DIGITS[n % 16]
    ensures Hex(n, width)[..width - 1] == Hex(n / 16, width - 1)
  {
  }

  lemma DigitReadsBack(d: nat)
    requires d < 16
    ensures DigitValue(HEX_DIGITS[d]) == d
  {
  }

  /** An identity as a client reads it: a prefix, an underscore and sixteen digits. */
  function ReadId(text: string): Option<ItemId> {
    if |text| < 17 || text[|text| - 17] != '_' then None
    else
      var number := HexValue(text[|text| - 16..]);
      if 0 <= number < 0x1_0000_0000_0000_0000 then Some(ItemId(text[..|text| - 17], number)) else None
  }

  lemma IdReadsBack(id: ItemId)
    ensures ReadId(id.Text()) == Some(id)
  {
    var s := id.Text();
    assert s[|s| - 16..] == Hex(id.number, 16) && s[..|s| - 17] == id.prefix;
    assert Pow16(4) == 65536 && Pow16(8) == 65536 * 65536 && Pow16(12) == 65536 * Pow16(8);
    assert Pow16(16) == 65536 * Pow16(12) == 0x1_0000_0000_0000_0000;
    HexReadsBack(id.number, 16);
  }

  /** Distinct identities are spelled differently on the wire. */
  lemma IdTextInjective(a: ItemId, b: ItemId)
    requires a.Text() == b.Text()
    ensures a == b
  {
    hide ReadId;
    IdReadsBack(a);
    IdReadsBack(b);
  }

  // ---------------------------------------------------------------- items

  function ReadStatus(v: Value): Option<Status> {
    match GetStr(v, "status")
    case Some(status) =>
      if status == "in_progress" then Some(InProgress)
      else if status == "completed" then Some(Status.Completed)
      else None
    case None => None
  }

  /** The text of the one part of the given type under a member, or no text when the member is an empty list. */
  function ReadPart(v: Value, member: string, kind: string): Option<string> {
    match Get(v, member)
    case Some(Arr(parts)) =>
      if parts == [] then Some("")
      else if |parts| == 1 && GetStr(parts[0], "type") == Some(kind) then GetStr(parts[0], "text")
      else None
    case _ => None
  }

  /** The text of a reasoning item: its one summary part, next to no content and nothing encrypted. */
  function ReadSummary(v: Value): Option<string> {
    if Get(v, "content") == Some(Arr([])) && Get(v, "encrypted_content") == Some(Null)
    then ReadPart(v, "summary", "summary_text")
    else None
  }

  /** Each part of an assistant message comes without annotations and without probabilities. */
  predicate PlainParts(v: Value) {
    match Get(v, "content")
    case Some(Arr(parts)) =>
      parts == [] ||
      (Get(parts[0], "annotations") == Some(Arr([])) && Get(parts[0], "logprobs") == Some(Arr([])))
    case _ => false
  }

  /** The text of an assistant message. */
  function ReadMessage(v: Value): Option<string> {
    if GetStr(v, "role") == Some("assistant") && PlainParts(v) then ReadPart(v, "content", "output_text") else None
  }

  function ReadCall(v: Value, id: ItemId, status: Status): Option<Item> {
    match (GetStr(v, "call_id"), GetStr(v, "name"), GetStr(v, "arguments"))
    case (Some(callId), Some(name), Some(arguments)) => Some(FunctionItem(id, callId, name, arguments, status))
    case _ => None
  }

  function ReadKind(v: Value, id: ItemId, status: Status): Option<Item> {
    match GetStr(v, "type")
    case Some(kind) =>
      if kind == "message" then
        match ReadMessage(v) { case Some(text) => Some(MessageItem(id, status, text)) case None => None }
      else if kind == "reasoning" then
        match ReadSummary(v) { case Some(text) => Some(ReasoningItem(id, status, text)) case None => None }
      else if kind == "function_call" then ReadCall(v, id, status)
      else None
    case None => None
  }

  /** An item as a client reads it from its JSON. */
  function ReadItem(v: Value): Option<Item> {
    match GetStr(v, "id")
    case Some(text) =>
      (match (ReadId(text), ReadStatus(v))
       case (Some(id), Some(status)) => ReadKind(v, id, status)
       case _ => None)
    case None => None
  }

  /** An item in progress is announced without its text; everything else is in the JSON. */
  function Announced(item: Item): Item {
    match item
    case MessageItem(id, InProgress, _) => MessageItem(id, InProgress, "")
    case ReasoningItem(id, InProgress, _) => ReasoningItem(id, InProgress, "")
    case _ => item
  }

  lemma HeadRead(v: Value, id: ItemId, status: Status)
    requires GetStr(v, "id") == Some(id.Text()) && ReadStatus(v) == Some(status)
    ensures ReadItem(v) == ReadKind(v, id, status)
  {
    IdReadsBack(id);
    hide ReadId, ReadStatus, ReadKind;
  }

  lemma MessageReadsBack(id: ItemId, status: Status, text: string)
    ensures
      var item := MessageItem(id, status, text);
      ReadItem(item.Json()) == Some(Announced(item))
  {
    var v := MessageItem(id, status, text).Json();
    assert GetStr(OutputText(text), "type") == Some("output_text");
    assert ReadMessage(v) == Some(if status.InProgress? then "" else text);
    assert GetStr(v, "id") == Some(id.Text()) && GetStr(v, "type") == Some("message");
    assert ReadStatus(v) == Some(status);
    hide GetStr, ReadStatus, ReadMessage;
    HeadRead(v, id, status);
  }

  lemma ReasoningReadsBack(id: ItemId, status: Status, text: string)
    ensures
      var item := ReasoningItem(id, status, text);
      ReadItem(item.Json()) == Some(Announced(item))
  {
    var v := ReasoningItem(id, status, text).Json();
    assert GetStr(ReasoningSummary(text), "type") == Some("summary_text");
    assert ReadSummary(v) == Some(if status.InProgress? then "" else text);
    assert GetStr(v, "id") == Some(id.Text()) && GetStr(v, "type") == Some("reasoning");
    assert ReadStatus(v) == Some(status);
    hide GetStr, ReadStatus, ReadSummary;
    HeadRead(v, id, status);
  }

  lemma CallReadsBack(id: ItemId, callId: string, name: string, arguments: string, status: Status)
    ensures
      var item := FunctionItem(id, callId, name, arguments, status);
      ReadItem(item.Json()) == Some(item)
  {
    var v := FunctionItem(id, callId, name, arguments, status).Json();
    assert ReadCall(v, id, status) == Some(FunctionItem(id, callId, name, arguments, status));
    assert GetStr(v, "id") == Some(id.Text()) && GetStr(v, "type") == Some("function_call");
    assert ReadStatus(v) == Some(status);
    hide GetStr, ReadStatus, ReadCall;
    HeadRead(v, id, status);
  }

  /** A client reads every item back: all of a finished one, and of one in progress all but the text to come. */
  lemma ItemReadsBack(item: Item)
    ensures ReadItem(item.Json()) == Some(Announced(item))
  {
    hide ReadItem;
    match item
    case MessageItem(id, status, text) => MessageReadsBack(id, status, text);
    case ReasoningItem(id, status, text) => ReasoningReadsBack(id, status, text);
    case FunctionItem(id, callId, name, arguments, status) => CallReadsBack(id, callId, name, arguments, status);
  }

  lemma {:induction false} OutputJsonAt(items: seq<Item>, i: nat)
    requires i < |items|
    ensures |OutputJson(items)| == |items| && OutputJson(items)[i] == items[i].Json()
  {
    hide Item.Json;
    var front := items[..|items| - 1];
    if |items| == 1 {
      assert OutputJson(front) == [];
    } else {
      OutputJsonAt(front, if i < |front| then i else 0);
    }
  }

  /** The output list of a response reads back place by place, and exactly when everything in it is finished or says
      nothing yet. */
  lemma OutputReadsBack(items: seq<Item>, i: nat)
    requires i < |items|
    ensures |OutputJson(items)| == |items|
    ensures ReadItem(OutputJson(items)[i]) == Some(items[i]) <==> items[i] == Announced(items[i])
  {
    OutputJsonAt(items, i);
    ItemReadsBack(items[i]);
  }
}
