/** Where the text and JSON roots of a session frame are: the schema walk of the logical-size analyzer. */
module SessionSchema {
  import opened Prelude
  import opened Utf8
  import opened Json

  /** An ASCII word as code units. */
  function Word(s: string): (r: Text)
    ensures |r| == |s|
  {
    seq(|s|, i requires 0 <= i < |s| => if s[i] <= '~' then s[i] as int else 0xFFFD)
  }

  lemma WordsDiffer(a: string, b: string, i: nat)
    requires |a| != |b| || (i < |a| && a[i] != b[i] && a[i] <= '~' && b[i] <= '~')
    ensures Word(a) != Word(b)
  {
    if |a| == |b| { assert Word(a)[i] == a[i] as int && Word(b)[i] == b[i] as int; }
  }

  // ---------------------------------------------------------------- records

  /** `record[key]`; own keys are distinct. */
  function Get(fields: seq<Field>, key: string): Option<Json> {
    if fields == [] then None
    else if fields[0].key == Word(key) then Some(fields[0].value)
    else Get(fields[1..], key)
  }

  predicate Is(fields: seq<Field>, key: string, word: string) { Get(fields, key) == Some(Str(Word(word))) }

  /** `Array.isArray(record[key])`. */
  predicate HasArray(fields: seq<Field>, key: string) { Get(fields, key).Some? && Get(fields, key).value.Arr? }

  // ---------------------------------------------------------------- schemas

  /** `UserBlocks` and `UserBlock` are "ordinary" to the analyzer: they hold no root, but images. */
  datatype Schema =
    | Ordinary
    | TextRoot
    | JsonRoot
    | SMessage
    | SMessages
    | ReviewedBlocks
    | ReviewedBlock
    | UserBlocks
    | UserBlock
    | AssistantBlocks
    | AssistantBlock
    | SToolCall
    | SEntry
    | SEntries
    | STree
    | STreeNode
    | SEvent
    | ExtensionRequest
    | ExtensionRequests
    | StreamEvent
    | SResponse
    | ResponseMessages
    | ResponseEntries
    | ResponseTree
    | Projection
    | ProjectionEvents
    | Replay
    | Snapshot
    | ResponseFrame
    | Ws

  function ItemSchema(schema: Schema): Schema {
    match schema
    case SMessages => SMessage
    case ReviewedBlocks => ReviewedBlock
    case UserBlocks => UserBlock
    case AssistantBlocks => AssistantBlock
    case SEntries => SEntry
    case STree => STreeNode
    case ProjectionEvents => Projection
    case ExtensionRequests => ExtensionRequest
    case _ => Ordinary
  }

  function MessageChild(fields: seq<Field>, key: Text): Schema {
    if Is(fields, "role", "assistant") then (if key == Word("content") then AssistantBlocks else Ordinary)
    else if Is(fields, "role", "toolResult") then
      (if key == Word("content") then ReviewedBlocks else if key == Word("details") then JsonRoot else Ordinary)
    else if Is(fields, "role", "custom") then
      (if key == Word("content") && HasArray(fields, "content") then ReviewedBlocks
       else if key == Word("details") then JsonRoot else Ordinary)
    else if Is(fields, "role", "bashExecution") then (if key == Word("output") then TextRoot else Ordinary)
    else if Is(fields, "role", "user") then
      (if key == Word("content") && HasArray(fields, "content") then UserBlocks else Ordinary)
    else Ordinary
  }

  function EntryChild(fields: seq<Field>, key: Text): Schema {
    if Is(fields, "type", "message") && key == Word("message") then SMessage
    else if Is(fields, "type", "custom_message") then
      (if key == Word("content") && HasArray(fields, "content") then ReviewedBlocks
       else if key == Word("details") then JsonRoot else Ordinary)
    else Ordinary
  }

  function EventChild(fields: seq<Field>, key: Text): Schema {
    if Is(fields, "type", "agent_end") then (if key == Word("messages") then SMessages else Ordinary)
    else if Is(fields, "type", "turn_end") then
      (if key == Word("message") then SMessage else if key == Word("toolResults") then SMessages else Ordinary)
    else if Is(fields, "type", "message_start") || Is(fields, "type", "message_end") then
      (if key == Word("message") then SMessage else Ordinary)
    else if Is(fields, "type", "entry_appended") then (if key == Word("entry") then SEntry else Ordinary)
    else if Is(fields, "type", "message_update") then
      (if key == Word("assistantMessageEvent") then StreamEvent else Ordinary)
    else if Is(fields, "type", "tool_execution_start") then (if key == Word("args") then JsonRoot else Ordinary)
    else if Is(fields, "type", "tool_execution_update") then
      (if key == Word("args") || key == Word("partialResult") then JsonRoot else Ordinary)
    else if Is(fields, "type", "tool_execution_end") then (if key == Word("result") then JsonRoot else Ordinary)
    else Ordinary
  }

  function ExtensionChild(fields: seq<Field>, key: Text): Schema {
    if Is(fields, "method", "editor") then (if key == Word("prefill") then TextRoot else Ordinary)
    else if Is(fields, "method", "set_editor_text") then (if key == Word("text") then TextRoot else Ordinary)
    else if Is(fields, "method", "setWidget") then (if key == Word("widgetLines") then JsonRoot else Ordinary)
    else Ordinary
  }

  function ResponseChild(fields: seq<Field>, key: Text): Schema {
    if key != Word("data") then Ordinary
    else if Is(fields, "command", "get_messages") then ResponseMessages
    else if Is(fields, "command", "get_entries") then ResponseEntries
    else if Is(fields, "command", "get_tree") then ResponseTree
    else Ordinary
  }

  function FrameChild(fields: seq<Field>, key: Text): Schema {
    if Is(fields, "type", "event") && key == Word("event") then SEvent
    else if Is(fields, "type", "extension_ui_request") && key == Word("request") then ExtensionRequest
    else Ordinary
  }

  function SnapshotChild(key: Text): Schema {
    if key == Word("settledMessages") then SMessages
    else if key == Word("projectionEvents") then ProjectionEvents
    else if key == Word("pendingExtensionRequests") || key == Word("stickyExtensionState") then ExtensionRequests
    else Ordinary
  }

  function WsChild(fields: seq<Field>, key: Text): Schema {
    if Is(fields, "type", "event") && key == Word("event") then SEvent
    else if Is(fields, "type", "extension_ui_request") && key == Word("request") then ExtensionRequest
    else if Is(fields, "type", "extension_ui_snapshot") && key == Word("requests") then ExtensionRequests
    else if Is(fields, "type", "response") && key == Word("response") then SResponse
    else if Is(fields, "type", "session_snapshot") then SnapshotChild(key)
    else Ordinary
  }

  /** The schema of a record's field. */
  function ChildSchema(schema: Schema, fields: seq<Field>, key: Text): Schema {
    match schema
    case SMessage => MessageChild(fields, key)
    case AssistantBlock => if Is(fields, "type", "toolCall") && key == Word("arguments") then JsonRoot else Ordinary
    case SToolCall => if key == Word("arguments") then JsonRoot else Ordinary
    case SEntry => EntryChild(fields, key)
    case STreeNode => if key == Word("entry") then SEntry else if key == Word("children") then STree else Ordinary
    case SEvent => EventChild(fields, key)
    case ExtensionRequest => ExtensionChild(fields, key)
    case StreamEvent => if Is(fields, "type", "toolcall_end") && key == Word("toolCall") then SToolCall else Ordinary
    case SResponse => ResponseChild(fields, key)
    case ResponseMessages => if key == Word("messages") then SMessages else Ordinary
    case ResponseEntries => if key == Word("entries") then SEntries else Ordinary
    case ResponseTree => if key == Word("tree") then STree else Ordinary
    case Projection => FrameChild(fields, key)
    case Replay => FrameChild(fields, key)
    case Snapshot => SnapshotChild(key)
    case ResponseFrame => if key == Word("response") then SResponse else Ordinary
    case Ws => WsChild(fields, key)
    case ReviewedBlock => if Is(fields, "type", "text") && key == Word("text") then TextRoot else Ordinary
    case _ => Ordinary
  }

  // ---------------------------------------------------------------- rebuilding a frame root by root

  /** What a traversal does with a text root, a JSON root, and an image block. */
  datatype Leaves = Leaves(text: Json -> Json, json: Json -> Json, image: Json -> Json)

  predicate IsImage(schema: Schema, v: Json) {
    (schema == ReviewedBlock || schema == UserBlock) && v.Obj? && Is(v.fields, "type", "image")
  }

  /** Replaces every root and leaves everything else as it is. */
  function Walk(schema: Schema, v: Json, leaves: Leaves): Json
    decreases v
  {
    if schema == TextRoot then leaves.text(v)
    else if schema == JsonRoot then leaves.json(v)
    else if schema == Ordinary then v
    else if IsImage(schema, v) then leaves.image(v)
    else
      match v
      case Arr(items) => Arr(seq(|items|, i requires 0 <= i < |items| => Walk(ItemSchema(schema), items[i], leaves)))
      case Obj(fields) =>
        Obj(seq(|fields|, i requires 0 <= i < |fields| =>
          Field(fields[i].key, Walk(ChildSchema(schema, fields, fields[i].key), fields[i].value, leaves))))
      case _ => v
  }

  function WalkFields(schema: Schema, fields: seq<Field>, leaves: Leaves): (r: seq<Field>)
    ensures |r| == |fields|
    ensures forall i :: 0 <= i < |fields| ==>
      r[i] == Field(fields[i].key, Walk(ChildSchema(schema, fields, fields[i].key), fields[i].value, leaves))
  {
    seq(|fields|, i requires 0 <= i < |fields| =>
      Field(fields[i].key, Walk(ChildSchema(schema, fields, fields[i].key), fields[i].value, leaves)))
  }

  function WalkItems(schema: Schema, items: seq<Json>, leaves: Leaves): (r: seq<Json>)
    ensures |r| == |items| && forall i :: 0 <= i < |items| ==> r[i] == Walk(schema, items[i], leaves)
  {
    seq(|items|, i requires 0 <= i < |items| => Walk(schema, items[i], leaves))
  }

  lemma WalkUnfolds(schema: Schema, v: Json, leaves: Leaves)
    requires schema != TextRoot && schema != JsonRoot && schema != Ordinary && !IsImage(schema, v)
    ensures v.Arr? ==> Walk(schema, v, leaves) == Arr(WalkItems(ItemSchema(schema), v.items, leaves))
    ensures v.Obj? ==> Walk(schema, v, leaves) == Obj(WalkFields(schema, v.fields, leaves))
    ensures !v.Arr? && !v.Obj? ==> Walk(schema, v, leaves) == v
  {
  }

  // ---------------------------------------------------------------- a walk keeps what schemas look at

  /** The fields that decide about schemas. */
  predicate Decides(key: string) { key == "type" || key == "role" || key == "method" || key == "command" }

  predicate RootKey(key: Text) {
    || key == Word("content") || key == Word("details") || key == Word("output") || key == Word("arguments") ||
      key == Word("message")
    || key == Word("entry") || key == Word("children") || key == Word("messages") || key == Word("toolResults") ||
      key == Word("args")
    || key == Word("partialResult") || key == Word("result") || key == Word("assistantMessageEvent") ||
      key == Word("toolCall")
    || key == Word("data") || key == Word("entries") || key == Word("tree") || key == Word("prefill") ||
      key == Word("text")
    || key == Word("widgetLines") || key == Word("event") || key == Word("request") || key == Word("requests") ||
      key == Word("response")
    || key == Word("settledMessages") || key == Word("projectionEvents") || key == Word("pendingExtensionRequests")
    || key == Word("stickyExtensionState")
  }

  lemma OnlyRootKeys(schema: Schema, fields: seq<Field>, key: Text)
    ensures ChildSchema(schema, fields, key) != Ordinary ==> RootKey(key)
  {
    hide Is, HasArray, Word;
  }

  lemma TypeIsNoRoot()
    ensures !RootKey(Word("type"))
  {
    WordsDiffer("type", "args", 0);
    WordsDiffer("type", "data", 0);
    WordsDiffer("type", "tree", 1);
    WordsDiffer("type", "text", 1);
  }

  lemma RoleIsNoRoot()
    ensures !RootKey(Word("role"))
  {
    WordsDiffer("role", "args", 0);
    WordsDiffer("role", "data", 0);
    WordsDiffer("role", "tree", 0);
    WordsDiffer("role", "text", 0);
  }

  lemma MethodIsNoRoot()
    ensures !RootKey(Word("method"))
  {
    WordsDiffer("method", "output", 0);
    WordsDiffer("method", "result", 0);
  }

  lemma CommandIsNoRoot()
    ensures !RootKey(Word("command"))
  {
    WordsDiffer("command", "content", 2);
    WordsDiffer("command", "details", 0);
    WordsDiffer("command", "message", 0);
    WordsDiffer("command", "entries", 0);
    WordsDiffer("command", "prefill", 0);
    WordsDiffer("command", "request", 0);
  }

  lemma DecidingIsNoRoot(key: string)
    requires Decides(key)
    ensures !RootKey(Word(key))
  {
    hide RootKey, Word;
    if key == "type" { TypeIsNoRoot(); }
    else if key == "role" { RoleIsNoRoot(); }
    else if key == "method" { MethodIsNoRoot(); }
    else { CommandIsNoRoot(); }
  }

  /** Fields with the same keys, the same deciding values, and arrays where there were arrays. */
  ghost predicate SameShape(a: seq<Field>, b: seq<Field>) {
    && (forall key: string :: Decides(key) ==> Get(a, key) == Get(b, key))
    && HasArray(a, "content") == HasArray(b, "content")
  }

  lemma SameIs(a: seq<Field>, b: seq<Field>)
    requires SameShape(a, b)
    ensures forall w: string :: Is(a, "type", w) == Is(b, "type", w) && Is(a, "role", w) == Is(b, "role", w)
    ensures forall w: string :: Is(a, "method", w) == Is(b, "method", w) && Is(a, "command", w) == Is(b, "command", w)
    ensures HasArray(a, "content") == HasArray(b, "content")
  {
    hide Get, Word;
    assert Decides("type") && Decides("role") && Decides("method") && Decides("command");
  }

  lemma SameMessageChild(a: seq<Field>, b: seq<Field>, key: Text)
    requires SameShape(a, b)
    ensures MessageChild(a, key) == MessageChild(b, key)
  {
    hide Get, Word, Is;
    SameIs(a, b);
  }

  lemma SameEntryChild(a: seq<Field>, b: seq<Field>, key: Text)
    requires SameShape(a, b)
    ensures EntryChild(a, key) == EntryChild(b, key)
  {
    hide Get, Word, Is;
    SameIs(a, b);
  }

  lemma SameEventChild(a: seq<Field>, b: seq<Field>, key: Text)
    requires SameShape(a, b)
    ensures EventChild(a, key) == EventChild(b, key)
  {
    hide Get, Word, Is;
    SameIs(a, b);
  }

  lemma SameExtensionChild(a: seq<Field>, b: seq<Field>, key: Text)
    requires SameShape(a, b)
    ensures ExtensionChild(a, key) == ExtensionChild(b, key)
  {
    hide Get, Word, Is;
    SameIs(a, b);
  }

  lemma SameResponseChild(a: seq<Field>, b: seq<Field>, key: Text)
    requires SameShape(a, b)
    ensures ResponseChild(a, key) == ResponseChild(b, key)
  {
    hide Get, Word, Is;
    SameIs(a, b);
  }

  lemma SameFrameChild(a: seq<Field>, b: seq<Field>, key: Text)
    requires SameShape(a, b)
    ensures FrameChild(a, key) == FrameChild(b, key)
  {
    hide Get, Word, Is;
    SameIs(a, b);
  }

  lemma SameWsChild(a: seq<Field>, b: seq<Field>, key: Text)
    requires SameShape(a, b)
    ensures WsChild(a, key) == WsChild(b, key)
  {
    hide Get, Word, Is;
    SameIs(a, b);
  }

  lemma SameSchemas(schema: Schema, a: seq<Field>, b: seq<Field>, key: Text)
    requires SameShape(a, b)
    ensures ChildSchema(schema, a, key) == ChildSchema(schema, b, key)
  {
    hide Get, Word, Is, MessageChild, EntryChild, EventChild, ExtensionChild, ResponseChild, FrameChild, WsChild,
      SnapshotChild;
    SameIs(a, b);
    SameMessageChild(a, b, key);
    SameEntryChild(a, b, key);
    SameEventChild(a, b, key);
    SameExtensionChild(a, b, key);
    SameResponseChild(a, b, key);
    SameFrameChild(a, b, key);
    SameWsChild(a, b, key);
  }
}
