/** The externalizer's traversal and the shadowing decoder's, written out as the source writes them, against
    the walk over the analyzer's schemas: all three visit the same roots. */
module FrameTraversals {
  import opened Prelude
  import opened Utf8
  import opened Json
  import opened SessionSchema
  import opened SessionWalk

  // ---------------------------------------------------------------- records and lists

  /** `{ ...record, [key]: f(record[key]) }`. */
  function Update(fields: seq<Field>, key: string, f: Json -> Json): (r: seq<Field>)
    ensures |r| == |fields|
    ensures forall i :: 0 <= i < |fields| ==>
      r[i] == Field(fields[i].key, if fields[i].key == Word(key) then f(fields[i].value) else fields[i].value)
  {
    seq(|fields|, i requires 0 <= i < |fields| =>
      Field(fields[i].key, if fields[i].key == Word(key) then f(fields[i].value) else fields[i].value))
  }

  function MapItems(v: Json, f: Json -> Json): Json {
    if v.Arr? then Arr(seq(|v.items|, i requires 0 <= i < |v.items| => f(v.items[i]))) else v
  }

  // ---------------------------------------------------------------- the externalizer

  function ToolCall(v: Json, leaves: Leaves): Json {
    if v.Obj? then Obj(Update(v.fields, "arguments", leaves.json)) else v
  }

  datatype BlockOptions = BlockOptions(images: bool, text: bool, toolCalls: bool)

  function Block(v: Json, options: BlockOptions, leaves: Leaves): Json {
    if !v.Obj? then v
    else if options.images && Is(v.fields, "type", "image") then leaves.image(v)
    else if options.text && Is(v.fields, "type", "text") then Obj(Update(v.fields, "text", leaves.text))
    else if options.toolCalls && Is(v.fields, "type", "toolCall") then ToolCall(v, leaves)
    else v
  }

  function Blocks(v: Json, options: BlockOptions, leaves: Leaves): Json {
    MapItems(v, block => Block(block, options, leaves))
  }

  function Message(v: Json, leaves: Leaves): Json {
    if !v.Obj? then v
    else if Is(v.fields, "role", "user") then
      Obj(Update(v.fields, "content", c => Blocks(c, BlockOptions(true, false, false), leaves)))
    else if Is(v.fields, "role", "assistant") then
      Obj(Update(v.fields, "content", c => Blocks(c, BlockOptions(false, false, true), leaves)))
    else if Is(v.fields, "role", "toolResult") || Is(v.fields, "role", "custom") then
      Obj(Update(Update(v.fields, "content", c => Blocks(c, BlockOptions(true, true, false), leaves)), "details",
        leaves.json))
    else if Is(v.fields, "role", "bashExecution") then Obj(Update(v.fields, "output", leaves.text))
    else v
  }

  function Entry(v: Json, leaves: Leaves): Json {
    if !v.Obj? then v
    else if Is(v.fields, "type", "message") then Obj(Update(v.fields, "message", m => Message(m, leaves)))
    else if Is(v.fields, "type", "custom_message") then
      Obj(Update(Update(v.fields, "content", c => Blocks(c, BlockOptions(true, true, false), leaves)), "details",
        leaves.json))
    else v
  }

  function TreeNode(v: Json, leaves: Leaves): Json
    decreases v
  {
    if !v.Obj? then v
    else
      Obj(seq(|v.fields|, i requires 0 <= i < |v.fields| =>
        var f := v.fields[i];
        Field(f.key,
          if f.key == Word("entry") then Entry(f.value, leaves)
          else if f.key == Word("children") then Tree(f.value, leaves)
          else f.value)))
  }

  function Tree(v: Json, leaves: Leaves): Json
    decreases v
  {
    if v.Arr? then Arr(seq(|v.items|, i requires 0 <= i < |v.items| => TreeNode(v.items[i], leaves))) else v
  }

  function StreamUpdate(v: Json, leaves: Leaves): Json {
    if v.Obj? && Is(v.fields, "type", "toolcall_end") then Obj(Update(v.fields, "toolCall", c => ToolCall(c, leaves)))
    else v
  }

  function Messages(v: Json, leaves: Leaves): Json { MapItems(v, m => Message(m, leaves)) }

  function Event(v: Json, leaves: Leaves): Json {
    if !v.Obj? then v
    else if Is(v.fields, "type", "agent_end") then Obj(Update(v.fields, "messages", m => Messages(m, leaves)))
    else if Is(v.fields, "type", "turn_end") then
      Obj(Update(Update(v.fields, "message", m => Message(m, leaves)), "toolResults", m => Messages(m, leaves)))
    else if Is(v.fields, "type", "message_start") || Is(v.fields, "type", "message_end") then
      Obj(Update(v.fields, "message", m => Message(m, leaves)))
    else if Is(v.fields, "type", "entry_appended") then Obj(Update(v.fields, "entry", e => Entry(e, leaves)))
    else if Is(v.fields, "type", "message_update") then
      Obj(Update(v.fields, "assistantMessageEvent", e => StreamUpdate(e, leaves)))
    else if Is(v.fields, "type", "tool_execution_start") then Obj(Update(v.fields, "args", leaves.json))
    else if Is(v.fields, "type", "tool_execution_update") then
      Obj(Update(Update(v.fields, "args", leaves.json), "partialResult", leaves.json))
    else if Is(v.fields, "type", "tool_execution_end") then Obj(Update(v.fields, "result", leaves.json))
    else v
  }

  function TextField(v: Json, leaves: Leaves): Json { if v.Str? then leaves.text(v) else v }

  function Extension(v: Json, leaves: Leaves): Json {
    if !v.Obj? then v
    else if Is(v.fields, "method", "editor") then Obj(Update(v.fields, "prefill", x => TextField(x, leaves)))
    else if Is(v.fields, "method", "set_editor_text") then Obj(Update(v.fields, "text", x => TextField(x, leaves)))
    else if Is(v.fields, "method", "setWidget") then Obj(Update(v.fields, "widgetLines", leaves.json))
    else v
  }

  function DataField(v: Json, key: string, f: Json -> Json): Json {
    if v.Obj? then Obj(Update(v.fields, key, f)) else v
  }

  function Response(v: Json, leaves: Leaves): Json {
    if !v.Obj? || Get(v.fields, "success") != Some(Bool(true)) then v
    else if Is(v.fields, "command", "get_messages") then
      Obj(Update(v.fields, "data", d => DataField(d, "messages", m => Messages(m, leaves))))
    else if Is(v.fields, "command", "get_entries") then
      Obj(Update(v.fields, "data", d => DataField(d, "entries", e => MapItems(e, x => Entry(x, leaves)))))
    else if Is(v.fields, "command", "get_tree") then
      Obj(Update(v.fields, "data", d => DataField(d, "tree", t => Tree(t, leaves))))
    else v
  }

  // ---------------------------------------------------------------- it is the walk

  lemma SeqObj(a: seq<Field>, b: seq<Field>)
    requires |a| == |b| && forall i :: 0 <= i < |a| ==> a[i] == b[i]
    ensures a == b
  {
  }

  lemma ToolCallIsWalk(v: Json, leaves: Leaves)
    ensures ToolCall(v, leaves) == Walk(SToolCall, v, leaves)
  {
    WalkUnfolds(SToolCall, v, leaves);
    hide Word, Is, Get;
    if v.Obj? { SeqObj(Update(v.fields, "arguments", leaves.json), WalkFields(SToolCall, v.fields, leaves)); }
    else if v.Arr? { assert WalkItems(Ordinary, v.items, leaves) == v.items; }
  }

  /** A record no schema looks into stays as it is. */
  lemma NoRoots(schema: Schema, v: Json, leaves: Leaves)
    requires schema != TextRoot && schema != JsonRoot && !IsImage(schema, v)
    requires v.Obj? ==> forall i :: 0 <= i < |v.fields| ==> ChildSchema(schema, v.fields, v.fields[i].key) == Ordinary
    requires v.Arr? ==> ItemSchema(schema) == Ordinary
    ensures Walk(schema, v, leaves) == v
  {
    hide ChildSchema, ItemSchema, IsImage;
    if schema != Ordinary {
      WalkUnfolds(schema, v, leaves);
      if v.Obj? { SeqObj(WalkFields(schema, v.fields, leaves), v.fields); }
      if v.Arr? { assert WalkItems(ItemSchema(schema), v.items, leaves) == v.items; }
    }
  }

  lemma BlockIsWalk(v: Json, leaves: Leaves)
    ensures Block(v, BlockOptions(true, true, false), leaves) == Walk(ReviewedBlock, v, leaves)
    ensures Block(v, BlockOptions(true, false, false), leaves) == Walk(UserBlock, v, leaves)
    ensures Block(v, BlockOptions(false, false, true), leaves) == Walk(AssistantBlock, v, leaves)
  {
    hide Word, Get;
    ReviewedIsWalk(v, leaves);
    UserIsWalk(v, leaves);
    AssistantIsWalk(v, leaves);
  }

  lemma ReviewedIsWalk(v: Json, leaves: Leaves)
    ensures Block(v, BlockOptions(true, true, false), leaves) == Walk(ReviewedBlock, v, leaves)
  {
    hide Word, Get, Is;
    if !IsImage(ReviewedBlock, v) {
      if v.Obj? && Is(v.fields, "type", "text") {
        WalkUnfolds(ReviewedBlock, v, leaves);
        SeqObj(Update(v.fields, "text", leaves.text), WalkFields(ReviewedBlock, v.fields, leaves));
      } else {
        NoRoots(ReviewedBlock, v, leaves);
      }
    }
  }

  lemma UserIsWalk(v: Json, leaves: Leaves)
    ensures Block(v, BlockOptions(true, false, false), leaves) == Walk(UserBlock, v, leaves)
  {
    hide Word, Get, Is;
    if !IsImage(UserBlock, v) { NoRoots(UserBlock, v, leaves); }
  }

  lemma AssistantIsWalk(v: Json, leaves: Leaves)
    ensures Block(v, BlockOptions(false, false, true), leaves) == Walk(AssistantBlock, v, leaves)
  {
    hide Word, Get, Is;
    if v.Obj? && Is(v.fields, "type", "toolCall") {
      WalkUnfolds(AssistantBlock, v, leaves);
      SeqObj(Update(v.fields, "arguments", leaves.json), WalkFields(AssistantBlock, v.fields, leaves));
    } else {
      NoRoots(AssistantBlock, v, leaves);
    }
  }

  /** A traversal of a list, item by item. */
  lemma ListIsWalk(v: Json, f: Json -> Json, schema: Schema, leaves: Leaves)
    requires schema in {SMessages, ReviewedBlocks, UserBlocks, AssistantBlocks, SEntries}
    requires v.Arr? ==> forall i :: 0 <= i < |v.items| ==> f(v.items[i]) == Walk(ItemSchema(schema), v.items[i], leaves)
    ensures MapItems(v, f) == Walk(schema, v, leaves)
  {
    if v.Arr? {
      WalkUnfolds(schema, v, leaves);
      assert MapItems(v, f).items == WalkItems(ItemSchema(schema), v.items, leaves);
    } else {
      NoRoots(schema, v, leaves);
    }
  }

  lemma BlocksAreWalks(v: Json, leaves: Leaves)
    ensures Blocks(v, BlockOptions(true, true, false), leaves) == Walk(ReviewedBlocks, v, leaves)
    ensures Blocks(v, BlockOptions(true, false, false), leaves) == Walk(UserBlocks, v, leaves)
    ensures Blocks(v, BlockOptions(false, false, true), leaves) == Walk(AssistantBlocks, v, leaves)
  {
    hide Block, Walk, MapItems;
    forall x
      ensures Block(x, BlockOptions(true, true, false), leaves) == Walk(ReviewedBlock, x, leaves)
      ensures Block(x, BlockOptions(true, false, false), leaves) == Walk(UserBlock, x, leaves)
      ensures Block(x, BlockOptions(false, false, true), leaves) == Walk(AssistantBlock, x, leaves)
    {
      BlockIsWalk(x, leaves);
    }
    ListIsWalk(v, block => Block(block, BlockOptions(true, true, false), leaves), ReviewedBlocks, leaves);
    ListIsWalk(v, block => Block(block, BlockOptions(true, false, false), leaves), UserBlocks, leaves);
    ListIsWalk(v, block => Block(block, BlockOptions(false, false, true), leaves), AssistantBlocks, leaves);
  }

  lemma NotAList(v: Json, options: BlockOptions, leaves: Leaves)
    ensures !v.Arr? ==> Blocks(v, options, leaves) == v
  {
  }

  // ---------------------------------------------------------------- records

  /** Own keys of an object are distinct, at every level. */
  predicate OwnKeys(v: Json)
    decreases v
  {
    match v
    case Arr(items) => forall i :: 0 <= i < |items| ==> OwnKeys(items[i])
    case Obj(fields) =>
      && (forall i, j :: 0 <= i < j < |fields| ==> fields[i].key != fields[j].key)
      && (forall i :: 0 <= i < |fields| ==> OwnKeys(fields[i].value))
    case _ => true
  }

  lemma {:induction false} GetOwn(fields: seq<Field>, i: nat, key: string)
    requires forall a, b :: 0 <= a < b < |fields| ==> fields[a].key != fields[b].key
    requires i < |fields| && fields[i].key == Word(key)
    ensures Get(fields, key) == Some(fields[i].value)
  {
    if i > 0 { GetOwn(fields[1..], i - 1, key); }
  }

  /** Content blocks of a record whose content may be a plain string. */
  lemma ContentIsWalk(fields: seq<Field>, i: nat, options: BlockOptions, schema: Schema, leaves: Leaves)
    requires OwnKeys(Obj(fields)) && i < |fields| && fields[i].key == Word("content")
    requires (options == BlockOptions(true, true, false) && schema == ReviewedBlocks) ||
      (options == BlockOptions(true, false, false) && schema == UserBlocks)
    ensures Blocks(fields[i].value, options, leaves)
         == Walk(if HasArray(fields, "content") then schema else Ordinary, fields[i].value, leaves)
  {
    hide Word, Walk, Blocks;
    GetOwn(fields, i, "content");
    BlocksAreWalks(fields[i].value, leaves);
    NotAList(fields[i].value, options, leaves);
    OrdinaryWalk(fields[i].value, leaves);
  }

  function ContentThenDetails(fields: seq<Field>, leaves: Leaves): seq<Field> {
    Update(Update(fields, "content", c => Blocks(c, BlockOptions(true, true, false), leaves)), "details", leaves.json)
  }

  /** The schemas of a record with reviewed content and details. */
  predicate Reviewed(schema: Schema, fields: seq<Field>) {
    (schema == SMessage && (Is(fields, "role", "toolResult") || Is(fields, "role", "custom"))
     && !Is(fields, "role", "assistant") && !Is(fields, "role", "user"))
    || (schema == SEntry && Is(fields, "type", "custom_message") && !Is(fields, "type", "message"))
  }

  lemma ReviewedRecord(schema: Schema, fields: seq<Field>, leaves: Leaves)
    requires OwnKeys(Obj(fields)) && Reviewed(schema, fields)
    ensures ContentThenDetails(fields, leaves) == WalkFields(schema, fields, leaves)
  {
    hide Word, Get, Walk, Blocks, HasArray;
    WordsDiffer("content", "details", 0);
    WordsDiffer("content", "message", 0);
    WordsDiffer("details", "message", 0);
    var updated := ContentThenDetails(fields, leaves);
    forall i | 0 <= i < |fields| ensures updated[i] == WalkFields(schema, fields, leaves)[i] {
      JsonWalk(fields[i].value, leaves);
      OrdinaryWalk(fields[i].value, leaves);
      if fields[i].key == Word("content") {
        BlocksAreWalks(fields[i].value, leaves);
        ContentIsWalk(fields, i, BlockOptions(true, true, false), ReviewedBlocks, leaves);
      }
    }
    SeqObj(updated, WalkFields(schema, fields, leaves));
  }

  lemma JsonWalk(v: Json, leaves: Leaves)
    ensures Walk(JsonRoot, v, leaves) == leaves.json(v) && Walk(TextRoot, v, leaves) == leaves.text(v)
  {
  }

  lemma MessageIsWalk(v: Json, leaves: Leaves)
    requires OwnKeys(v)
    ensures Message(v, leaves) == Walk(SMessage, v, leaves)
  {
    RolesDiffer();
    if !v.Obj? {
      NoRoots(SMessage, v, leaves);
    } else {
      MessageRecord(v, leaves);
    }
  }

  lemma RolesDiffer()
    ensures Word("user") != Word("assistant") && Word("user") != Word("toolResult")
    ensures Word("user") != Word("custom") && Word("user") != Word("bashExecution")
    ensures Word("assistant") != Word("toolResult") && Word("assistant") != Word("custom")
    ensures Word("assistant") != Word("bashExecution")
    ensures Word("toolResult") != Word("custom") && Word("toolResult") != Word("bashExecution")
    ensures Word("custom") != Word("bashExecution")
  {
    WordsDiffer("user", "assistant", 0);
    WordsDiffer("user", "toolResult", 0);
    WordsDiffer("user", "custom", 0);
    WordsDiffer("user", "bashExecution", 0);
    WordsDiffer("assistant", "toolResult", 0);
    WordsDiffer("assistant", "custom", 0);
    WordsDiffer("assistant", "bashExecution", 0);
    WordsDiffer("toolResult", "custom", 0);
    WordsDiffer("toolResult", "bashExecution", 0);
    WordsDiffer("custom", "bashExecution", 0);
  }

  lemma MessageRecord(v: Json, leaves: Leaves)
    requires OwnKeys(v) && v.Obj?
    ensures Message(v, leaves) == Walk(SMessage, v, leaves)
  {
    hide Word, Get, Walk, Blocks, HasArray, OwnKeys;
    var fields := v.fields;
    RolesDiffer();
    WalkUnfolds(SMessage, v, leaves);
    if Is(fields, "role", "user") {
      UserRecord(fields, leaves);
    } else if Is(fields, "role", "assistant") {
      forall x
        ensures Blocks(x, BlockOptions(false, false, true), leaves) == Walk(AssistantBlocks, x, leaves)
      {
        BlocksAreWalks(x, leaves);
      }
      forall x ensures Walk(Ordinary, x, leaves) == x { OrdinaryWalk(x, leaves); }
      SeqObj(Message(v, leaves).fields, WalkFields(SMessage, fields, leaves));
    } else if Is(fields, "role", "toolResult") || Is(fields, "role", "custom") {
      ReviewedRecord(SMessage, fields, leaves);
      assert Message(v, leaves) == Obj(ContentThenDetails(fields, leaves));
    } else {
      forall x
        ensures Walk(Ordinary, x, leaves) == x && Walk(TextRoot, x, leaves) == leaves.text(x)
      {
        OrdinaryWalk(x, leaves);
        JsonWalk(x, leaves);
      }
      SeqObj(Message(v, leaves).fields, WalkFields(SMessage, fields, leaves));
    }
  }

  lemma UserRecord(fields: seq<Field>, leaves: Leaves)
    requires OwnKeys(Obj(fields)) && Is(fields, "role", "user")
    ensures Message(Obj(fields), leaves) == Obj(WalkFields(SMessage, fields, leaves))
  {
    hide Word, Get, Walk, Blocks, HasArray, OwnKeys;
    RolesDiffer();
    var updated := Update(fields, "content", c => Blocks(c, BlockOptions(true, false, false), leaves));
    forall i | 0 <= i < |fields| ensures updated[i] == WalkFields(SMessage, fields, leaves)[i] {
      OrdinaryWalk(fields[i].value, leaves);
      if fields[i].key == Word("content") {
        ContentIsWalk(fields, i, BlockOptions(true, false, false), UserBlocks, leaves);
      }
    }
    SeqObj(updated, WalkFields(SMessage, fields, leaves));
  }

  lemma EntryIsWalk(v: Json, leaves: Leaves)
    requires OwnKeys(v)
    ensures Entry(v, leaves) == Walk(SEntry, v, leaves)
  {
    WordsDiffer("message", "custom_message", 0);
    if !v.Obj? {
      NoRoots(SEntry, v, leaves);
    } else if Is(v.fields, "type", "message") {
      MessageEntryIsWalk(v, leaves);
    } else if Is(v.fields, "type", "custom_message") {
      CustomEntryIsWalk(v, leaves);
    } else {
      hide Word, Get, HasArray;
      NoRoots(SEntry, v, leaves);
    }
  }

  lemma MessageEntryIsWalk(v: Json, leaves: Leaves)
    requires OwnKeys(v) && v.Obj? && Is(v.fields, "type", "message")
    ensures Entry(v, leaves) == Walk(SEntry, v, leaves)
  {
    hide Word, Get, Walk, Message, HasArray;
    WalkUnfolds(SEntry, v, leaves);
    forall i | 0 <= i < |v.fields| ensures Entry(v, leaves).fields[i] == WalkFields(SEntry, v.fields, leaves)[i] {
      OrdinaryWalk(v.fields[i].value, leaves);
      MessageIsWalk(v.fields[i].value, leaves);
    }
    SeqObj(Entry(v, leaves).fields, WalkFields(SEntry, v.fields, leaves));
  }

  lemma CustomEntryIsWalk(v: Json, leaves: Leaves)
    requires OwnKeys(v) && v.Obj? && Is(v.fields, "type", "custom_message")
    ensures Entry(v, leaves) == Walk(SEntry, v, leaves)
  {
    WordsDiffer("message", "custom_message", 0);
    WalkUnfolds(SEntry, v, leaves);
    ReviewedRecord(SEntry, v.fields, leaves);
    assert Entry(v, leaves) == Obj(ContentThenDetails(v.fields, leaves));
  }

  lemma TreeKeys(v: Json)
    requires OwnKeys(v)
    ensures v.Obj? ==> forall i :: 0 <= i < |v.fields| ==> OwnKeys(v.fields[i].value)
    ensures v.Arr? ==> forall i :: 0 <= i < |v.items| ==> OwnKeys(v.items[i])
  {
  }

  lemma {:induction false} TreeNodeIsWalk(v: Json, leaves: Leaves)
    requires OwnKeys(v)
    ensures TreeNode(v, leaves) == Walk(STreeNode, v, leaves)
    decreases v
  {
    hide Word, Get, Entry, Tree, Walk, OwnKeys;
    TreeKeys(v);
    if v.Obj? {
      WalkUnfolds(STreeNode, v, leaves);
      forall i | 0 <= i < |v.fields|
        ensures TreeNode(v, leaves).fields[i] == WalkFields(STreeNode, v.fields, leaves)[i]
      {
        FieldSmaller(v, i);
        EntryIsWalk(v.fields[i].value, leaves);
        TreeIsWalk(v.fields[i].value, leaves);
        OrdinaryWalk(v.fields[i].value, leaves);
      }
      SeqObj(TreeNode(v, leaves).fields, WalkFields(STreeNode, v.fields, leaves));
    } else {
      NoRoots(STreeNode, v, leaves);
    }
  }

  lemma {:induction false} TreeIsWalk(v: Json, leaves: Leaves)
    requires OwnKeys(v)
    ensures Tree(v, leaves) == Walk(STree, v, leaves)
    decreases v
  {
    hide Word, Get, TreeNode, Walk, OwnKeys;
    TreeKeys(v);
    if v.Arr? {
      WalkUnfolds(STree, v, leaves);
      forall i | 0 <= i < |v.items| ensures Tree(v, leaves).items[i] == WalkItems(STreeNode, v.items, leaves)[i] {
        TreeNodeIsWalk(v.items[i], leaves);
      }
      assert Tree(v, leaves).items == WalkItems(STreeNode, v.items, leaves);
    } else {
      NoRoots(STree, v, leaves);
    }
  }

  lemma MessagesAreWalk(v: Json, leaves: Leaves)
    requires OwnKeys(v)
    ensures Messages(v, leaves) == Walk(SMessages, v, leaves)
  {
    hide Message, Walk;
    if v.Arr? {
      forall i | 0 <= i < |v.items|
        ensures Message(v.items[i], leaves) == Walk(SMessage, v.items[i], leaves)
      {
        MessageIsWalk(v.items[i], leaves);
      }
    }
    ListIsWalk(v, m => Message(m, leaves), SMessages, leaves);
  }

  lemma EntriesAreWalk(v: Json, leaves: Leaves)
    requires OwnKeys(v)
    ensures MapItems(v, x => Entry(x, leaves)) == Walk(SEntries, v, leaves)
  {
    hide Entry, Walk;
    if v.Arr? {
      forall i | 0 <= i < |v.items|
        ensures Entry(v.items[i], leaves) == Walk(SEntry, v.items[i], leaves)
      {
        EntryIsWalk(v.items[i], leaves);
      }
    }
    ListIsWalk(v, x => Entry(x, leaves), SEntries, leaves);
  }

  lemma StreamIsWalk(v: Json, leaves: Leaves)
    ensures StreamUpdate(v, leaves) == Walk(StreamEvent, v, leaves)
  {
    hide Word, Get, Is, ToolCall;
    if v.Obj? && Is(v.fields, "type", "toolcall_end") {
      WalkUnfolds(StreamEvent, v, leaves);
      forall i | 0 <= i < |v.fields|
        ensures StreamUpdate(v, leaves).fields[i] == WalkFields(StreamEvent, v.fields, leaves)[i]
      {
        ToolCallIsWalk(v.fields[i].value, leaves);
        OrdinaryWalk(v.fields[i].value, leaves);
      }
      SeqObj(StreamUpdate(v, leaves).fields, WalkFields(StreamEvent, v.fields, leaves));
    } else {
      NoRoots(StreamEvent, v, leaves);
    }
  }

  lemma EventTypesDiffer()
    ensures Word("agent_end") != Word("turn_end") && Word("message") != Word("toolResults")
    ensures Word("args") != Word("partialResult")
  {
    WordsDiffer("agent_end", "turn_end", 0);
    WordsDiffer("message", "toolResults", 0);
    WordsDiffer("args", "partialResult", 0);
  }

  /** One field of an event: what the traversal writes is what the walk writes. */
  lemma EventField(v: Json, i: nat, leaves: Leaves)
    requires OwnKeys(v) && v.Obj? && i < |v.fields|
    ensures Event(v, leaves).Obj? && |Event(v, leaves).fields| == |v.fields|
    ensures Event(v, leaves).fields[i] == WalkFields(SEvent, v.fields, leaves)[i]
  {
    hide Word, Get, Is, Walk, Message, Messages, Entry, StreamUpdate, OwnKeys;
    EventTypesDiffer();
    var x := v.fields[i].value;
    ChildOwnKeys(v, i);
    OrdinaryWalk(x, leaves);
    JsonWalk(x, leaves);
    MessageIsWalk(x, leaves);
    MessagesAreWalk(x, leaves);
    EntryIsWalk(x, leaves);
    StreamIsWalk(x, leaves);
  }

  lemma ChildOwnKeys(v: Json, i: nat)
    requires OwnKeys(v) && v.Obj? && i < |v.fields|
    ensures OwnKeys(v.fields[i].value)
  {
  }

  lemma EventIsWalk(v: Json, leaves: Leaves)
    requires OwnKeys(v)
    ensures Event(v, leaves) == Walk(SEvent, v, leaves)
  {
    hide Word, Get, Is, Event, OwnKeys, ChildSchema;
    if v.Obj? {
      WalkUnfolds(SEvent, v, leaves);
      EventObject(v, leaves);
      forall i | 0 <= i < |v.fields|
        ensures Event(v, leaves).fields[i] == WalkFields(SEvent, v.fields, leaves)[i]
      {
        EventField(v, i, leaves);
      }
      SeqObj(Event(v, leaves).fields, WalkFields(SEvent, v.fields, leaves));
    } else {
      EventObject(v, leaves);
      NoRoots(SEvent, v, leaves);
    }
  }

  lemma EventObject(v: Json, leaves: Leaves)
    ensures v.Obj? ==> Event(v, leaves).Obj? && |Event(v, leaves).fields| == |v.fields|
    ensures !v.Obj? ==> Event(v, leaves) == v
  {
    hide Word, Get, Is;
  }

  /** Text fields of extension requests are strings by the raw guard; a leaf leaves anything else alone. */
  lemma ExtensionIsWalk(v: Json, leaves: Leaves)
    requires forall x: Json :: !x.Str? ==> leaves.text(x) == x
    ensures Extension(v, leaves) == Walk(ExtensionRequest, v, leaves)
  {
    hide Word, Get, Is, Walk;
    if v.Obj? {
      WalkUnfolds(ExtensionRequest, v, leaves);
      forall i | 0 <= i < |v.fields|
        ensures Extension(v, leaves).fields[i] == WalkFields(ExtensionRequest, v.fields, leaves)[i]
      {
        OrdinaryWalk(v.fields[i].value, leaves);
        JsonWalk(v.fields[i].value, leaves);
      }
      SeqObj(Extension(v, leaves).fields, WalkFields(ExtensionRequest, v.fields, leaves));
    } else {
      NoRoots(ExtensionRequest, v, leaves);
    }
  }

  /** The data record of a successful response. */
  lemma DataIsWalk(v: Json, leaves: Leaves)
    requires OwnKeys(v)
    ensures DataField(v, "messages", m => Messages(m, leaves)) == Walk(ResponseMessages, v, leaves)
    ensures DataField(v, "entries", e => MapItems(e, x => Entry(x, leaves))) == Walk(ResponseEntries, v, leaves)
    ensures DataField(v, "tree", t => Tree(t, leaves)) == Walk(ResponseTree, v, leaves)
  {
    hide Word, Get, Is, Walk, Messages, MapItems, Tree, OwnKeys;
    if v.Obj? {
      WalkUnfolds(ResponseMessages, v, leaves);
      WalkUnfolds(ResponseEntries, v, leaves);
      WalkUnfolds(ResponseTree, v, leaves);
      forall i | 0 <= i < |v.fields|
        ensures Messages(v.fields[i].value, leaves) == Walk(SMessages, v.fields[i].value, leaves)
        ensures MapItems(v.fields[i].value, x => Entry(x, leaves)) == Walk(SEntries, v.fields[i].value, leaves)
        ensures Tree(v.fields[i].value, leaves) == Walk(STree, v.fields[i].value, leaves)
        ensures Walk(Ordinary, v.fields[i].value, leaves) == v.fields[i].value
      {
        ChildOwnKeys(v, i);
        MessagesAreWalk(v.fields[i].value, leaves);
        EntriesAreWalk(v.fields[i].value, leaves);
        TreeIsWalk(v.fields[i].value, leaves);
        OrdinaryWalk(v.fields[i].value, leaves);
      }
      SeqObj(DataField(v, "messages", m => Messages(m, leaves)).fields, WalkFields(ResponseMessages, v.fields, leaves));
      SeqObj(DataField(v, "entries", e => MapItems(e, x => Entry(x, leaves))).fields,
        WalkFields(ResponseEntries, v.fields, leaves));
      SeqObj(DataField(v, "tree", t => Tree(t, leaves)).fields, WalkFields(ResponseTree, v.fields, leaves));
    } else {
      NoRoots(ResponseMessages, v, leaves);
      NoRoots(ResponseEntries, v, leaves);
      NoRoots(ResponseTree, v, leaves);
    }
  }

  /** Only successful responses carry data, by the raw guard. */
  predicate SuccessfulData(v: Json) {
    v.Obj? && Get(v.fields, "success") != Some(Bool(true)) ==> forall i :: 0 <= i < |v.fields| ==>
      v.fields[i].key != Word("data")
  }

  lemma ResponseIsWalk(v: Json, leaves: Leaves)
    requires OwnKeys(v) && SuccessfulData(v)
    ensures Response(v, leaves) == Walk(SResponse, v, leaves)
  {
    hide Word, Get, Is, Walk, DataField, OwnKeys;
    if v.Obj? {
      WalkUnfolds(SResponse, v, leaves);
      forall i | 0 <= i < |v.fields|
        ensures Response(v, leaves).fields[i] == WalkFields(SResponse, v.fields, leaves)[i]
      {
        ChildOwnKeys(v, i);
        DataIsWalk(v.fields[i].value, leaves);
        OrdinaryWalk(v.fields[i].value, leaves);
      }
      SeqObj(Response(v, leaves).fields, WalkFields(SResponse, v.fields, leaves));
    } else {
      NoRoots(SResponse, v, leaves);
    }
  }
}
