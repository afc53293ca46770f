/** The content-reference decoders: each accepts a frame only after checking every root the analyzer's walk
    finds, and hands the remaining guards the frame with those roots replaced. */
module DecoderShadows {
  import opened Prelude
  import opened Utf8
  import opened Json
  import opened SessionSchema
  import opened SessionWalk
  import opened FrameTraversals

  const MAX_ARRAY_ITEMS: nat := 10000
  const MAX_TREE_DEPTH: nat := 128

  /** The guards of the two kinds of roots; `None` is the source's INVALID. */
  datatype Checks = Checks(text: Json -> Option<Json>, json: Json -> Option<Json>)

  function OrSame(r: Option<Json>, v: Json): Json { if r.Some? then r.value else v }

  function ShadowLeaves(c: Checks): Leaves { Leaves(v => OrSame(c.text(v), v), v => OrSame(c.json(v), v), v => v) }

  ghost function RootsPass(c: Checks): RootsAre { RootsAre(v => c.text(v).Some?, v => c.json(v).Some?, v => true) }

  // ---------------------------------------------------------------- helpers

  predicate HasKey(fields: seq<Field>, key: string) { exists i :: 0 <= i < |fields| && fields[i].key == Word(key) }

  /** `{ ...value, [key]: f(value[key]) }`, invalid when a field is. */
  function Checked(fields: seq<Field>, key: string, f: Json -> Option<Json>): (r: Option<seq<Field>>)
    ensures r.Some? ==> |r.value| == |fields| && forall i :: 0 <= i < |fields| ==>
              && r.value[i].key == fields[i].key
              && (if fields[i].key == Word(key) then f(fields[i].value) == Some(r.value[i].value)
                 else r.value[i].value == fields[i].value)
  {
    if exists i :: 0 <= i < |fields| && fields[i].key == Word(key) && f(fields[i].value).None? then None
    else
      Some(seq(|fields|, i requires 0 <= i < |fields| =>
        Field(fields[i].key, if fields[i].key == Word(key) then OrSame(f(fields[i].value), Null) else fields[i].value)))
  }

  /** A missing field is `undefined`, which no guard accepts. */
  function Required(fields: seq<Field>, key: string, f: Json -> Option<Json>): Option<seq<Field>> {
    if HasKey(fields, key) then Checked(fields, key, f) else None
  }

  function Record(r: Option<seq<Field>>): Option<Json> { if r.Some? then Some(Obj(r.value)) else None }

  /** A list of at most so many items, each of them checked. */
  function CheckedList(v: Json, f: Json -> Option<Json>): (r: Option<Json>)
    ensures r.Some? ==> v.Arr? && r.value.Arr? && |r.value.items| == |v.items|
                        && forall i :: 0 <= i < |v.items| ==> f(v.items[i]) == Some(r.value.items[i])
  {
    if !v.Arr? || |v.items| > MAX_ARRAY_ITEMS || exists i :: 0 <= i < |v.items| && f(v.items[i]).None? then None
    else Some(Arr(seq(|v.items|, i requires 0 <= i < |v.items| => OrSame(f(v.items[i]), Null))))
  }

  // ---------------------------------------------------------------- the decoders

  function ShadowReviewedBlock(v: Json, c: Checks): Option<Json> {
    if !v.Obj? || !Is(v.fields, "type", "text") then Some(v) else Record(Required(v.fields, "text", c.text))
  }

  function ShadowReviewedBlocks(v: Json, c: Checks): Option<Json> { CheckedList(v, b => ShadowReviewedBlock(b, c)) }

  function ShadowToolCall(v: Json, c: Checks): Option<Json> {
    if !v.Obj? || !Is(v.fields, "type", "toolCall") then None else Record(Required(v.fields, "arguments", c.json))
  }

  function ShadowAssistantBlock(v: Json, c: Checks): Option<Json> {
    if !v.Obj? || !Is(v.fields, "type", "toolCall") then Some(v) else ShadowToolCall(v, c)
  }

  /** Content that is a list is reviewed; then the optional details. */
  function ShadowReviewed(fields: seq<Field>, listOnly: bool, c: Checks): Option<Json> {
    var content :=
      if listOnly then Required(fields, "content", b => ShadowReviewedBlocks(b, c))
      else if HasArray(fields, "content") then Checked(fields, "content", b => ShadowReviewedBlocks(b, c))
      else Some(fields);
    if content.None? then None else Record(Checked(content.value, "details", c.json))
  }

  function ShadowMessage(v: Json, c: Checks): Option<Json> {
    if !v.Obj? then None
    else if Is(v.fields, "role", "assistant") then
      Record(Required(v.fields, "content", x => CheckedList(x, b => ShadowAssistantBlock(b, c))))
    else if Is(v.fields, "role", "toolResult") then ShadowReviewed(v.fields, true, c)
    else if Is(v.fields, "role", "custom") then ShadowReviewed(v.fields, false, c)
    else if Is(v.fields, "role", "bashExecution") then Record(Required(v.fields, "output", c.text))
    else Some(v)
  }

  function ShadowEntry(v: Json, c: Checks): Option<Json> {
    if !v.Obj? then None
    else if Is(v.fields, "type", "message") then Record(Required(v.fields, "message", m => ShadowMessage(m, c)))
    else if Is(v.fields, "type", "custom_message") then ShadowReviewed(v.fields, false, c)
    else Some(v)
  }

  /** `visit`: the node counter runs through the whole tree. */
  function ShadowNode(v: Json, depth: nat, nodes: nat, c: Checks): Option<(Json, nat)>
    decreases v
  {
    if depth > MAX_TREE_DEPTH || nodes + 1 > MAX_ARRAY_ITEMS || !v.Obj? then None
    else ShadowNodeFields(v.fields, depth, nodes + 1, c)
  }

  /** Entry first, then children; other fields stay. */
  function ShadowNodeFields(fields: seq<Field>, depth: nat, nodes: nat, c: Checks): Option<(Json, nat)>
    decreases fields
  {
    if !HasKey(fields, "entry") || !HasArray(fields, "children") then None
    else
      match ShadowChildFields(fields, depth, nodes, c)
      case None => None
      case Some((shadowed, seen)) => Some((Obj(shadowed), seen))
  }

  function ShadowChildFields(fields: seq<Field>, depth: nat, nodes: nat, c: Checks): Option<(seq<Field>, nat)>
    decreases fields, 0
  {
    if fields == [] then Some(([], nodes))
    else
      match ShadowHead(fields[0], depth, nodes, c)
      case None => None
      case Some((x, seen)) =>
        match ShadowChildFields(fields[1..], depth, seen, c)
        case None => None
        case Some((rest, after)) => Some(([Field(fields[0].key, x)] + rest, after))
  }

  function ShadowHead(f: Field, depth: nat, nodes: nat, c: Checks): Option<(Json, nat)>
    decreases f
  {
    if f.key == Word("entry") then (match ShadowEntry(f.value, c) case Some(e) => Some((e, nodes)) case None => None)
    else if f.key == Word("children") then ShadowNodes(f.value, depth + 1, nodes, c)
    else Some((f.value, nodes))
  }

  function ShadowNodes(v: Json, depth: nat, nodes: nat, c: Checks): Option<(Json, nat)>
    decreases v
  {
    if !v.Arr? || |v.items| > MAX_ARRAY_ITEMS then None
    else
      match ShadowNodeItems(v.items, depth, nodes, c)
      case None => None
      case Some((items, seen)) => Some((Arr(items), seen))
  }

  function ShadowNodeItems(items: seq<Json>, depth: nat, nodes: nat, c: Checks): Option<(seq<Json>, nat)>
    decreases items
  {
    if items == [] then Some(([], nodes))
    else
      match ShadowNode(items[0], depth, nodes, c)
      case None => None
      case Some((x, seen)) =>
        match ShadowNodeItems(items[1..], depth, seen, c)
        case None => None
        case Some((rest, after)) => Some(([x] + rest, after))
  }

  function ShadowTree(v: Json, c: Checks): Option<Json> {
    match ShadowNodes(v, 0, 0, c) case Some((shadow, _)) => Some(shadow) case None => None
  }

  function ShadowStream(v: Json, c: Checks): Option<Json> {
    if !v.Obj? || !Is(v.fields, "type", "toolcall_end") then Some(v)
    else Record(Required(v.fields, "toolCall", t => ShadowToolCall(t, c)))
  }

  function ShadowEvent(v: Json, c: Checks): Option<Json> {
    if !v.Obj? then None
    else if Is(v.fields, "type", "agent_end") then
      Record(Required(v.fields, "messages", x => CheckedList(x, m => ShadowMessage(m, c))))
    else if Is(v.fields, "type", "turn_end") then
      var message := Required(v.fields, "message", m => ShadowMessage(m, c));
      if message.None? then None
      else Record(Required(message.value, "toolResults", x => CheckedList(x, m => ShadowMessage(m, c))))
    else if Is(v.fields, "type", "message_start") || Is(v.fields, "type", "message_end") then
      Record(Required(v.fields, "message", m => ShadowMessage(m, c)))
    else if Is(v.fields, "type", "entry_appended") then Record(Required(v.fields, "entry", e => ShadowEntry(e, c)))
    else if Is(v.fields, "type", "message_update") then
      Record(Checked(v.fields, "assistantMessageEvent", s => ShadowStream(s, c)))
    else if Is(v.fields, "type", "tool_execution_start") then Record(Required(v.fields, "args", c.json))
    else if Is(v.fields, "type", "tool_execution_update") then
      var args := Required(v.fields, "args", c.json);
      if args.None? then None else Record(Required(args.value, "partialResult", c.json))
    else if Is(v.fields, "type", "tool_execution_end") then Record(Required(v.fields, "result", c.json))
    else Some(v)
  }

  function ShadowData(v: Json, key: string, f: Json -> Option<Json>): Option<Json> {
    if v.Obj? then Record(Required(v.fields, key, f)) else Some(v)
  }

  function ShadowResponse(v: Json, c: Checks): Option<Json> {
    if !v.Obj? || Get(v.fields, "success") != Some(Bool(true)) then Some(v)
    else if Is(v.fields, "command", "get_messages") then
      Record(Checked(v.fields, "data", d => ShadowData(d, "messages", x => CheckedList(x, m => ShadowMessage(m, c)))))
    else if Is(v.fields, "command", "get_entries") then
      Record(Checked(v.fields, "data", d => ShadowData(d, "entries", x => CheckedList(x, e => ShadowEntry(e, c)))))
    else if Is(v.fields, "command", "get_tree") then
      Record(Checked(v.fields, "data", d => ShadowData(d, "tree", t => ShadowTree(t, c))))
    else Some(v)
  }

  /** Widget lines keep their inline value for the guards; that is in the checks given here. */
  function ShadowExtension(v: Json, c: Checks): Option<Json> {
    if !v.Obj? then None
    else if Is(v.fields, "method", "editor") then Record(Checked(v.fields, "prefill", c.text))
    else if Is(v.fields, "method", "set_editor_text") then Record(Required(v.fields, "text", c.text))
    else if Is(v.fields, "method", "setWidget") then Record(Checked(v.fields, "widgetLines", c.json))
    else Some(v)
  }

  // ---------------------------------------------------------------- every root is checked

  /** The frame's roots pass the guards, and `r` is the frame with the shadows in their places. */
  ghost predicate Sound(schema: Schema, v: Json, c: Checks, r: Json) {
    AllRoots(schema, v, RootsPass(c)) && r == Walk(schema, v, ShadowLeaves(c))
  }

  /** An answer of a decoder is sound, or it is no answer. */
  ghost predicate Answers(schema: Schema, v: Json, c: Checks, r: Option<Json>) {
    r.Some? ==> Sound(schema, v, c, r.value)
  }

  lemma SoundOrdinary(v: Json, c: Checks)
    ensures Sound(Ordinary, v, c, v)
  {
  }

  lemma SoundRoots(v: Json, c: Checks)
    ensures Answers(TextRoot, v, c, c.text(v)) && Answers(JsonRoot, v, c, c.json(v))
  {
  }

  lemma SoundImage(schema: Schema, v: Json, c: Checks)
    requires IsImage(schema, v)
    ensures Sound(schema, v, c, v)
  {
  }

  lemma SoundRecord(schema: Schema, fields: seq<Field>, c: Checks, r: seq<Field>)
    requires schema != TextRoot && schema != JsonRoot && !IsImage(schema, Obj(fields))
    requires |r| == |fields|
    requires forall i :: 0 <= i < |fields| ==>
      r[i].key == fields[i].key && Sound(ChildSchema(schema, fields, fields[i].key), fields[i].value, c, r[i].value)
    ensures Sound(schema, Obj(fields), c, Obj(r))
  {
    hide ChildSchema, IsImage;
    if schema == Ordinary {
      forall i | 0 <= i < |fields| ensures r[i] == fields[i] { NoChildSchema(fields, fields[i].key); }
      SeqObj(r, fields);
    } else {
      WalkUnfolds(schema, Obj(fields), ShadowLeaves(c));
      SeqObj(r, WalkFields(schema, fields, ShadowLeaves(c)));
    }
  }

  lemma NoChildSchema(fields: seq<Field>, key: Text)
    ensures ChildSchema(Ordinary, fields, key) == Ordinary
  {
  }

  lemma SoundList(schema: Schema, items: seq<Json>, c: Checks, r: seq<Json>)
    requires schema != TextRoot && schema != JsonRoot && schema != Ordinary && |r| == |items|
    requires forall i :: 0 <= i < |items| ==> Sound(ItemSchema(schema), items[i], c, r[i])
    ensures Sound(schema, Arr(items), c, Arr(r))
  {
    hide ItemSchema;
    WalkUnfolds(schema, Arr(items), ShadowLeaves(c));
    assert r == WalkItems(ItemSchema(schema), items, ShadowLeaves(c));
  }

  lemma ListAnswers(schema: Schema, v: Json, f: Json -> Option<Json>, c: Checks)
    requires schema != TextRoot && schema != JsonRoot && schema != Ordinary
    requires v.Arr? ==> forall i :: 0 <= i < |v.items| ==> Answers(ItemSchema(schema), v.items[i], c, f(v.items[i]))
    ensures Answers(schema, v, c, CheckedList(v, f))
  {
    hide ItemSchema, Sound;
    var r := CheckedList(v, f);
    if r.Some? { SoundList(schema, v.items, c, r.value.items); }
  }

  /** A record one of whose fields is checked. */
  lemma RecordAnswers(schema: Schema, fields: seq<Field>, key: string, f: Json -> Option<Json>, c: Checks)
    requires schema != TextRoot && schema != JsonRoot && !IsImage(schema, Obj(fields))
    requires forall i :: 0 <= i < |fields| && fields[i].key == Word(key) ==>
               Answers(ChildSchema(schema, fields, fields[i].key), fields[i].value, c, f(fields[i].value))
    requires forall i :: 0 <= i < |fields| && fields[i].key != Word(key) ==>
      ChildSchema(schema, fields, fields[i].key) == Ordinary
    ensures Answers(schema, Obj(fields), c, Record(Checked(fields, key, f)))
  {
    hide ChildSchema, Sound, IsImage, Word;
    var r := Checked(fields, key, f);
    if r.Some? {
      forall i | 0 <= i < |fields|
        ensures Sound(ChildSchema(schema, fields, fields[i].key), fields[i].value, c, r.value[i].value)
      {
        SoundOrdinary(fields[i].value, c);
      }
      SoundRecord(schema, fields, c, r.value);
    }
  }

  /** A record with two checked fields. */
  lemma TwoFieldsAnswer(schema: Schema, fields: seq<Field>, key1: string, f1: Json -> Option<Json>, key2: string,
      f2: Json -> Option<Json>, c: Checks)
    requires schema != TextRoot && schema != JsonRoot && !IsImage(schema, Obj(fields)) && Word(key1) != Word(key2)
    requires forall i :: 0 <= i < |fields| && fields[i].key == Word(key1) ==>
               Answers(ChildSchema(schema, fields, fields[i].key), fields[i].value, c, f1(fields[i].value))
    requires forall i :: 0 <= i < |fields| && fields[i].key == Word(key2) ==>
               Answers(ChildSchema(schema, fields, fields[i].key), fields[i].value, c, f2(fields[i].value))
    requires forall i :: 0 <= i < |fields| && fields[i].key != Word(key1) && fields[i].key != Word(key2) ==>
      ChildSchema(schema, fields, fields[i].key) == Ordinary
    ensures Checked(fields, key1, f1).Some? ==>
              Answers(schema, Obj(fields), c, Record(Checked(Checked(fields, key1, f1).value, key2, f2)))
  {
    hide ChildSchema, Sound, IsImage, Word;
    var once := Checked(fields, key1, f1);
    if once.Some? {
      var r := Checked(once.value, key2, f2);
      if r.Some? {
        forall i | 0 <= i < |fields|
          ensures Sound(ChildSchema(schema, fields, fields[i].key), fields[i].value, c, r.value[i].value)
        {
          SoundOrdinary(fields[i].value, c);
          assert r.value[i].key == once.value[i].key == fields[i].key;
        }
        SoundRecord(schema, fields, c, r.value);
      }
    }
  }

  /** A record without roots passes unchanged. */
  lemma SoundPlain(schema: Schema, v: Json, c: Checks)
    requires schema != TextRoot && schema != JsonRoot && !IsImage(schema, v)
    requires v.Obj? ==> forall i :: 0 <= i < |v.fields| ==> ChildSchema(schema, v.fields, v.fields[i].key) == Ordinary
    requires v.Arr? ==> ItemSchema(schema) == Ordinary
    ensures Sound(schema, v, c, v)
  {
    hide ChildSchema, ItemSchema, IsImage, Walk;
    NoRoots(schema, v, ShadowLeaves(c));
    match v
    case Obj(fields) =>
      forall i | 0 <= i < |fields|
        ensures Sound(Ordinary, fields[i].value, c, fields[i].value)
      {
        SoundOrdinary(fields[i].value, c);
      }
      SoundRecord(schema, fields, c, fields);
    case Arr(items) =>
      forall i | 0 <= i < |items| ensures Sound(Ordinary, items[i], c, items[i]) { SoundOrdinary(items[i], c); }
      if schema != Ordinary { SoundList(schema, items, c, items); }
    case _ =>
  }

  // ---------------------------------------------------------------- blocks, messages, entries

  lemma BlockAnswers(v: Json, c: Checks)
    ensures Answers(ReviewedBlock, v, c, ShadowReviewedBlock(v, c))
    ensures Answers(AssistantBlock, v, c, ShadowAssistantBlock(v, c))
    ensures Answers(SToolCall, v, c, ShadowToolCall(v, c))
  {
    hide Word, Get, Sound, Checked;
    WordsDifferHere();
    ReviewedBlockAnswers(v, c);
    if v.Obj? {
      forall i | 0 <= i < |v.fields|
        ensures Answers(JsonRoot, v.fields[i].value, c, c.json(v.fields[i].value))
      {
        SoundRoots(v.fields[i].value, c);
      }
      RecordAnswers(SToolCall, v.fields, "arguments", c.json, c);
      if Is(v.fields, "type", "toolCall") {
        RecordAnswers(AssistantBlock, v.fields, "arguments", c.json, c);
      } else {
        SoundPlain(AssistantBlock, v, c);
      }
    } else {
      SoundPlain(AssistantBlock, v, c);
    }
  }

  lemma WordsDifferHere()
    ensures Word("text") != Word("image") && Word("toolCall") != Word("image") && Word("content") != Word("details")
    ensures Word("message") != Word("toolResults") && Word("args") != Word("partialResult")
    ensures Word("message") != Word("content") && Word("message") != Word("details")
  {
    WordsDiffer("text", "image", 0);
    WordsDiffer("toolCall", "image", 0);
    WordsDiffer("content", "details", 0);
    WordsDiffer("message", "toolResults", 0);
    WordsDiffer("args", "partialResult", 0);
    WordsDiffer("message", "content", 0);
    WordsDiffer("message", "details", 0);
  }

  lemma ReviewedBlockAnswers(v: Json, c: Checks)
    ensures Answers(ReviewedBlock, v, c, ShadowReviewedBlock(v, c))
  {
    hide Word, Get, Sound, Checked;
    WordsDifferHere();
    if v.Obj? && Is(v.fields, "type", "text") {
      forall i | 0 <= i < |v.fields|
        ensures Answers(TextRoot, v.fields[i].value, c, c.text(v.fields[i].value))
      {
        SoundRoots(v.fields[i].value, c);
      }
      RecordAnswers(ReviewedBlock, v.fields, "text", c.text, c);
    } else if IsImage(ReviewedBlock, v) {
      SoundImage(ReviewedBlock, v, c);
    } else {
      SoundPlain(ReviewedBlock, v, c);
    }
  }

  lemma BlocksAnswer(v: Json, c: Checks)
    ensures Answers(ReviewedBlocks, v, c, ShadowReviewedBlocks(v, c))
    ensures Answers(AssistantBlocks, v, c, CheckedList(v, b => ShadowAssistantBlock(b, c)))
  {
    hide Sound, ShadowReviewedBlock, ShadowAssistantBlock, CheckedList;
    if v.Arr? {
      forall i | 0 <= i < |v.items|
        ensures Answers(ReviewedBlock, v.items[i], c, ShadowReviewedBlock(v.items[i], c))
        ensures Answers(AssistantBlock, v.items[i], c, ShadowAssistantBlock(v.items[i], c))
      {
        BlockAnswers(v.items[i], c);
      }
    }
    ListAnswers(ReviewedBlocks, v, b => ShadowReviewedBlock(b, c), c);
    ListAnswers(AssistantBlocks, v, b => ShadowAssistantBlock(b, c), c);
  }

  lemma ReviewedAnswers(schema: Schema, fields: seq<Field>, listOnly: bool, c: Checks)
    requires OwnKeys(Obj(fields)) && Reviewed(schema, fields)
    requires listOnly == (schema == SMessage && Is(fields, "role", "toolResult"))
    ensures Answers(schema, Obj(fields), c, ShadowReviewed(fields, listOnly, c))
  {
    hide Word, Get, Sound, Checked, ShadowReviewedBlocks, HasArray, OwnKeys, HasKey;
    WordsDifferHere();
    RolesDiffer();
    forall i | 0 <= i < |fields|
      ensures Answers(JsonRoot, fields[i].value, c, c.json(fields[i].value))
    {
      SoundRoots(fields[i].value, c);
    }
    if listOnly || HasArray(fields, "content") {
      forall i | 0 <= i < |fields|
        ensures Answers(ReviewedBlocks, fields[i].value, c, ShadowReviewedBlocks(fields[i].value, c))
      {
        BlocksAnswer(fields[i].value, c);
      }
      TwoFieldsAnswer(schema, fields, "content", b => ShadowReviewedBlocks(b, c), "details", c.json, c);
    } else {
      RecordAnswers(schema, fields, "details", c.json, c);
    }
  }

  lemma UserBlocksSound(v: Json, c: Checks)
    ensures Sound(UserBlocks, v, c, v)
  {
    hide Word, Get, Sound;
    if v.Arr? {
      forall i | 0 <= i < |v.items| ensures Sound(UserBlock, v.items[i], c, v.items[i]) {
        if IsImage(UserBlock, v.items[i]) {
          SoundImage(UserBlock, v.items[i], c);
        } else {
          SoundPlain(UserBlock, v.items[i], c);
        }
      }
      SoundList(UserBlocks, v.items, c, v.items);
    } else {
      SoundPlain(UserBlocks, v, c);
    }
  }

  lemma UserSound(v: Json, c: Checks)
    requires v.Obj? && Is(v.fields, "role", "user")
    ensures Sound(SMessage, v, c, v)
  {
    hide Word, Get, Sound, HasArray;
    RolesDiffer();
    forall i | 0 <= i < |v.fields|
      ensures Sound(ChildSchema(SMessage, v.fields, v.fields[i].key), v.fields[i].value, c, v.fields[i].value)
    {
      SoundOrdinary(v.fields[i].value, c);
      UserBlocksSound(v.fields[i].value, c);
    }
    SoundRecord(SMessage, v.fields, c, v.fields);
  }

  lemma MessageAnswers(v: Json, c: Checks)
    requires OwnKeys(v)
    ensures Answers(SMessage, v, c, ShadowMessage(v, c))
  {
    hide Word, Get, Sound, Checked, CheckedList, ShadowReviewed, HasArray, OwnKeys, HasKey;
    RolesDiffer();
    if v.Obj? {
      var fields := v.fields;
      if Is(fields, "role", "user") {
        UserSound(v, c);
      } else if Is(fields, "role", "assistant") {
        forall i | 0 <= i < |fields|
          ensures Answers(AssistantBlocks, fields[i].value, c,
            CheckedList(fields[i].value, b => ShadowAssistantBlock(b, c)))
        {
          BlocksAnswer(fields[i].value, c);
        }
        RecordAnswers(SMessage, fields, "content", x => CheckedList(x, b => ShadowAssistantBlock(b, c)), c);
      } else if Is(fields, "role", "toolResult") || Is(fields, "role", "custom") {
        ReviewedAnswers(SMessage, fields, Is(fields, "role", "toolResult"), c);
      } else if Is(fields, "role", "bashExecution") {
        forall i | 0 <= i < |fields|
          ensures Answers(TextRoot, fields[i].value, c, c.text(fields[i].value))
        {
          SoundRoots(fields[i].value, c);
        }
        RecordAnswers(SMessage, fields, "output", c.text, c);
      } else {
        SoundPlain(SMessage, v, c);
      }
    }
  }

  lemma EntryAnswers(v: Json, c: Checks)
    requires OwnKeys(v)
    ensures Answers(SEntry, v, c, ShadowEntry(v, c))
  {
    hide Word, Get, Sound, Checked, ShadowMessage, ShadowReviewed, HasArray, HasKey, OwnKeys;
    EntryTypesDiffer();
    if v.Obj? {
      var fields := v.fields;
      forall i | 0 <= i < |fields| ensures Answers(SMessage, fields[i].value, c, ShadowMessage(fields[i].value, c)) {
        ChildOwnKeys(v, i);
        MessageAnswers(fields[i].value, c);
      }
      if Is(fields, "type", "message") {
        RecordAnswers(SEntry, fields, "message", m => ShadowMessage(m, c), c);
      } else if Is(fields, "type", "custom_message") {
        ReviewedAnswers(SEntry, fields, false, c);
      } else {
        SoundPlain(SEntry, v, c);
      }
    }
  }

  lemma EntryTypesDiffer()
    ensures Word("message") != Word("custom_message")
  {
    WordsDiffer("message", "custom_message", 0);
  }

  // ---------------------------------------------------------------- trees

  lemma {:induction false} NodeAnswers(v: Json, depth: nat, nodes: nat, c: Checks)
    requires OwnKeys(v)
    ensures ShadowNode(v, depth, nodes, c).Some? ==> Sound(STreeNode, v, c, ShadowNode(v, depth, nodes, c).value.0)
    decreases v
  {
    hide Word, Get, Sound, HasKey, HasArray, ChildSchema;
    if ShadowNode(v, depth, nodes, c).Some? {
      assert v.Obj? && ShadowNodeFields(v.fields, depth, nodes + 1, c).Some?;
      var r := ShadowChildFields(v.fields, depth, nodes + 1, c);
      FieldsAnswer(v, 0, depth, nodes + 1, c);
      assert v.fields[0..] == v.fields;
      SoundRecord(STreeNode, v.fields, c, r.value.0);
    }
  }

  lemma {:induction false} HeadAnswers(v: Json, k: nat, depth: nat, nodes: nat, c: Checks)
    requires OwnKeys(v) && v.Obj? && k < |v.fields|
    ensures var r := ShadowHead(v.fields[k], depth, nodes, c);
            r.Some? ==> Sound(ChildSchema(STreeNode, v.fields, v.fields[k].key), v.fields[k].value, c, r.value.0)
    decreases v, 0
  {
    hide Word, Get, Sound, ShadowEntry, ShadowNodes;
    var x := v.fields[k].value;
    ChildOwnKeys(v, k);
    FieldSmaller(v, k);
    EntryAnswers(x, c);
    SoundOrdinary(x, c);
    NodesAnswer(x, depth + 1, nodes, c);
  }

  lemma {:induction false} FieldsAnswer(v: Json, k: nat, depth: nat, nodes: nat, c: Checks)
    requires OwnKeys(v) && v.Obj? && k <= |v.fields|
    ensures var r := ShadowChildFields(v.fields[k..], depth, nodes, c);
            r.Some? ==> |r.value.0| == |v.fields| - k && forall i :: k <= i < |v.fields| ==>
              && r.value.0[i - k].key == v.fields[i].key
              && Sound(ChildSchema(STreeNode, v.fields, v.fields[i].key), v.fields[i].value, c, r.value.0[i - k].value)
    decreases v, |v.fields| - k + 1
  {
    hide Sound, ShadowHead, ChildSchema, OwnKeys;
    if k < |v.fields| {
      assert v.fields[k..][0] == v.fields[k] && v.fields[k..][1..] == v.fields[k + 1..];
      HeadAnswers(v, k, depth, nodes, c);
      match ShadowHead(v.fields[k], depth, nodes, c) {
        case Some((_, seen)) => FieldsAnswer(v, k + 1, depth, seen, c);
        case None =>
      }
    }
  }

  lemma {:induction false} NodesAnswer(v: Json, depth: nat, nodes: nat, c: Checks)
    requires OwnKeys(v)
    ensures ShadowNodes(v, depth, nodes, c).Some? ==> Sound(STree, v, c, ShadowNodes(v, depth, nodes, c).value.0)
    decreases v
  {
    hide Sound;
    if ShadowNodes(v, depth, nodes, c).Some? {
      ItemsAnswer(v.items, depth, nodes, c);
      SoundList(STree, v.items, c, ShadowNodeItems(v.items, depth, nodes, c).value.0);
    }
  }

  lemma {:induction false} ItemsAnswer(items: seq<Json>, depth: nat, nodes: nat, c: Checks)
    requires forall i :: 0 <= i < |items| ==> OwnKeys(items[i])
    ensures var r := ShadowNodeItems(items, depth, nodes, c);
            r.Some? ==> |r.value.0| == |items| && forall i :: 0 <= i < |items| ==>
              Sound(STreeNode, items[i], c, r.value.0[i])
    decreases items
  {
    hide Sound, ShadowNode;
    if items != [] {
      NodeAnswers(items[0], depth, nodes, c);
      match ShadowNode(items[0], depth, nodes, c) {
        case Some((_, seen)) => ItemsAnswer(items[1..], depth, seen, c);
        case None =>
      }
    }
  }

  lemma TreeAnswers(v: Json, c: Checks)
    requires OwnKeys(v)
    ensures Answers(STree, v, c, ShadowTree(v, c))
  {
    NodesAnswer(v, 0, 0, c);
  }

  // ---------------------------------------------------------------- events and responses

  lemma ListsAnswer(v: Json, c: Checks)
    requires OwnKeys(v)
    ensures Answers(SMessages, v, c, CheckedList(v, m => ShadowMessage(m, c)))
    ensures Answers(SEntries, v, c, CheckedList(v, e => ShadowEntry(e, c)))
  {
    hide Sound, ShadowMessage, ShadowEntry, CheckedList;
    if v.Arr? {
      forall i | 0 <= i < |v.items|
        ensures Answers(SMessage, v.items[i], c, ShadowMessage(v.items[i], c))
        ensures Answers(SEntry, v.items[i], c, ShadowEntry(v.items[i], c))
      {
        MessageAnswers(v.items[i], c);
        EntryAnswers(v.items[i], c);
      }
    }
    ListAnswers(SMessages, v, m => ShadowMessage(m, c), c);
    ListAnswers(SEntries, v, e => ShadowEntry(e, c), c);
  }

  lemma StreamAnswers(v: Json, c: Checks)
    ensures Answers(StreamEvent, v, c, ShadowStream(v, c))
  {
    hide Word, Get, Sound, Checked, ShadowToolCall;
    if v.Obj? && Is(v.fields, "type", "toolcall_end") {
      forall i | 0 <= i < |v.fields|
        ensures Answers(SToolCall, v.fields[i].value, c, ShadowToolCall(v.fields[i].value, c))
      {
        BlockAnswers(v.fields[i].value, c);
      }
      RecordAnswers(StreamEvent, v.fields, "toolCall", t => ShadowToolCall(t, c), c);
    } else {
      SoundPlain(StreamEvent, v, c);
    }
  }

  /** What the decoders of an event's fields answer. */
  lemma EventParts(v: Json, c: Checks)
    requires OwnKeys(v)
    ensures Answers(SMessage, v, c, ShadowMessage(v, c)) && Answers(SEntry, v, c, ShadowEntry(v, c))
    ensures Answers(SMessages, v, c, CheckedList(v, m => ShadowMessage(m, c)))
    ensures Answers(StreamEvent, v, c, ShadowStream(v, c)) && Answers(JsonRoot, v, c, c.json(v))
  {
    hide *;
    MessageAnswers(v, c);
    EntryAnswers(v, c);
    ListsAnswer(v, c);
    StreamAnswers(v, c);
    SoundRoots(v, c);
  }

  lemma EventAnswers(v: Json, c: Checks)
    requires OwnKeys(v)
    ensures Answers(SEvent, v, c, ShadowEvent(v, c))
  {
    hide Word, Get, Is, Sound, Checked, CheckedList, ShadowMessage, ShadowEntry, ShadowStream, HasKey, OwnKeys,
      HasArray;
    WordsDifferHere();
    EventTypesDiffer();
    if v.Obj? {
      var fields := v.fields;
      forall i | 0 <= i < |fields|
        ensures Answers(SMessage, fields[i].value, c, ShadowMessage(fields[i].value, c))
        ensures Answers(SEntry, fields[i].value, c, ShadowEntry(fields[i].value, c))
        ensures Answers(SMessages, fields[i].value, c, CheckedList(fields[i].value, m => ShadowMessage(m, c)))
        ensures Answers(StreamEvent, fields[i].value, c, ShadowStream(fields[i].value, c))
        ensures Answers(JsonRoot, fields[i].value, c, c.json(fields[i].value))
      {
        ChildOwnKeys(v, i);
        EventParts(fields[i].value, c);
      }
      if Is(fields, "type", "agent_end") {
        RecordAnswers(SEvent, fields, "messages", x => CheckedList(x, m => ShadowMessage(m, c)), c);
      } else if Is(fields, "type", "turn_end") {
        TwoFieldsAnswer(SEvent, fields, "message", m => ShadowMessage(m, c), "toolResults",
          x => CheckedList(x, m => ShadowMessage(m, c)), c);
      } else if Is(fields, "type", "message_start") || Is(fields, "type", "message_end") {
        RecordAnswers(SEvent, fields, "message", m => ShadowMessage(m, c), c);
      } else if Is(fields, "type", "entry_appended") {
        RecordAnswers(SEvent, fields, "entry", e => ShadowEntry(e, c), c);
      } else if Is(fields, "type", "message_update") {
        RecordAnswers(SEvent, fields, "assistantMessageEvent", s => ShadowStream(s, c), c);
      } else if Is(fields, "type", "tool_execution_start") {
        RecordAnswers(SEvent, fields, "args", c.json, c);
      } else if Is(fields, "type", "tool_execution_update") {
        TwoFieldsAnswer(SEvent, fields, "args", c.json, "partialResult", c.json, c);
      } else if Is(fields, "type", "tool_execution_end") {
        RecordAnswers(SEvent, fields, "result", c.json, c);
      } else {
        SoundPlain(SEvent, v, c);
      }
    }
  }

  lemma DataAnswers(v: Json, c: Checks)
    requires OwnKeys(v)
    ensures Answers(ResponseMessages, v, c, ShadowData(v, "messages", x => CheckedList(x, m => ShadowMessage(m, c))))
    ensures Answers(ResponseEntries, v, c, ShadowData(v, "entries", x => CheckedList(x, e => ShadowEntry(e, c))))
    ensures Answers(ResponseTree, v, c, ShadowData(v, "tree", t => ShadowTree(t, c)))
  {
    hide Word, Get, Is, Sound, Checked, CheckedList, ShadowMessage, ShadowEntry, ShadowTree, HasKey, OwnKeys;
    if v.Obj? {
      forall i | 0 <= i < |v.fields|
        ensures Answers(SMessages, v.fields[i].value, c, CheckedList(v.fields[i].value, m => ShadowMessage(m, c)))
        ensures Answers(SEntries, v.fields[i].value, c, CheckedList(v.fields[i].value, e => ShadowEntry(e, c)))
        ensures Answers(STree, v.fields[i].value, c, ShadowTree(v.fields[i].value, c))
      {
        ChildOwnKeys(v, i);
        ListsAnswer(v.fields[i].value, c);
        TreeAnswers(v.fields[i].value, c);
      }
      RecordAnswers(ResponseMessages, v.fields, "messages", x => CheckedList(x, m => ShadowMessage(m, c)), c);
      RecordAnswers(ResponseEntries, v.fields, "entries", x => CheckedList(x, e => ShadowEntry(e, c)), c);
      RecordAnswers(ResponseTree, v.fields, "tree", t => ShadowTree(t, c), c);
    } else {
      SoundPlain(ResponseMessages, v, c);
      SoundPlain(ResponseEntries, v, c);
      SoundPlain(ResponseTree, v, c);
    }
  }

  lemma ResponseAnswers(v: Json, c: Checks)
    requires OwnKeys(v) && SuccessfulData(v)
    ensures Answers(SResponse, v, c, ShadowResponse(v, c))
  {
    hide Word, Get, Is, Sound, Checked, CheckedList, ShadowData, OwnKeys;
    if v.Obj? && Get(v.fields, "success") == Some(Bool(true)) {
      var fields := v.fields;
      forall i | 0 <= i < |fields|
        ensures Answers(ResponseMessages, fields[i].value, c,
          ShadowData(fields[i].value, "messages", x => CheckedList(x, m => ShadowMessage(m, c))))
        ensures Answers(ResponseEntries, fields[i].value, c,
          ShadowData(fields[i].value, "entries", x => CheckedList(x, e => ShadowEntry(e, c))))
        ensures Answers(ResponseTree, fields[i].value, c, ShadowData(fields[i].value, "tree", t => ShadowTree(t, c)))
      {
        ChildOwnKeys(v, i);
        DataAnswers(fields[i].value, c);
      }
      if Is(fields, "command", "get_messages") {
        RecordAnswers(SResponse, fields, "data",
          d => ShadowData(d, "messages", x => CheckedList(x, m => ShadowMessage(m, c))), c);
      } else if Is(fields, "command", "get_entries") {
        RecordAnswers(SResponse, fields, "data",
          d => ShadowData(d, "entries", x => CheckedList(x, e => ShadowEntry(e, c))), c);
      } else if Is(fields, "command", "get_tree") {
        RecordAnswers(SResponse, fields, "data", d => ShadowData(d, "tree", t => ShadowTree(t, c)), c);
      } else {
        SoundPlain(SResponse, v, c);
      }
    } else {
      SoundPlain(SResponse, v, c);
    }
  }

  lemma ExtensionAnswers(v: Json, c: Checks)
    ensures Answers(ExtensionRequest, v, c, ShadowExtension(v, c))
  {
    hide Word, Get, Is, Sound, Checked;
    if v.Obj? {
      var fields := v.fields;
      forall i | 0 <= i < |fields|
        ensures Answers(TextRoot, fields[i].value, c, c.text(fields[i].value))
        ensures Answers(JsonRoot, fields[i].value, c, c.json(fields[i].value))
      {
        SoundRoots(fields[i].value, c);
      }
      if Is(fields, "method", "editor") {
        RecordAnswers(ExtensionRequest, fields, "prefill", c.text, c);
      } else if Is(fields, "method", "set_editor_text") {
        RecordAnswers(ExtensionRequest, fields, "text", c.text, c);
      } else if Is(fields, "method", "setWidget") {
        RecordAnswers(ExtensionRequest, fields, "widgetLines", c.json, c);
      } else {
        SoundPlain(ExtensionRequest, v, c);
      }
    }
  }
}
