/** Traversals that visit the same roots compose, and sizes taken over them add up. */
module SessionWalk {
  import opened Prelude
  import opened Utf8
  import opened Json
  import opened BoundedUtf8Codec
  import opened JsonCounters
  import opened SessionSchema

  // ---------------------------------------------------------------- what holds of every root

  datatype RootsAre = RootsAre(text: Json -> bool, json: Json -> bool, image: Json -> bool)

  /** Every text root, JSON root and image block of the frame satisfies its predicate. */
  predicate AllRoots(schema: Schema, v: Json, p: RootsAre)
    decreases v
  {
    if schema == TextRoot then p.text(v)
    else if schema == JsonRoot then p.json(v)
    else if schema == Ordinary then true
    else if IsImage(schema, v) then p.image(v)
    else
      match v
      case Arr(items) => forall i :: 0 <= i < |items| ==> AllRoots(ItemSchema(schema), items[i], p)
      case Obj(fields) =>
        forall i :: 0 <= i < |fields| ==> AllRoots(ChildSchema(schema, fields, fields[i].key), fields[i].value, p)
      case _ => true
  }

  // ---------------------------------------------------------------- shape

  lemma {:induction false} GetSame(a: seq<Field>, b: seq<Field>, key: string)
    requires |a| == |b|
    requires forall i :: 0 <= i < |a| ==> b[i].key == a[i].key && (a[i].key == Word(key) ==> b[i].value == a[i].value)
    ensures Get(a, key) == Get(b, key)
  {
    if a != [] { GetSame(a[1..], b[1..], key); }
  }

  lemma {:induction false} GetArray(a: seq<Field>, b: seq<Field>, key: string)
    requires |a| == |b|
    requires forall i :: 0 <= i < |a| ==>
      b[i].key == a[i].key && (a[i].key == Word(key) ==> b[i].value.Arr? == a[i].value.Arr?)
    ensures HasArray(a, key) == HasArray(b, key)
  {
    if a != [] { GetArray(a[1..], b[1..], key); }
  }

  /** A content list stays a list, and content that is no list does not become one. */
  lemma ContentKeepsKind(schema: Schema, fields: seq<Field>, v: Json, leaves: Leaves)
    ensures Walk(ChildSchema(schema, fields, Word("content")), v, leaves).Arr? == v.Arr?
  {
    var child := ChildSchema(schema, fields, Word("content"));
    ContentSchemas(schema, fields);
    if child != Ordinary {
      WalkUnfolds(child, v, leaves);
    }
  }

  lemma ContentSchemas(schema: Schema, fields: seq<Field>)
    ensures ChildSchema(schema, fields, Word("content")) in {Ordinary, ReviewedBlocks, UserBlocks, AssistantBlocks}
  {
    WordsDiffer("content", "details", 0);
    WordsDiffer("content", "output", 0);
    WordsDiffer("content", "arguments", 0);
    WordsDiffer("content", "message", 0);
    WordsDiffer("content", "entry", 0);
    WordsDiffer("content", "children", 0);
    WordsDiffer("content", "messages", 0);
    WordsDiffer("content", "toolResults", 0);
    WordsDiffer("content", "args", 0);
    WordsDiffer("content", "partialResult", 0);
    WordsDiffer("content", "result", 0);
    WordsDiffer("content", "assistantMessageEvent", 0);
    WordsDiffer("content", "toolCall", 0);
    WordsDiffer("content", "data", 0);
    WordsDiffer("content", "entries", 0);
    WordsDiffer("content", "tree", 0);
    WordsDiffer("content", "prefill", 0);
    WordsDiffer("content", "text", 0);
    WordsDiffer("content", "widgetLines", 0);
    WordsDiffer("content", "event", 0);
    WordsDiffer("content", "request", 0);
    WordsDiffer("content", "requests", 0);
    WordsDiffer("content", "response", 0);
    WordsDiffer("content", "settledMessages", 0);
    WordsDiffer("content", "projectionEvents", 0);
    WordsDiffer("content", "pendingExtensionRequests", 0);
    WordsDiffer("content", "stickyExtensionState", 0);
    hide Word, Is, HasArray;
  }

  lemma WalkKeepsShape(schema: Schema, fields: seq<Field>, leaves: Leaves)
    ensures SameShape(fields, WalkFields(schema, fields, leaves))
  {
    hide Walk, ChildSchema, RootKey, Word;
    var walked := WalkFields(schema, fields, leaves);
    forall key: string | Decides(key) ensures Get(fields, key) == Get(walked, key) {
      DecidingIsNoRoot(key);
      OnlyRootKeys(schema, fields, Word(key));
      forall i | 0 <= i < |fields| && fields[i].key == Word(key) ensures walked[i].value == fields[i].value {
        OrdinaryWalk(fields[i].value, leaves);
      }
      GetSame(fields, walked, key);
    }
    forall i | 0 <= i < |fields| && fields[i].key == Word("content")
      ensures walked[i].value.Arr? == fields[i].value.Arr?
    {
      ContentKeepsKind(schema, fields, fields[i].value, leaves);
    }
    GetArray(fields, walked, "content");
  }

  lemma OrdinaryWalk(v: Json, leaves: Leaves)
    ensures Walk(Ordinary, v, leaves) == v
  {
  }

  // ---------------------------------------------------------------- composition

  /** On the roots of a frame, one traversal after another is a third. */
  ghost predicate Composes(first: Leaves, second: Leaves, both: Leaves, p: RootsAre) {
    && (forall x :: p.text(x) ==> second.text(first.text(x)) == both.text(x))
    && (forall x :: p.json(x) ==> second.json(first.json(x)) == both.json(x))
    && (forall x :: p.image(x) ==> second.image(first.image(x)) == both.image(x) && KeepsImage(first.image(x)))
  }

  predicate KeepsImage(x: Json) { x.Obj? && Is(x.fields, "type", "image") }

  lemma RootComposes(schema: Schema, v: Json, first: Leaves, second: Leaves, both: Leaves, p: RootsAre)
    requires AllRoots(schema, v, p) && Composes(first, second, both, p)
    requires schema == TextRoot || schema == JsonRoot || schema == Ordinary || IsImage(schema, v)
    ensures Walk(schema, Walk(schema, v, first), second) == Walk(schema, v, both)
  {
  }

  lemma {:induction false} WalkComposes(schema: Schema, v: Json, first: Leaves, second: Leaves, both: Leaves,
      p: RootsAre)
    requires AllRoots(schema, v, p) && Composes(first, second, both, p)
    ensures Walk(schema, Walk(schema, v, first), second) == Walk(schema, v, both)
    decreases v
  {
    if schema == TextRoot || schema == JsonRoot || schema == Ordinary || IsImage(schema, v) {
      RootComposes(schema, v, first, second, both, p);
    } else {
      hide ChildSchema, Word, AllRoots, Composes;
      WalkUnfolds(schema, v, first);
      WalkUnfolds(schema, v, both);
      match v {
        case Arr(items) => ItemsCompose(schema, items, first, second, both, p);
        case Obj(fields) => FieldsCompose(schema, v, first, second, both, p);
        case _ => WalkUnfolds(schema, v, second);
      }
    }
  }

  lemma {:induction false} ItemsCompose(schema: Schema, items: seq<Json>, first: Leaves, second: Leaves,
      both: Leaves, p: RootsAre)
    requires schema != TextRoot && schema != JsonRoot && schema != Ordinary && Composes(first, second, both, p)
    requires forall i :: 0 <= i < |items| ==> AllRoots(ItemSchema(schema), items[i], p)
    ensures Walk(schema, Arr(WalkItems(ItemSchema(schema), items, first)), second) ==
      Arr(WalkItems(ItemSchema(schema), items, both))
    decreases items
  {
    hide Walk, ItemSchema, Composes, AllRoots;
    var item := ItemSchema(schema);
    var once := WalkItems(item, items, first);
    WalkUnfolds(schema, Arr(once), second);
    var twice := WalkItems(item, once, second);
    forall i | 0 <= i < |items| ensures twice[i] == WalkItems(item, items, both)[i] {
      WalkComposes(item, items[i], first, second, both, p);
    }
    assert twice == WalkItems(item, items, both);
  }

  lemma {:induction false} FieldsCompose(schema: Schema, v: Json, first: Leaves, second: Leaves, both: Leaves,
      p: RootsAre)
    requires v.Obj? && schema != TextRoot && schema != JsonRoot && schema != Ordinary && !IsImage(schema, v)
    requires Composes(first, second, both, p)
    requires forall i :: 0 <= i < |v.fields| ==>
      AllRoots(ChildSchema(schema, v.fields, v.fields[i].key), v.fields[i].value, p)
    ensures Walk(schema, Obj(WalkFields(schema, v.fields, first)), second) == Obj(WalkFields(schema, v.fields, both))
    decreases v, 0
  {
    hide Walk, ChildSchema, Composes, AllRoots, Word, Get;
    var fields := v.fields;
    var once := WalkFields(schema, fields, first);
    WalkKeepsShape(schema, fields, first);
    assert Decides("type");
    assert !IsImage(schema, Obj(once));
    WalkUnfolds(schema, Obj(once), second);
    var twice := WalkFields(schema, once, second);
    forall i | 0 <= i < |fields| ensures twice[i] == WalkFields(schema, fields, both)[i] {
      SameSchemas(schema, fields, once, fields[i].key);
      FieldSmaller(v, i);
      WalkComposes(ChildSchema(schema, fields, fields[i].key), fields[i].value, first, second, both, p);
    }
    assert twice == WalkFields(schema, fields, both);
  }

  lemma FieldSmaller(v: Json, i: nat)
    requires v.Obj? && i < |v.fields|
    ensures v.fields[i].value < v
  {
  }

  // ---------------------------------------------------------------- identity

  function Identity(): Leaves { Leaves(x => x, x => x, x => x) }

  lemma {:induction false} WalkIdentity(schema: Schema, v: Json)
    ensures Walk(schema, v, Identity()) == v
    decreases v
  {
    if schema == TextRoot || schema == JsonRoot || schema == Ordinary || IsImage(schema, v) {
    } else {
      hide ChildSchema, ItemSchema, Word;
      WalkUnfolds(schema, v, Identity());
      match v {
        case Arr(items) =>
          forall i | 0 <= i < |items| ensures WalkItems(ItemSchema(schema), items, Identity())[i] == items[i] {
            WalkIdentity(ItemSchema(schema), items[i]);
          }
          assert WalkItems(ItemSchema(schema), items, Identity()) == items;
        case Obj(fields) =>
          forall i | 0 <= i < |fields| ensures WalkFields(schema, fields, Identity())[i] == fields[i] {
            FieldSmaller(v, i);
            WalkIdentity(ChildSchema(schema, fields, fields[i].key), fields[i].value);
          }
          assert WalkFields(schema, fields, Identity()) == fields;
        case _ =>
      }
    }
  }

  /** The roots a traversal leaves as they are. */
  function Unchanged(leaves: Leaves): RootsAre {
    RootsAre(x => leaves.text(x) == x, x => leaves.json(x) == x, x => leaves.image(x) == x)
  }

  /** A traversal leaves a frame as it is exactly when it leaves every root as it is. */
  lemma {:induction false} WalkFixes(schema: Schema, v: Json, leaves: Leaves)
    ensures Walk(schema, v, leaves) == v <==> AllRoots(schema, v, Unchanged(leaves))
    decreases v
  {
    hide ChildSchema, Word, Walk, AllRoots, IsImage, Unchanged, ItemSchema;
    if schema == TextRoot || schema == JsonRoot || schema == Ordinary || IsImage(schema, v) {
      RootFixes(schema, v, leaves);
    } else {
      WalkUnfolds(schema, v, leaves);
      RootsUnfold(schema, v, Unchanged(leaves));
      if v.Arr? { ItemsFix(schema, v, leaves); }
      if v.Obj? { FieldsFix(schema, v, leaves); }
    }
  }

  lemma RootFixes(schema: Schema, v: Json, leaves: Leaves)
    requires schema == TextRoot || schema == JsonRoot || schema == Ordinary || IsImage(schema, v)
    ensures Walk(schema, v, leaves) == v <==> AllRoots(schema, v, Unchanged(leaves))
  {
    hide ChildSchema, Word, ItemSchema, IsImage, WalkItems, WalkFields;
    if schema == TextRoot {} else if schema == JsonRoot {} else if schema == Ordinary {} else {}
  }

  lemma {:induction false} ItemsFix(schema: Schema, v: Json, leaves: Leaves)
    requires v.Arr?
    ensures WalkItems(ItemSchema(schema), v.items, leaves) == v.items
      <==> forall i :: 0 <= i < |v.items| ==> AllRoots(ItemSchema(schema), v.items[i], Unchanged(leaves))
    decreases v, 0
  {
    hide Walk, AllRoots, ItemSchema, Unchanged;
    var item := ItemSchema(schema);
    forall i | 0 <= i < |v.items|
      ensures WalkItems(item, v.items, leaves)[i] == v.items[i] <==> AllRoots(item, v.items[i], Unchanged(leaves))
    {
      WalkFixes(item, v.items[i], leaves);
    }
    SameItems(WalkItems(item, v.items, leaves), v.items);
  }

  lemma {:induction false} FieldsFix(schema: Schema, v: Json, leaves: Leaves)
    requires v.Obj?
    ensures WalkFields(schema, v.fields, leaves) == v.fields
      <==> forall i :: 0 <= i < |v.fields| ==>
        AllRoots(ChildSchema(schema, v.fields, v.fields[i].key), v.fields[i].value, Unchanged(leaves))
    decreases v, 0
  {
    hide Walk, AllRoots, ChildSchema, Unchanged;
    forall i | 0 <= i < |v.fields|
      ensures WalkFields(schema, v.fields, leaves)[i] == v.fields[i]
        <==> AllRoots(ChildSchema(schema, v.fields, v.fields[i].key), v.fields[i].value, Unchanged(leaves))
    {
      FieldSmaller(v, i);
      WalkFixes(ChildSchema(schema, v.fields, v.fields[i].key), v.fields[i].value, leaves);
    }
    SameItems(WalkFields(schema, v.fields, leaves), v.fields);
  }

  lemma SameItems<T>(a: seq<T>, b: seq<T>)
    requires |a| == |b|
    ensures a == b <==> forall i :: 0 <= i < |a| ==> a[i] == b[i]
  {
  }

  lemma RootsUnfold(schema: Schema, v: Json, p: RootsAre)
    requires schema != TextRoot && schema != JsonRoot && schema != Ordinary && !IsImage(schema, v)
    ensures v.Arr? ==>
      (AllRoots(schema, v, p) <==> forall i :: 0 <= i < |v.items| ==> AllRoots(ItemSchema(schema), v.items[i], p))
    ensures v.Obj? ==> (AllRoots(schema, v, p) <==>
      forall i :: 0 <= i < |v.fields| ==>
        AllRoots(ChildSchema(schema, v.fields, v.fields[i].key), v.fields[i].value, p))
    ensures !v.Arr? && !v.Obj? ==> AllRoots(schema, v, p)
  {
    hide ChildSchema, Word, ItemSchema;
  }

  ghost predicate AgreeOn(given: RootsAre, p: RootsAre, q: RootsAre) {
    && (forall x :: given.text(x) ==> (p.text(x) <==> q.text(x)))
    && (forall x :: given.json(x) ==> (p.json(x) <==> q.json(x)))
    && (forall x :: given.image(x) ==> (p.image(x) <==> q.image(x)))
  }

  lemma SameRoot(schema: Schema, v: Json, given: RootsAre, p: RootsAre, q: RootsAre)
    requires AllRoots(schema, v, given) && AgreeOn(given, p, q)
    requires schema == TextRoot || schema == JsonRoot || schema == Ordinary || IsImage(schema, v)
    ensures AllRoots(schema, v, p) <==> AllRoots(schema, v, q)
  {
  }

  /** Predicates that agree on the roots of a frame agree on the frame. */
  lemma {:induction false} SameRoots(schema: Schema, v: Json, given: RootsAre, p: RootsAre, q: RootsAre)
    requires AllRoots(schema, v, given) && AgreeOn(given, p, q)
    ensures AllRoots(schema, v, p) <==> AllRoots(schema, v, q)
    decreases v
  {
    hide ChildSchema, Word, AllRoots, AgreeOn, IsImage, ItemSchema;
    if schema == TextRoot || schema == JsonRoot || schema == Ordinary || IsImage(schema, v) {
      SameRoot(schema, v, given, p, q);
    } else {
      RootsUnfold(schema, v, given);
      RootsUnfold(schema, v, p);
      RootsUnfold(schema, v, q);
      match v {
        case Arr(items) =>
          forall i | 0 <= i < |items|
            ensures AllRoots(ItemSchema(schema), items[i], p) <==> AllRoots(ItemSchema(schema), items[i], q)
          {
            SameRoots(ItemSchema(schema), items[i], given, p, q);
          }
        case Obj(fields) =>
          forall i | 0 <= i < |fields|
            ensures var child := ChildSchema(schema, fields, fields[i].key);
              AllRoots(child, fields[i].value, p) <==> AllRoots(child, fields[i].value, q)
          {
            FieldSmaller(v, i);
            SameRoots(ChildSchema(schema, fields, fields[i].key), fields[i].value, given, p, q);
          }
        case _ =>
      }
    }
  }

  /** A traversal turns roots that satisfy `p` into roots that satisfy `q`. */
  ghost predicate TurnsInto(leaves: Leaves, p: RootsAre, q: RootsAre) {
    && (forall x :: p.text(x) ==> q.text(leaves.text(x)))
    && (forall x :: p.json(x) ==> q.json(leaves.json(x)))
    && (forall x :: p.image(x) ==> q.image(leaves.image(x)) && KeepsImage(leaves.image(x)))
  }

  /** What is asked of a replaced root is something about the root. */
  ghost predicate Corresponds(leaves: Leaves, p: RootsAre, q: RootsAre, was: RootsAre) {
    && (forall x :: p.text(x) ==> (q.text(leaves.text(x)) <==> was.text(x)))
    && (forall x :: p.json(x) ==> (q.json(leaves.json(x)) <==> was.json(x)))
    && (forall x :: p.image(x) ==> (q.image(leaves.image(x)) <==> was.image(x)) && KeepsImage(leaves.image(x)))
  }

  /** The roots of a rebuilt frame are the rebuilt roots. */
  lemma WalkedRoots(schema: Schema, v: Json, leaves: Leaves, p: RootsAre, q: RootsAre)
    requires AllRoots(schema, v, p) && TurnsInto(leaves, p, q)
    ensures AllRoots(schema, Walk(schema, v, leaves), q)
  {
    hide AllRoots, Walk, KeepsImage;
    WalkedRootsIff(schema, v, leaves, p, q, p);
  }

  lemma {:induction false} WalkedRootsIff(schema: Schema, v: Json, leaves: Leaves, p: RootsAre, q: RootsAre,
      was: RootsAre)
    requires AllRoots(schema, v, p) && Corresponds(leaves, p, q, was)
    ensures AllRoots(schema, Walk(schema, v, leaves), q) <==> AllRoots(schema, v, was)
    decreases v
  {
    hide ChildSchema, Word, Walk, AllRoots, IsImage, ItemSchema, Corresponds, Get;
    if schema == TextRoot || schema == JsonRoot || schema == Ordinary || IsImage(schema, v) {
      WalkedRoot(schema, v, leaves, p, q, was);
    } else {
      WalkUnfolds(schema, v, leaves);
      RootsUnfold(schema, v, p);
      RootsUnfold(schema, v, was);
      if v.Arr? { WalkedItems(schema, v, leaves, p, q, was); }
      else if v.Obj? { WalkedFields(schema, v, leaves, p, q, was); }
      else { RootsUnfold(schema, v, q); }
    }
  }

  lemma WalkedRoot(schema: Schema, v: Json, leaves: Leaves, p: RootsAre, q: RootsAre, was: RootsAre)
    requires AllRoots(schema, v, p) && Corresponds(leaves, p, q, was)
    requires schema == TextRoot || schema == JsonRoot || schema == Ordinary || IsImage(schema, v)
    ensures AllRoots(schema, Walk(schema, v, leaves), q) <==> AllRoots(schema, v, was)
  {
    hide ChildSchema, Word, Get, ItemSchema, WalkItems, WalkFields;
    if schema == TextRoot {} else if schema == JsonRoot {} else if schema == Ordinary {} else {}
  }

  lemma {:induction false} WalkedItems(schema: Schema, v: Json, leaves: Leaves, p: RootsAre, q: RootsAre,
      was: RootsAre)
    requires v.Arr? && schema != TextRoot && schema != JsonRoot && schema != Ordinary
    requires Corresponds(leaves, p, q, was)
    requires forall i :: 0 <= i < |v.items| ==> AllRoots(ItemSchema(schema), v.items[i], p)
    ensures AllRoots(schema, Arr(WalkItems(ItemSchema(schema), v.items, leaves)), q) <==> AllRoots(schema, v, was)
    decreases v, 0
  {
    hide Walk, AllRoots, ItemSchema, Corresponds;
    var items := WalkItems(ItemSchema(schema), v.items, leaves);
    forall i | 0 <= i < |items|
      ensures AllRoots(ItemSchema(schema), items[i], q) <==> AllRoots(ItemSchema(schema), v.items[i], was)
    {
      WalkedRootsIff(ItemSchema(schema), v.items[i], leaves, p, q, was);
    }
    RootsUnfold(schema, Arr(items), q);
    RootsUnfold(schema, v, was);
  }

  lemma {:induction false} WalkedFields(schema: Schema, v: Json, leaves: Leaves, p: RootsAre, q: RootsAre,
      was: RootsAre)
    requires v.Obj? && schema != TextRoot && schema != JsonRoot && schema != Ordinary && !IsImage(schema, v)
    requires Corresponds(leaves, p, q, was)
    requires forall i :: 0 <= i < |v.fields| ==>
      AllRoots(ChildSchema(schema, v.fields, v.fields[i].key), v.fields[i].value, p)
    ensures AllRoots(schema, Obj(WalkFields(schema, v.fields, leaves)), q) <==> AllRoots(schema, v, was)
    decreases v, 0
  {
    hide Walk, AllRoots, ChildSchema, Corresponds, Word, Get;
    var fields := WalkFields(schema, v.fields, leaves);
    WalkKeepsShape(schema, v.fields, leaves);
    assert Decides("type");
    forall i | 0 <= i < |fields|
      ensures AllRoots(ChildSchema(schema, fields, fields[i].key), fields[i].value, q)
        <==> AllRoots(ChildSchema(schema, v.fields, v.fields[i].key), v.fields[i].value, was)
    {
      SameSchemas(schema, v.fields, fields, fields[i].key);
      FieldSmaller(v, i);
      WalkedRootsIff(ChildSchema(schema, v.fields, v.fields[i].key), v.fields[i].value, leaves, p, q, was);
    }
    RootsUnfold(schema, Obj(fields), q);
    RootsUnfold(schema, v, was);
  }

  // ---------------------------------------------------------------- sizes

  /** How many bytes a traversal charges for a text root, a JSON root and an image block. */
  datatype RootSizes = RootSizes(text: Json -> nat, json: Json -> nat, image: Json -> nat)

  /** The logical size: roots by their own size, everything else by its canonical JSON. */
  function Size(schema: Schema, v: Json, sizes: RootSizes): nat
    decreases v
  {
    if schema == TextRoot then sizes.text(v)
    else if schema == JsonRoot then sizes.json(v)
    else if schema == Ordinary then JsonBytes(v)
    else if IsImage(schema, v) then sizes.image(v)
    else
      match v
      case Arr(items) => 2 + Separators(|items|) + SizeItems(ItemSchema(schema), items, sizes)
      case Obj(fields) => 2 + Separators(|fields|) + SizeFields(schema, fields, fields, sizes)
      case _ => JsonBytes(v)
  }

  function SizeItems(schema: Schema, items: seq<Json>, sizes: RootSizes): nat
    decreases items
  {
    if items == [] then 0 else Size(schema, items[0], sizes) + SizeItems(schema, items[1..], sizes)
  }

  function SizeField(schema: Schema, all: seq<Field>, f: Field, sizes: RootSizes): nat
    decreases f
  {
    |Encode(StringText(f.key))| + 1 + Size(ChildSchema(schema, all, f.key), f.value, sizes)
  }

  /** `all` is the whole record, whose discriminators decide the schemas. */
  function SizeFields(schema: Schema, all: seq<Field>, fields: seq<Field>, sizes: RootSizes): nat
    decreases fields
  {
    if fields == [] then 0 else SizeField(schema, all, fields[0], sizes) + SizeFields(schema, all, fields[1..], sizes)
  }

  /** Sizes of the replaced roots are sizes of the original ones. */
  ghost predicate Measures(leaves: Leaves, sizes: RootSizes, raw: RootSizes, p: RootsAre) {
    && (forall x :: p.text(x) ==> sizes.text(leaves.text(x)) == raw.text(x))
    && (forall x :: p.json(x) ==> sizes.json(leaves.json(x)) == raw.json(x))
    && (forall x :: p.image(x) ==> sizes.image(leaves.image(x)) == raw.image(x) && KeepsImage(leaves.image(x)))
  }

  /** The size of a rebuilt frame is the size of the frame, with its roots measured before they were
      replaced. */
  lemma {:induction false} SizeOfWalk(schema: Schema, v: Json, leaves: Leaves, sizes: RootSizes, raw: RootSizes,
      p: RootsAre)
    requires AllRoots(schema, v, p) && Measures(leaves, sizes, raw, p)
    ensures Size(schema, Walk(schema, v, leaves), sizes) == Size(schema, v, raw)
    decreases v
  {
    hide ChildSchema, Word, Walk, Size, Measures, AllRoots, IsImage;
    if schema == TextRoot || schema == JsonRoot || schema == Ordinary || IsImage(schema, v) || (!v.Arr? && !v.Obj?) {
      SizeOfRoot(schema, v, leaves, sizes, raw, p);
    } else if v.Arr? {
      SizeOfArray(schema, v, leaves, sizes, raw, p);
    } else {
      SizeOfObject(schema, v, leaves, sizes, raw, p);
    }
  }

  lemma SizeOfRoot(schema: Schema, v: Json, leaves: Leaves, sizes: RootSizes, raw: RootSizes, p: RootsAre)
    requires AllRoots(schema, v, p) && Measures(leaves, sizes, raw, p)
    requires schema == TextRoot || schema == JsonRoot || schema == Ordinary || IsImage(schema, v) ||
      (!v.Arr? && !v.Obj?)
    ensures Size(schema, Walk(schema, v, leaves), sizes) == Size(schema, v, raw)
  {
    hide ChildSchema, Word;
  }

  lemma {:induction false} SizeOfArray(schema: Schema, v: Json, leaves: Leaves, sizes: RootSizes, raw: RootSizes,
      p: RootsAre)
    requires v.Arr? && schema != TextRoot && schema != JsonRoot && schema != Ordinary && !IsImage(schema, v)
    requires Measures(leaves, sizes, raw, p)
    requires AllRoots(schema, v, p)
    ensures Size(schema, Walk(schema, v, leaves), sizes) == Size(schema, v, raw)
    decreases v, 0
  {
    hide ChildSchema, Word, Walk, ItemSchema, Measures, SizeItems;
    WalkUnfolds(schema, v, leaves);
    SizeOfItems(ItemSchema(schema), v.items, leaves, sizes, raw, p);
  }

  lemma {:induction false} SizeOfObject(schema: Schema, v: Json, leaves: Leaves, sizes: RootSizes, raw: RootSizes,
      p: RootsAre)
    requires v.Obj? && schema != TextRoot && schema != JsonRoot && schema != Ordinary && !IsImage(schema, v)
    requires Measures(leaves, sizes, raw, p)
    requires AllRoots(schema, v, p)
    ensures Size(schema, Walk(schema, v, leaves), sizes) == Size(schema, v, raw)
    decreases v, 0
  {
    hide ChildSchema, Word, Walk, ItemSchema, Measures, SizeFields, Get;
    var walked := WalkFields(schema, v.fields, leaves);
    WalkUnfolds(schema, v, leaves);
    WalkKeepsShape(schema, v.fields, leaves);
    assert Decides("type");
    SizeOfFields(schema, v.fields, walked, 0, leaves, sizes, raw, p);
    assert walked[0..] == walked && v.fields[0..] == v.fields;
  }

  lemma {:induction false} SizeOfItems(schema: Schema, items: seq<Json>, leaves: Leaves, sizes: RootSizes,
      raw: RootSizes, p: RootsAre)
    requires Measures(leaves, sizes, raw, p) && forall i :: 0 <= i < |items| ==> AllRoots(schema, items[i], p)
    ensures SizeItems(schema, WalkItems(schema, items, leaves), sizes) == SizeItems(schema, items, raw)
    decreases items
  {
    hide Walk, Size, Measures, AllRoots;
    if items != [] {
      SizeOfWalk(schema, items[0], leaves, sizes, raw, p);
      SizeOfItems(schema, items[1..], leaves, sizes, raw, p);
      assert WalkItems(schema, items, leaves)[1..] == WalkItems(schema, items[1..], leaves);
    }
  }

  lemma {:induction false} SizeOfFields(schema: Schema, all: seq<Field>, walked: seq<Field>, k: nat, leaves: Leaves,
      sizes: RootSizes, raw: RootSizes, p: RootsAre)
    requires k <= |all| && walked == WalkFields(schema, all, leaves) && SameShape(all, walked)
    requires Measures(leaves, sizes, raw, p)
    requires forall i :: 0 <= i < |all| ==> AllRoots(ChildSchema(schema, all, all[i].key), all[i].value, p)
    ensures SizeFields(schema, walked, walked[k..], sizes) == SizeFields(schema, all, all[k..], raw)
    decreases all, |all| - k
  {
    hide Walk, Size, Measures, AllRoots, ChildSchema, SameShape;
    if k < |all| {
      var f := all[k];
      assert f in all;
      SameSchemas(schema, all, walked, f.key);
      SizeOfWalk(ChildSchema(schema, all, f.key), f.value, leaves, sizes, raw, p);
      SizeOfFields(schema, all, walked, k + 1, leaves, sizes, raw, p);
      assert walked[k..][1..] == walked[k + 1..] && all[k..][1..] == all[k + 1..];
      assert walked[k] == Field(f.key, Walk(ChildSchema(schema, all, f.key), f.value, leaves));
    }
  }
}
