/**
  Firestore documents as the trigger handlers see them: a document is a map
  from field names to values, and `update` overwrites the top-level fields it
  names, leaving the others as they were.
*/
module Store {
  import opened Types

  /** A field name: one of the names the functions use, or any other name. */
  datatype Name =
    | UserID | Filename | Status | Type | CreatedAt | ProcessedAt
    | NutritionalReport | Analysis | Source | ErrorDetails | Message | ResponsePreview
    | AiConcerns | AiRecommendations
    | BristolScale | Color | Consistency | Shape | Size | HasBlood | HasMucus
    | Other(text: string)

  /** A field value; `Obj` is a nested object, replaced as a whole by an update. */
  datatype Value =
    | Str(s: string)
    | Num(n: real)
    | Bool(b: bool)
    | Time(t: Timestamp)
    | Null
    | Strings(items: seq<string>)
    | Obj(fields: map<Name, Value>)

  type Fields = map<Name, Value>

  /** JavaScript truthiness of a field; a missing field is `undefined`. */
  predicate Truthy(fields: Fields, name: Name)
  {
    name in fields &&
    match fields[name]
    case Str(s) => s != ""
    case Num(n) => n != 0.0
    case Bool(b) => b
    case Null => false
    case _ => true
  }

  /** `ref.update(changes)`: the named fields take the new values, every other field keeps its value. */
  function Updated(fields: Fields, changes: Fields): Fields
  {
    fields + changes
  }

  /** The document after a sequence of updates, applied in order. */
  function AfterAll(fields: Fields, writes: seq<Fields>): Fields
  {
    if |writes| == 0 then fields else Updated(AfterAll(fields, writes[..|writes| - 1]), writes[|writes| - 1])
  }

  /** One more update on top of a sequence of updates. */
  lemma AfterOneMore(fields: Fields, writes: seq<Fields>, changes: Fields)
    ensures AfterAll(fields, writes + [changes]) == Updated(AfterAll(fields, writes), changes)
  {
    assert (writes + [changes])[..|writes|] == writes;
  }

  /** A single update. */
  lemma AfterOne(fields: Fields, a: Fields)
    ensures AfterAll(fields, [a]) == Updated(fields, a)
  {
    AfterOneMore(fields, [], a);
    assert [] + [a] == [a];
  }

  /** Two updates in a row. */
  lemma AfterTwo(fields: Fields, a: Fields, b: Fields)
    ensures AfterAll(fields, [a, b]) == Updated(Updated(fields, a), b)
  {
    AfterOneMore(fields, [], a);
    AfterOneMore(fields, [a], b);
    assert [] + [a] == [a] && [a] + [b] == [a, b];
  }

  /** Three updates in a row. */
  lemma AfterThree(fields: Fields, a: Fields, b: Fields, c: Fields)
    ensures AfterAll(fields, [a, b, c]) == Updated(Updated(Updated(fields, a), b), c)
  {
    AfterTwo(fields, a, b);
    AfterOneMore(fields, [a, b], c);
    assert [a, b] + [c] == [a, b, c];
  }

  /** A field named by the last update that names it holds that update's value. */
  lemma {:induction false} LastWriteWins(fields: Fields, writes: seq<Fields>, name: Name, i: nat)
    requires i < |writes| && name in writes[i]
    requires forall j :: i < j < |writes| ==> name !in writes[j]
    ensures name in AfterAll(fields, writes) && AfterAll(fields, writes)[name] == writes[i][name]
  {
    if i < |writes| - 1 {
      LastWriteWins(fields, writes[..|writes| - 1], name, i);
    }
  }

  /** A field no update names keeps its value. */
  lemma {:induction false} UnwrittenFieldKept(fields: Fields, writes: seq<Fields>, name: Name)
    requires forall j :: 0 <= j < |writes| ==> name !in writes[j]
    ensures name in AfterAll(fields, writes) <==> name in fields
    ensures name in fields ==> AfterAll(fields, writes)[name] == fields[name]
  {
    if |writes| > 0 {
      UnwrittenFieldKept(fields, writes[..|writes| - 1], name);
    }
  }

  /** Updates applied one after the other: first those of `a`, then those of `b`. */
  lemma {:induction false} AfterAppend(fields: Fields, a: seq<Fields>, b: seq<Fields>)
    ensures AfterAll(fields, a + b) == AfterAll(AfterAll(fields, a), b)
  {
    if |b| == 0 {
      assert a + b == a;
    } else {
      var b' := b[..|b| - 1];
      AfterAppend(fields, a, b');
      assert (a + b)[..|a + b| - 1] == a + b';
    }
  }

  /** One stored document; `writes` logs every `update` it received, in order. */
  class Document {
    var fields: Fields
    ghost var writes: seq<Fields>

    constructor(initial: Fields)
      ensures fields == initial && writes == []
    {
      fields := initial;
      writes := [];
    }

    /** `ref.update(changes)`. */
    method Update(changes: Fields)
      modifies this
      ensures fields == Updated(old(fields), changes)
      ensures writes == old(writes) + [changes]
    {
      fields := fields + changes;
      writes := writes + [changes];
    }
  }

  /** The named collections of the database, each a sequence of documents in insertion order. */
  class Collections {
    var docs: map<string, seq<Fields>>

    constructor()
      ensures docs == map[]
    {
      docs := map[];
    }

    /** `db.collection(name).add(fields)`. */
    method Add(name: string, fields: Fields)
      modifies this
      ensures docs == old(docs)[name := (if name in old(docs) then old(docs)[name] else []) + [fields]]
    {
      var existing := if name in docs then docs[name] else [];
      docs := docs[name := existing + [fields]];
    }
  }
}
