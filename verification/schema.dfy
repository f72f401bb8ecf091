/** Per-collection descriptors and the schema definitions `makeTypeDefs`
    emits, as structured declarations rather than template text. */
module Schema {
  import opened Wrappers
  import opened JsObject
  import opened Values
  import opened FieldTypes
  import opened Seeds
  import opened Text

  /** The store: collection name to its records, in key order. */
  type Store = Object<seq<Record>>

  /** The inflection lib/schema-maker.js borrows from lodash and pluralize, kept
      uninterpreted: `typeName` is `capitalize(singular(name))` and `plural`
      is `plural(typeName)`. */
  datatype Inflector = Inflector(typeName: string -> string, plural: string -> string)

  /** What the generators derive for one collection. */
  datatype Descriptor = Descriptor(
    collection: string,
    typeName: string,
    pluralType: string,
    createFields: seq<Token>,
    updateFields: seq<Token>)

  /** The error message of `makeTypeDefs` for invalid seeds. */
  const TypeDefsSeedsMessage: string := "Invalid seeds in JSON file."

  /** The error message of `makeResolvers` for invalid seeds. */
  const ResolversSeedsMessage: string := "Seeds Error."

  /** One step of the `strings` reduction: validate, then infer both
      signatures from the first record alone. */
  function Describe(name: string, rows: seq<Record>, inf: Inflector, message: string): (r: Result<Descriptor, Error>)
    ensures !ValidateSeeds(rows) ==> r == Failure(InvalidSeeds(message))
    ensures r.Success? <==> ValidateSeeds(rows) && AllTyped(rows[0])
    ensures r.Success? ==>
      && r.value.collection == name
      && r.value.typeName == inf.typeName(name)
      && r.value.pluralType == inf.plural(inf.typeName(name))
      && r.value.createFields == MakeFieldTypes(rows[0], Create).value
      && r.value.updateFields == MakeFieldTypes(rows[0], Update).value
      && (forall i :: 0 <= i < |r.value.createFields| ==> r.value.createFields[i].Field?)
      && (forall i :: 0 <= i < |r.value.updateFields| ==> r.value.updateFields[i].Field?)
    ensures r.Failure? && ValidateSeeds(rows) ==> r.error.UndefinedFieldType?
  {
    var typeName := inf.typeName(name);
    if !ValidateSeeds(rows) then Failure(InvalidSeeds(message))
    else
      ModesShareFields(rows[0]);
      var c :- MakeFieldTypes(rows[0], Create);
      var u :- MakeFieldTypes(rows[0], Update);
      Success(Descriptor(name, typeName, inf.plural(typeName), c, u))
  }

  /** The whole `strings` reduction over the collections in key order: the
      first collection that throws aborts it. */
  function DescribeAll(store: seq<(string, seq<Record>)>, inf: Inflector, message: string): (r: Result<seq<Descriptor>, Error>)
    ensures r.Success? <==> forall i :: 0 <= i < |store| ==> Describe(store[i].0, store[i].1, inf, message).Success?
    ensures r.Success? ==> |r.value| == |store|
    ensures r.Success? ==> forall i :: 0 <= i < |store| ==>
      r.value[i] == Describe(store[i].0, store[i].1, inf, message).value
    ensures r.Failure? ==> exists i ::
      && 0 <= i < |store|
      && Describe(store[i].0, store[i].1, inf, message) == Failure(r.error)
      && forall j :: 0 <= j < i ==> Describe(store[j].0, store[j].1, inf, message).Success?
  {
    if |store| == 0 then Success([])
    else
      var d :- Describe(store[0].0, store[0].1, inf, message);
      var rest :- DescribeAll(store[1..], inf, message);
      Success([d] + rest)
  }

  /** `all<Plural>: [<Type>]!` and `<Type>(id: Int): <Type>`. */
  datatype QueryFields = QueryFields(listField: string, typeName: string)

  /** `create<Type>(<create fields>): <Type>!`, `update<Type>(<update fields>): <Type>`
      and `delete<Type>(id: Int): Boolean!`. */
  datatype MutationFields = MutationFields(typeName: string, createArgs: seq<Token>, updateArgs: seq<Token>)

  /** `type <Type> { ... }`, one field per line. */
  datatype ObjectType = ObjectType(name: string, fields: seq<Token>)

  /** The three sections of the generated schema text. */
  datatype TypeDefs = TypeDefs(query: seq<QueryFields>, mutation: seq<MutationFields>, types: seq<ObjectType>)

  /** The name of the list query of a collection. */
  function ListFieldName(pluralType: string): string {
    "all" + pluralType
  }

  function QueryOf(d: Descriptor): QueryFields {
    QueryFields(ListFieldName(d.pluralType), d.typeName)
  }

  function MutationOf(d: Descriptor): MutationFields {
    MutationFields(d.typeName, d.createFields, d.updateFields)
  }

  /** The object type body is the create signature split at its commas. */
  function ObjectTypeOf(d: Descriptor): ObjectType {
    ObjectType(d.typeName, d.createFields)
  }

  /** `makeTypeDefs`: every collection validated and described, then one
      block per collection in each section, in collection order. */
  function MakeTypeDefs(store: Store, inf: Inflector): (r: Result<TypeDefs, Error>)
    ensures r.Success? <==> forall i :: 0 <= i < |store| ==>
      ValidateSeeds(store[i].1) && AllTyped(store[i].1[0])
    ensures r.Success? ==>
      && |r.value.query| == |r.value.mutation| == |r.value.types| == |store|
      && forall i :: 0 <= i < |store| ==>
        var name := store[i].0;
        var first := store[i].1[0];
        && r.value.query[i] == QueryFields("all" + inf.plural(inf.typeName(name)), inf.typeName(name))
        && r.value.mutation[i] == MutationFields(inf.typeName(name),
             MakeFieldTypes(first, Create).value, MakeFieldTypes(first, Update).value)
        && r.value.types[i] == ObjectType(inf.typeName(name), MakeFieldTypes(first, Create).value)
    ensures r.Failure? ==> r.error == InvalidSeeds(TypeDefsSeedsMessage) || r.error.UndefinedFieldType?
  {
    var ds :- DescribeAll(store, inf, TypeDefsSeedsMessage);
    Success(TypeDefs(
      seq(|ds|, i requires 0 <= i < |ds| => QueryOf(ds[i])),
      seq(|ds|, i requires 0 <= i < |ds| => MutationOf(ds[i])),
      seq(|ds|, i requires 0 <= i < |ds| => ObjectTypeOf(ds[i]))))
  }

  /** The `Query` block, two lines per collection. */
  function QueryLines(q: seq<QueryFields>): (r: seq<string>)
    ensures |r| == 2 * |q|
    ensures forall i :: 0 <= i < |q| ==>
      && r[2 * i] == q[i].listField + ": [" + q[i].typeName + "]!"
      && r[2 * i + 1] == q[i].typeName + "(id: Int): " + q[i].typeName
  {
    if |q| == 0 then []
    else
      var t := q[0].typeName;
      var rest := QueryLines(q[1..]);
      assert forall i :: 1 <= i < |q| ==> q[i] == q[1..][i - 1];
      [q[0].listField + ": [" + t + "]!", t + "(id: Int): " + t] + rest
  }

  /** `create<Type>(<create arguments>): <Type>!`. */
  function CreateField(f: MutationFields): string {
    "create" + f.typeName + "(" + RenderFieldTypes(f.createArgs) + "): " + f.typeName + "!"
  }

  /** `update<Type>(<update arguments>): <Type>`. */
  function UpdateField(f: MutationFields): string {
    "update" + f.typeName + "(" + RenderFieldTypes(f.updateArgs) + "): " + f.typeName
  }

  /** `delete<Type>(id: Int): Boolean!`. */
  function DeleteField(f: MutationFields): string {
    "delete" + f.typeName + "(id: Int): Boolean!"
  }

  /** The `Mutation` block, three lines per collection: its create, update
      and delete fields, in collection order. */
  function MutationLines(m: seq<MutationFields>): (r: seq<string>)
    ensures |r| == 3 * |m|
    ensures forall i :: 0 <= i < |m| ==>
      r[3 * i] == CreateField(m[i]) && r[3 * i + 1] == UpdateField(m[i]) && r[3 * i + 2] == DeleteField(m[i])
  {
    if |m| == 0 then []
    else
      var rest := MutationLines(m[1..]);
      var r := [CreateField(m[0]), UpdateField(m[0]), DeleteField(m[0])] + rest;
      forall i | 1 <= i < |m|
        ensures r[3 * i] == CreateField(m[i]) && r[3 * i + 1] == UpdateField(m[i]) && r[3 * i + 2] == DeleteField(m[i])
      {
        assert m[i] == m[1..][i - 1];
        assert r[3 * i] == rest[3 * (i - 1)];
        assert r[3 * i + 1] == rest[3 * (i - 1) + 1];
        assert r[3 * i + 2] == rest[3 * (i - 1) + 2];
      }
      r
  }

  /** The number of lines the first `i` object types take: a header, one
      line per field, and a closing brace each. */
  function LinesBefore(ts: seq<ObjectType>, i: nat): nat
    requires i <= |ts|
  {
    if i == 0 then 0 else LinesBefore(ts, i - 1) + |ts[i - 1].fields| + 2
  }

  /** Counting past the first type equals counting in the rest. */
  lemma {:induction false} LinesBeforeTail(ts: seq<ObjectType>, i: nat)
    requires 1 <= i <= |ts|
    ensures LinesBefore(ts, i) == |ts[0].fields| + 2 + LinesBefore(ts[1..], i - 1)
  {
    if i > 1 {
      LinesBeforeTail(ts, i - 1);
      assert ts[1..][i - 2] == ts[i - 1];
    }
  }

  /** `lines` holds the block of object type `o` at line `at`: its header,
      one line per field in order, and a closing brace. */
  predicate BlockAt(lines: seq<string>, o: ObjectType, at: nat) {
    && at + |o.fields| + 1 < |lines|
    && lines[at] == "type " + o.name + " {"
    && lines[at + |o.fields| + 1] == "}"
    && forall k :: 0 <= k < |o.fields| ==> lines[at + 1 + k] == RenderToken(o.fields[k])
  }

  /** A block stays in place behind lines put in front of it. */
  lemma BlockShift(head: seq<string>, rest: seq<string>, o: ObjectType, at: nat)
    requires BlockAt(rest, o, at)
    ensures BlockAt(head + rest, o, |head| + at)
  {
    var r := head + rest;
    forall k | 0 <= k < |o.fields|
      ensures r[|head| + at + 1 + k] == RenderToken(o.fields[k])
    {
      assert r[|head| + at + 1 + k] == rest[at + 1 + k];
    }
  }

  /** The lines of one object type: header, fields, closing brace. */
  function TypeBlock(o: ObjectType): (b: seq<string>)
    ensures |b| == |o.fields| + 2
  {
    ["type " + o.name + " {"] + seq(|o.fields|, i requires 0 <= i < |o.fields| => RenderToken(o.fields[i])) + ["}"]
  }

  /** A type's own lines hold its block at their start. */
  lemma BlockAtStart(o: ObjectType, rest: seq<string>)
    ensures BlockAt(TypeBlock(o) + rest, o, 0)
  {
    var b := TypeBlock(o);
    var r := b + rest;
    forall k | 0 <= k < |o.fields|
      ensures r[1 + k] == RenderToken(o.fields[k])
    {
      assert r[1 + k] == b[1 + k];
    }
  }

  /** The block of a later type, moved behind the first type's lines. */
  lemma BlockBehind(ts: seq<ObjectType>, rest: seq<string>, i: nat)
    requires 1 <= i < |ts|
    requires BlockAt(rest, ts[1..][i - 1], LinesBefore(ts[1..], i - 1))
    ensures BlockAt(TypeBlock(ts[0]) + rest, ts[i], LinesBefore(ts, i))
  {
    LinesBeforeTail(ts, i);
    assert ts[i] == ts[1..][i - 1];
    BlockShift(TypeBlock(ts[0]), rest, ts[i], LinesBefore(ts[1..], i - 1));
  }

  /** Every block of a list of types, once the first type's lines are put
      in front of the blocks of the rest. */
  lemma BlocksOfCons(ts: seq<ObjectType>, rest: seq<string>)
    requires |ts| > 0
    requires forall i :: 0 <= i < |ts| - 1 ==> BlockAt(rest, ts[1..][i], LinesBefore(ts[1..], i))
    ensures forall i :: 0 <= i < |ts| ==> BlockAt(TypeBlock(ts[0]) + rest, ts[i], LinesBefore(ts, i))
  {
    forall i | 0 <= i < |ts|
      ensures BlockAt(TypeBlock(ts[0]) + rest, ts[i], LinesBefore(ts, i))
    {
      if i == 0 {
        BlockAtStart(ts[0], rest);
      } else {
        BlockBehind(ts, rest, i);
      }
    }
  }

  /** The object types, one line per field of the create signature: the
      block of type `i` starts after the blocks before it. */
  function TypeLines(ts: seq<ObjectType>): (r: seq<string>)
    ensures |r| == LinesBefore(ts, |ts|)
    ensures forall i :: 0 <= i < |ts| ==> BlockAt(r, ts[i], LinesBefore(ts, i))
  {
    if |ts| == 0 then []
    else
      var rest := TypeLines(ts[1..]);
      LinesBeforeTail(ts, |ts|);
      BlocksOfCons(ts, rest);
      TypeBlock(ts[0]) + rest
  }

  /** The pieces `split(',')` cuts a rendered signature into: the first
      token, then every later token behind the space of its `", "`. */
  function SignaturePieces(ts: seq<Token>): seq<string>
    requires |ts| > 0
  {
    [RenderToken(ts[0])] + seq(|ts| - 1, i requires 0 <= i < |ts| - 1 => " " + RenderToken(ts[i + 1]))
  }

  /** A token of a comma-free field name renders without a comma. */
  lemma RenderTokenCommaFree(t: Token)
    requires t.Field? ==> ',' !in t.name
    ensures ',' !in RenderToken(t)
  {
    if t.Field? {
      var tail := ": " + TypeName(t.ty) + (if t.required then "!" else "");
      assert ',' !in tail;
      assert RenderToken(t) == t.name + tail;
    }
  }

  /** Dropping the first piece leaves the pieces of the remaining tokens,
      the first of them behind a space. */
  lemma PiecesTail(ts: seq<Token>)
    requires |ts| > 1
    ensures SignaturePieces(ts)[1..] ==
      [" " + SignaturePieces(ts[1..])[0]] + SignaturePieces(ts[1..])[1..]
  {
    var p := SignaturePieces(ts);
    var rest := SignaturePieces(ts[1..]);
    var q := [" " + rest[0]] + rest[1..];
    forall i | 0 <= i < |q| ensures p[1..][i] == q[i] {
      assert ts[1..][i] == ts[i + 1];
    }
  }

  /** The separator `join(', ')` writes is a comma and then a space. */
  lemma CommaSpace(head: string, tail: string)
    ensures head + [','] + (" " + tail) == head + ", " + tail
  {
    assert [','] + " " == ", ";
  }

  /** The signature is its pieces joined at commas. */
  lemma {:induction false} SignatureJoinsPieces(ts: seq<Token>)
    requires |ts| > 0
    ensures RenderFieldTypes(ts) == JoinWith(SignaturePieces(ts), ',')
    decreases |ts|
  {
    if |ts| > 1 {
      var p := SignaturePieces(ts);
      var rest := SignaturePieces(ts[1..]);
      SignatureJoinsPieces(ts[1..]);
      PiecesTail(ts);
      JoinPrefix(" ", rest, ',');
      CommaSpace(RenderToken(ts[0]), RenderFieldTypes(ts[1..]));
    }
  }

  /** `createFieldTypes.split(',')` cuts the signature exactly between its
      fields, so an object type lists one line per field token: the first
      as rendered, the others behind a space that the layout discards. */
  lemma ObjectTypeLinesSplitSignature(ts: seq<Token>)
    requires |ts| > 0
    requires forall i :: 0 <= i < |ts| && ts[i].Field? ==> ',' !in ts[i].name
    ensures |Split(RenderFieldTypes(ts), ',')| == |ts|
    ensures Split(RenderFieldTypes(ts), ',')[0] == RenderToken(ts[0])
    ensures forall i :: 0 < i < |ts| ==> Split(RenderFieldTypes(ts), ',')[i] == " " + RenderToken(ts[i])
  {
    var p := SignaturePieces(ts);
    forall i | 0 <= i < |p| ensures ',' !in p[i] {
      RenderTokenCommaFree(ts[i]);
      if i > 0 { assert ',' !in " "; }
    }
    SignatureJoinsPieces(ts);
    SplitJoin(p, ',');
  }

  /** The schema text as its non-blank lines with indentation removed;
      lib/schema-maker.test.js compares it with all whitespace removed. */
  function RenderTypeDefs(td: TypeDefs): seq<string> {
    ["type Query {"] + QueryLines(td.query) + ["}", "type Mutation {"] + MutationLines(td.mutation) + ["}"]
      + TypeLines(td.types)
  }

  /** Where the parts of `[hq] + q + [cq, hm] + m + [cm] + t` sit. */
  lemma Layout(r: seq<string>, hq: string, cq: string, hm: string, cm: string,
               q: seq<string>, m: seq<string>, t: seq<string>)
    requires r == [hq] + q + [cq, hm] + m + [cm] + t
    ensures |r| == 4 + |q| + |m| + |t|
    ensures r[0] == hq && r[1 + |q|] == cq && r[2 + |q|] == hm && r[3 + |q| + |m|] == cm
    ensures forall i :: 0 <= i < |q| ==> r[1 + i] == q[i]
    ensures forall i :: 0 <= i < |m| ==> r[3 + |q| + i] == m[i]
    ensures forall i :: 0 <= i < |t| ==> r[4 + |q| + |m| + i] == t[i]
  {
  }

  /** The schema text opens with the `Query` block: its header, the query
      fields, and a closing brace. */
  lemma RenderTypeDefsQuery(td: TypeDefs)
    ensures var r, q := RenderTypeDefs(td), QueryLines(td.query);
      && |r| == 4 + |q| + |MutationLines(td.mutation)| + |TypeLines(td.types)|
      && r[0] == "type Query {"
      && (forall i :: 0 <= i < |q| ==> r[1 + i] == q[i])
      && r[1 + |q|] == "}"
  {
    Layout(RenderTypeDefs(td), "type Query {", "}", "type Mutation {", "}",
      QueryLines(td.query), MutationLines(td.mutation), TypeLines(td.types));
  }

  /** The `Mutation` block follows the `Query` block. */
  lemma RenderTypeDefsMutation(td: TypeDefs)
    ensures var r, q, m := RenderTypeDefs(td), QueryLines(td.query), MutationLines(td.mutation);
      && |r| == 4 + |q| + |m| + |TypeLines(td.types)|
      && r[2 + |q|] == "type Mutation {"
      && (forall i :: 0 <= i < |m| ==> r[3 + |q| + i] == m[i])
      && r[3 + |q| + |m|] == "}"
  {
    Layout(RenderTypeDefs(td), "type Query {", "}", "type Mutation {", "}",
      QueryLines(td.query), MutationLines(td.mutation), TypeLines(td.types));
  }

  /** The object types close the schema text. */
  lemma RenderTypeDefsTypes(td: TypeDefs)
    ensures var r, q, m, t := RenderTypeDefs(td), QueryLines(td.query), MutationLines(td.mutation), TypeLines(td.types);
      && |r| == 4 + |q| + |m| + |t|
      && forall i :: 0 <= i < |t| ==> r[4 + |q| + |m| + i] == t[i]
  {
    Layout(RenderTypeDefs(td), "type Query {", "}", "type Mutation {", "}",
      QueryLines(td.query), MutationLines(td.mutation), TypeLines(td.types));
  }

  /** Two stores agreeing on names, on which collections are valid, and on
      the first record of each valid one. */
  predicate SameSamples(s1: seq<(string, seq<Record>)>, s2: seq<(string, seq<Record>)>) {
    && |s1| == |s2|
    && forall i :: 0 <= i < |s1| ==>
      && s1[i].0 == s2[i].0
      && ValidateSeeds(s1[i].1) == ValidateSeeds(s2[i].1)
      && (ValidateSeeds(s1[i].1) ==> s1[i].1[0] == s2[i].1[0])
  }

  /** Inference reads only the first record: records after it can change
      freely (keeping their ids truthy) without changing the descriptors. */
  lemma {:induction false} DescribeAllReadsFirstRecords(s1: seq<(string, seq<Record>)>, s2: seq<(string, seq<Record>)>,
                                                      inf: Inflector, message: string)
    requires SameSamples(s1, s2)
    ensures DescribeAll(s1, inf, message) == DescribeAll(s2, inf, message)
    decreases |s1|
  {
    if |s1| > 0 {
      assert Describe(s1[0].0, s1[0].1, inf, message) == Describe(s2[0].0, s2[0].1, inf, message);
      assert SameSamples(s1[1..], s2[1..]) by {
        forall i | 0 <= i < |s1| - 1 ensures s1[1..][i] == s1[i + 1] && s2[1..][i] == s2[i + 1] { }
      }
      DescribeAllReadsFirstRecords(s1[1..], s2[1..], inf, message);
    }
  }

  /** The schema text depends on each collection's first record only. */
  lemma TypeDefsReadFirstRecords(s1: Store, s2: Store, inf: Inflector)
    requires SameSamples(s1, s2)
    ensures MakeTypeDefs(s1, inf) == MakeTypeDefs(s2, inf)
  {
    DescribeAllReadsFirstRecords(s1, s2, inf, TypeDefsSeedsMessage);
  }
}
