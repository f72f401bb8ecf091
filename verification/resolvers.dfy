/** The resolver table of `makeResolvers` and the five resolvers it binds
    for every collection, each a pure function from the store to the store
    it leaves behind (the state `write` serialises) and its answer. */
module Resolvers {
  import opened Wrappers
  import opened JsObject
  import opened Values
  import opened Seeds
  import opened Schema

  /** The records of a collection, `this.db[model]`. */
  function Collection(store: Store, model: string): seq<Record>
    requires model in KeySet(store)
  {
    Get(store, model).value
  }

  /** `all<Plural>`: the collection as stored, unfiltered and unpaginated. */
  function AllRows(store: Store, model: string): (rows: seq<Record>)
    requires model in KeySet(store)
    ensures Get(store, model) == Some(rows)
  {
    Collection(store, model)
  }

  /** `rows.find(r => r.id === id)`: the first record with that id. */
  function FindById(rows: seq<Record>, id: Option<Value>): (r: Option<Record>)
    ensures r.None? <==> forall i :: 0 <= i < |rows| ==> Id(rows[i]) != id
    ensures r.Some? ==> exists i ::
      && 0 <= i < |rows|
      && rows[i] == r.value
      && Id(rows[i]) == id
      && forall j :: 0 <= j < i ==> Id(rows[j]) != id
  {
    if |rows| == 0 then None
    else if Id(rows[0]) == id then Some(rows[0])
    else
      var r := FindById(rows[1..], id);
      assert forall j :: 1 <= j < |rows| ==> rows[j] == rows[1..][j - 1];
      r
  }

  /** `<Type>(id)`: the first record of the collection with that id. */
  function RowById(store: Store, model: string, id: Option<Value>): (r: Option<Record>)
    requires model in KeySet(store)
    ensures r.Some? ==> r.value in Collection(store, model) && Id(r.value) == id
    ensures r.Some? ==> exists i ::
      && 0 <= i < |Collection(store, model)|
      && Collection(store, model)[i] == r.value
      && forall j :: 0 <= j < i ==> Id(Collection(store, model)[j]) != id
    ensures r.None? <==> forall x :: x in Collection(store, model) ==> Id(x) != id
  {
    FindById(Collection(store, model), id)
  }

  /** `create<Type>(args)`: `{ id, ...args }` with the generated id, pushed
      onto the collection and returned. */
  function CreateRow(store: Store, model: string, args: Record): (r: Result<(Store, Record), Error>)
    requires model in KeySet(store)
    ensures r.Success? <==> GenerateId(Collection(store, model)).Success?
    ensures r.Failure? ==> r == Failure(GenerateId(Collection(store, model)).error)
    ensures r.Success? ==>
      var (after, created) := r.value;
      var rows := Collection(store, model);
      && SameKeys(after, store)
      && Get(after, model) == Some(rows + [created])
      && (forall m :: m != model ==> Get(after, m) == Get(store, m))
      && |created| > 0 && created[0].0 == IdField
      && Id(created) == (if IdField in KeySet(args) then Id(args) else Some(GenerateId(rows).value))
      && (forall k :: k != IdField ==> Get(created, k) == Get(args, k))
  {
    var rows := Collection(store, model);
    var id :- GenerateId(rows);
    var created := Spread([(IdField, id)], args);
    Success((Put(store, model, rows + [created]), created))
  }

  /** Whether a row is one `update<Type>(args)` rewrites. */
  predicate Matches(row: Record, args: Record) {
    Id(row) == Id(args)
  }

  /** The index of the last row `update<Type>(args)` rewrites, the one whose
      merge the closure's `record` variable holds when `map` finishes. */
  function LastMatch(rows: seq<Record>, args: Record): (k: Option<nat>)
    ensures k.None? <==> forall i :: 0 <= i < |rows| ==> !Matches(rows[i], args)
    ensures k.Some? ==>
      && k.value < |rows|
      && Matches(rows[k.value], args)
      && forall j :: k.value < j < |rows| ==> !Matches(rows[j], args)
  {
    if |rows| == 0 then None
    else if Matches(rows[|rows| - 1], args) then Some(|rows| - 1)
    else
      var k := LastMatch(rows[..|rows| - 1], args);
      assert forall i :: 0 <= i < |rows| - 1 ==> rows[..|rows| - 1][i] == rows[i];
      k
  }

  /** The `map` of `update<Type>`: matching rows become `{ ...row, ...args }`,
      the others stay as they are, and the answer is the last merged row. */
  function UpdateRows(rows: seq<Record>, args: Record): (r: (seq<Record>, Option<Record>))
    ensures |r.0| == |rows|
    ensures forall i :: 0 <= i < |rows| && !Matches(rows[i], args) ==> r.0[i] == rows[i]
    ensures forall i :: 0 <= i < |rows| && Matches(rows[i], args) ==> r.0[i] == Spread(rows[i], args)
    ensures r.1.None? <==> forall i :: 0 <= i < |rows| ==> !Matches(rows[i], args)
    ensures r.1.Some? ==> exists i ::
      && 0 <= i < |rows|
      && Matches(rows[i], args)
      && r.1.value == r.0[i]
      && forall j :: i < j < |rows| ==> !Matches(rows[j], args)
  {
    var updated := seq(|rows|, i requires 0 <= i < |rows| =>
      if Matches(rows[i], args) then Spread(rows[i], args) else rows[i]);
    match LastMatch(rows, args)
    case None => (updated, None)
    case Some(k) => (updated, Some(updated[k]))
  }

  /** `update<Type>(args)`: the collection rewritten in place; the answer is
      the merged record, in which `args` win and other fields are kept. */
  function UpdateRow(store: Store, model: string, args: Record): (r: (Store, Option<Record>))
    requires model in KeySet(store)
    ensures SameKeys(r.0, store)
    ensures forall m :: m != model ==> Get(r.0, m) == Get(store, m)
    ensures Get(r.0, model) == Some(UpdateRows(Collection(store, model), args).0)
    ensures r.1.None? <==> forall x :: x in Collection(store, model) ==> !Matches(x, args)
    ensures r.1.Some? ==> exists i ::
      && 0 <= i < |Collection(store, model)|
      && Matches(Collection(store, model)[i], args)
      && r.1.value == Spread(Collection(store, model)[i], args)
      && forall j :: i < j < |Collection(store, model)| ==> !Matches(Collection(store, model)[j], args)
    ensures r.1.Some? ==> exists x ::
      && x in Collection(store, model)
      && Matches(x, args)
      && forall k :: Get(r.1.value, k) == if k in KeySet(args) then Get(args, k) else Get(x, k)
  {
    var rows := Collection(store, model);
    var (updated, record) := UpdateRows(rows, args);
    (Put(store, model, updated), record)
  }

  /** `rows.filter(row => row.id !== id)`. */
  function WithoutId(rows: seq<Record>, id: Option<Value>): (kept: seq<Record>)
    ensures forall x :: x in kept ==> x in rows && Id(x) != id
    ensures forall i :: 0 <= i < |rows| && Id(rows[i]) != id ==> rows[i] in kept
    ensures |kept| <= |rows|
    ensures |kept| == |rows| <==> forall i :: 0 <= i < |rows| ==> Id(rows[i]) != id
  {
    if |rows| == 0 then []
    else
      var rest := WithoutId(rows[1..], id);
      assert forall j :: 1 <= j < |rows| ==> rows[j] == rows[1..][j - 1];
      if Id(rows[0]) == id then rest else [rows[0]] + rest
  }

  /** The filter keeps the survivors in their original order: it works on
      every part of the collection separately. */
  lemma {:induction false} WithoutIdKeepsOrder(a: seq<Record>, b: seq<Record>, id: Option<Value>)
    ensures WithoutId(a + b, id) == WithoutId(a, id) + WithoutId(b, id)
    decreases |a|
  {
    if |a| > 0 {
      assert (a + b)[1..] == a[1..] + b;
      WithoutIdKeepsOrder(a[1..], b, id);
    } else {
      assert a + b == b;
    }
  }

  /** `delete<Type>(id)`: every record with that id removed; the answer is
      whether the collection got shorter. */
  function DeleteRow(store: Store, model: string, id: Option<Value>): (r: (Store, bool))
    requires model in KeySet(store)
    ensures SameKeys(r.0, store)
    ensures forall m :: m != model ==> Get(r.0, m) == Get(store, m)
    ensures Get(r.0, model) == Some(WithoutId(Collection(store, model), id))
    ensures r.1 <==> exists x :: x in Collection(store, model) && Id(x) == id
  {
    var rows := Collection(store, model);
    var kept := WithoutId(rows, id);
    (Put(store, model, kept), |rows| > |kept|)
  }

  /** The five resolvers bound per collection. */
  datatype Operation = ListAll | FindOne | CreateOne | UpdateOne | DeleteOne

  /** A resolver closure: its operation and the collection it closes over. */
  datatype Resolver = Resolver(op: Operation, model: string)

  /** What a resolver hands back to the GraphQL engine. */
  datatype Answer = RowList(rows: seq<Record>) | MaybeRow(row: Option<Record>) | NewRow(created: Record) | Deleted(deleted: bool)

  /** Calling a resolver with its GraphQL arguments. */
  function Invoke(store: Store, res: Resolver, args: Record): (r: Result<(Store, Answer), Error>)
    requires res.model in KeySet(store)
    ensures r.Success? ==> SameKeys(r.value.0, store)
    ensures r.Success? ==> forall m :: m != res.model ==> Get(r.value.0, m) == Get(store, m)
    ensures (res.op.ListAll? || res.op.FindOne?) ==> r.Success? && r.value.0 == store
    ensures r.Failure? <==> res.op.CreateOne? && GenerateId(Collection(store, res.model)).Failure?
  {
    match res.op
    case ListAll => Success((store, RowList(AllRows(store, res.model))))
    case FindOne => Success((store, MaybeRow(RowById(store, res.model, Id(args)))))
    case CreateOne =>
      var (after, created) :- CreateRow(store, res.model, args);
      Success((after, NewRow(created)))
    case UpdateOne =>
      var (after, record) := UpdateRow(store, res.model, args);
      Success((after, MaybeRow(record)))
    case DeleteOne =>
      var (after, deleted) := DeleteRow(store, res.model, Id(args));
      Success((after, Deleted(deleted)))
  }

  /** One GraphQL field resolution. */
  datatype Call = Call(resolver: Resolver, args: Record)

  /** A call that can change the store: a mutation that did not throw. */
  predicate Writes(c: Call, answer: Result<Answer, Error>) {
    answer.Success? && !c.resolver.op.ListAll? && !c.resolver.op.FindOne?
  }

  /** Resolving requests one after another; a call that throws leaves the
      store as it was. Every collection survives every call, so each bound
      resolver stays callable. */
  function Serve(store: Store, calls: seq<Call>): (r: (Store, seq<Result<Answer, Error>>))
    requires forall i :: 0 <= i < |calls| ==> calls[i].resolver.model in KeySet(store)
    ensures SameKeys(r.0, store)
    ensures |r.1| == |calls|
    decreases |calls|
  {
    if |calls| == 0 then (store, [])
    else
      var c := calls[0];
      var (next, answer) := match Invoke(store, c.resolver, c.args)
        case Success((after, a)) => (after, Success(a))
        case Failure(e) => (store, Failure(e));
      SameKeysKeySet(next, store);
      var (final, answers) := Serve(next, calls[1..]);
      (final, [answer] + answers)
  }

  /** Only a `create<Type>` call can throw. */
  lemma {:induction false} ServeOnlyCreateFails(store: Store, calls: seq<Call>)
    requires forall i :: 0 <= i < |calls| ==> calls[i].resolver.model in KeySet(store)
    ensures forall i :: 0 <= i < |calls| ==> Serve(store, calls).1[i].Failure? ==> calls[i].resolver.op.CreateOne?
    decreases |calls|
  {
    if |calls| > 0 {
      var c := calls[0];
      var inv := Invoke(store, c.resolver, c.args);
      var next := if inv.Success? then inv.value.0 else store;
      var answer: Result<Answer, Error> := if inv.Success? then Success(inv.value.1) else Failure(inv.error);
      SameKeysKeySet(next, store);
      var rest := Serve(next, calls[1..]);
      assert Serve(store, calls).1 == [answer] + rest.1;
      ServeOnlyCreateFails(next, calls[1..]);
    }
  }

  /** A collection that no call names is left as it was. */
  lemma {:induction false} ServeLeavesOthers(store: Store, calls: seq<Call>, m: string)
    requires forall i :: 0 <= i < |calls| ==> calls[i].resolver.model in KeySet(store)
    requires forall i :: 0 <= i < |calls| ==> calls[i].resolver.model != m
    ensures Get(Serve(store, calls).0, m) == Get(store, m)
    decreases |calls|
  {
    if |calls| > 0 {
      var c := calls[0];
      var inv := Invoke(store, c.resolver, c.args);
      var next := if inv.Success? then inv.value.0 else store;
      SameKeysKeySet(next, store);
      ServeLeavesOthers(next, calls[1..], m);
    }
  }

  /** Queries and calls that throw leave the store as it was: when no call
      is a mutation that succeeded, the store comes back unchanged. */
  lemma {:induction false} ServeWithoutWrites(store: Store, calls: seq<Call>)
    requires forall i :: 0 <= i < |calls| ==> calls[i].resolver.model in KeySet(store)
    requires forall i :: 0 <= i < |calls| ==> !Writes(calls[i], Serve(store, calls).1[i])
    ensures Serve(store, calls).0 == store
    decreases |calls|
  {
    if |calls| > 0 {
      var c := calls[0];
      var inv := Invoke(store, c.resolver, c.args);
      var answer: Result<Answer, Error> := if inv.Success? then Success(inv.value.1) else Failure(inv.error);
      var rest := Serve(store, calls[1..]);
      assert Serve(store, calls) == (rest.0, [answer] + rest.1);
      ServeWithoutWrites(store, calls[1..]);
    }
  }

  /** The `Query` assignments of `makeResolvers`, in order: `all<Plural>`
      then `<Type>` for every collection. */
  function QueryEntries(names: seq<string>, inf: Inflector): (e: seq<(string, Resolver)>)
    ensures |e| == 2 * |names|
    ensures forall i :: 0 <= i < |names| ==>
      && e[2 * i] == (ListFieldName(inf.plural(inf.typeName(names[i]))), Resolver(ListAll, names[i]))
      && e[2 * i + 1] == (inf.typeName(names[i]), Resolver(FindOne, names[i]))
  {
    if |names| == 0 then []
    else
      var t := inf.typeName(names[0]);
      [(ListFieldName(inf.plural(t)), Resolver(ListAll, names[0])), (t, Resolver(FindOne, names[0]))]
        + QueryEntries(names[1..], inf)
  }

  /** The `Mutation` assignments: `create<Type>`, `update<Type>`, `delete<Type>`. */
  function MutationEntries(names: seq<string>, inf: Inflector): (e: seq<(string, Resolver)>)
    ensures |e| == 3 * |names|
    ensures forall i :: 0 <= i < |names| ==>
      && e[3 * i] == ("create" + inf.typeName(names[i]), Resolver(CreateOne, names[i]))
      && e[3 * i + 1] == ("update" + inf.typeName(names[i]), Resolver(UpdateOne, names[i]))
      && e[3 * i + 2] == ("delete" + inf.typeName(names[i]), Resolver(DeleteOne, names[i]))
  {
    if |names| == 0 then []
    else
      var t := inf.typeName(names[0]);
      [("create" + t, Resolver(CreateOne, names[0])),
       ("update" + t, Resolver(UpdateOne, names[0])),
       ("delete" + t, Resolver(DeleteOne, names[0]))]
        + MutationEntries(names[1..], inf)
  }

  /** The object `makeResolvers` returns. */
  datatype ResolverTable = ResolverTable(query: Object<Resolver>, mutation: Object<Resolver>)

  /** The second reduction of `makeResolvers`: the assignments of every
      collection's resolvers, in collection order, into `Query` and
      `Mutation`; a later collection with a clashing name overwrites. */
  function BuildTable(names: seq<string>, inf: Inflector): (t: ResolverTable)
    ensures forall k :: Get(t.query, k) == LastValue(QueryEntries(names, inf), k)
    ensures forall k :: Get(t.mutation, k) == LastValue(MutationEntries(names, inf), k)
    ensures UniqueKeys(QueryEntries(names, inf)) ==> t.query == QueryEntries(names, inf)
    ensures UniqueKeys(MutationEntries(names, inf)) ==> t.mutation == MutationEntries(names, inf)
  {
    var queries := QueryEntries(names, inf);
    var mutations := MutationEntries(names, inf);
    assert UniqueKeys(queries) ==> PutAll([], queries) == queries by {
      if UniqueKeys(queries) { PutAllDistinct(queries); }
    }
    assert UniqueKeys(mutations) ==> PutAll([], mutations) == mutations by {
      if UniqueKeys(mutations) { PutAllDistinct(mutations); }
    }
    ResolverTable(PutAll([], queries), PutAll([], mutations))
  }

  /** `makeResolvers`: every collection validated and described as for the
      schema text (with its own message), then the resolvers assigned. */
  function MakeResolvers(store: Store, inf: Inflector): (r: Result<ResolverTable, Error>)
    ensures r.Success? <==> MakeTypeDefs(store, inf).Success?
    ensures r.Failure? ==> r.error == InvalidSeeds(ResolversSeedsMessage) || r.error.UndefinedFieldType?
    ensures r.Success? ==> r.value == BuildTable(Keys(store), inf)
  {
    var _ :- DescribeAll(store, inf, ResolversSeedsMessage);
    Success(BuildTable(Keys(store), inf))
  }
}

/** Properties relating the resolvers to each other and to the schema. */
module ResolverProperties {
  import opened Wrappers
  import opened JsObject
  import opened Values
  import opened Seeds
  import opened Schema
  import opened Resolvers

  /** The names the `Query` assignments use. */
  lemma {:induction false} QueryEntryKeys(names: seq<string>, inf: Inflector)
    ensures KeySet(QueryEntries(names, inf)) ==
      (set n | n in names :: ListFieldName(inf.plural(inf.typeName(n)))) + (set n | n in names :: inf.typeName(n))
  {
    var e := QueryEntries(names, inf);
    forall k | k in KeySet(e)
      ensures k in (set n | n in names :: ListFieldName(inf.plural(inf.typeName(n)))) + (set n | n in names :: inf.typeName(n))
    {
      var j :| 0 <= j < |e| && e[j].0 == k;
      var i := j / 2;
      assert names[i] in names;
      if j == 2 * i { assert k == ListFieldName(inf.plural(inf.typeName(names[i]))); }
      else { assert j == 2 * i + 1; assert k == inf.typeName(names[i]); }
    }
    forall n | n in names
      ensures ListFieldName(inf.plural(inf.typeName(n))) in KeySet(e) && inf.typeName(n) in KeySet(e)
    {
      var i :| 0 <= i < |names| && names[i] == n;
      assert e[2 * i].0 == ListFieldName(inf.plural(inf.typeName(n)));
      assert e[2 * i + 1].0 == inf.typeName(n);
    }
  }

  /** The names `Mutation` should hold for the given collections. */
  function MutationNames(names: seq<string>, inf: Inflector): set<string> {
    (set n | n in names :: "create" + inf.typeName(n))
    + (set n | n in names :: "update" + inf.typeName(n))
    + (set n | n in names :: "delete" + inf.typeName(n))
  }

  /** Each `Mutation` assignment is named after one of the collections. */
  lemma MutationEntryName(names: seq<string>, inf: Inflector, j: nat)
    requires j < 3 * |names|
    ensures MutationEntries(names, inf)[j].0 in MutationNames(names, inf)
  {
    var e := MutationEntries(names, inf);
    var i := j / 3;
    assert 0 <= i < |names| && 3 * i <= j < 3 * i + 3;
    var n := names[i];
    assert n in names;
    if j == 3 * i {
      assert e[j].0 == "create" + inf.typeName(n);
      assert e[j].0 in (set n | n in names :: "create" + inf.typeName(n));
    } else if j == 3 * i + 1 {
      assert e[j].0 == "update" + inf.typeName(n);
      assert e[j].0 in (set n | n in names :: "update" + inf.typeName(n));
    } else {
      assert e[j].0 == "delete" + inf.typeName(n);
      assert e[j].0 in (set n | n in names :: "delete" + inf.typeName(n));
    }
  }

  /** Every collection's three `Mutation` names are assigned. */
  lemma MutationNamesAssigned(names: seq<string>, inf: Inflector, n: string)
    requires n in names
    ensures "create" + inf.typeName(n) in KeySet(MutationEntries(names, inf))
    ensures "update" + inf.typeName(n) in KeySet(MutationEntries(names, inf))
    ensures "delete" + inf.typeName(n) in KeySet(MutationEntries(names, inf))
  {
    var e := MutationEntries(names, inf);
    var i :| 0 <= i < |names| && names[i] == n;
    assert e[3 * i].0 == "create" + inf.typeName(n);
    assert e[3 * i + 1].0 == "update" + inf.typeName(n);
    assert e[3 * i + 2].0 == "delete" + inf.typeName(n);
  }

  /** The names the `Mutation` assignments use. */
  lemma {:induction false} MutationEntryKeys(names: seq<string>, inf: Inflector)
    ensures KeySet(MutationEntries(names, inf)) ==
      (set n | n in names :: "create" + inf.typeName(n))
      + (set n | n in names :: "update" + inf.typeName(n))
      + (set n | n in names :: "delete" + inf.typeName(n))
  {
    var e := MutationEntries(names, inf);
    assert KeySet(e) <= MutationNames(names, inf) by {
      forall k | k in KeySet(e) ensures k in MutationNames(names, inf) {
        var j :| 0 <= j < |e| && e[j].0 == k;
        MutationEntryName(names, inf, j);
      }
    }
    assert MutationNames(names, inf) <= KeySet(e) by {
      forall n | n in names
        ensures "create" + inf.typeName(n) in KeySet(e)
        ensures "update" + inf.typeName(n) in KeySet(e)
        ensures "delete" + inf.typeName(n) in KeySet(e)
      {
        MutationNamesAssigned(names, inf, n);
      }
    }
  }

  /** `makeResolvers` defines exactly `all<Plural>` and `<Type>` in `Query`
      and exactly `create<Type>`, `update<Type>`, `delete<Type>` in
      `Mutation`, for every collection name. */
  lemma TableKeys(names: seq<string>, inf: Inflector)
    ensures KeySet(BuildTable(names, inf).query) ==
      (set n | n in names :: ListFieldName(inf.plural(inf.typeName(n))))
      + (set n | n in names :: inf.typeName(n))
    ensures KeySet(BuildTable(names, inf).mutation) ==
      (set n | n in names :: "create" + inf.typeName(n))
      + (set n | n in names :: "update" + inf.typeName(n))
      + (set n | n in names :: "delete" + inf.typeName(n))
  {
    var t := BuildTable(names, inf);
    QueryEntryKeys(names, inf);
    MutationEntryKeys(names, inf);
    assert KeySet(t.query) == KeySet(QueryEntries(names, inf)) by {
      forall k ensures k in KeySet(t.query) <==> k in KeySet(QueryEntries(names, inf)) {
        assert Get(t.query, k) == LastValue(QueryEntries(names, inf), k);
      }
    }
    assert KeySet(t.mutation) == KeySet(MutationEntries(names, inf)) by {
      forall k ensures k in KeySet(t.mutation) <==> k in KeySet(MutationEntries(names, inf)) {
        assert Get(t.mutation, k) == LastValue(MutationEntries(names, inf), k);
      }
    }
  }

  /** Every field the schema text declares has a resolver under that name,
      so the two generators agree. */
  lemma SchemaFieldsHaveResolvers(store: Store, inf: Inflector)
    requires MakeTypeDefs(store, inf).Success?
    ensures MakeResolvers(store, inf).Success?
    ensures var td := MakeTypeDefs(store, inf).value;
      var t := MakeResolvers(store, inf).value;
      forall i :: 0 <= i < |store| ==>
        && td.query[i].listField in KeySet(t.query)
        && td.query[i].typeName in KeySet(t.query)
        && "create" + td.mutation[i].typeName in KeySet(t.mutation)
        && "update" + td.mutation[i].typeName in KeySet(t.mutation)
        && "delete" + td.mutation[i].typeName in KeySet(t.mutation)
  {
    var td := MakeTypeDefs(store, inf).value;
    var names := Keys(store);
    TableKeys(names, inf);
    forall i | 0 <= i < |store| ensures names[i] in names && names[i] == store[i].0 { }
  }

  /** Appending a record carrying the generated id to a collection with
      ascending ids keeps them ascending, and the record is the one found
      under its id. */
  lemma {:induction false} AppendGeneratedThenFind(rows: seq<Record>, created: Record)
    requires |rows| > 0 && AscendingIds(rows)
    requires GenerateId(rows).Success? && Id(created) == Some(GenerateId(rows).value)
    ensures AscendingIds(rows + [created])
    ensures FindById(rows + [created], Id(created)) == Some(created)
  {
    GeneratedIdIsFresh(rows);
    var rows' := rows + [created];
    assert forall i :: 0 <= i < |rows| ==> rows'[i] == rows[i];
    var found := FindById(rows', Id(created));
    assert Id(rows'[|rows|]) == Id(created);
    var i :| 0 <= i < |rows'| && rows'[i] == found.value && Id(rows'[i]) == Id(created)
      && forall j :: 0 <= j < i ==> Id(rows'[j]) != Id(created);
    assert i == |rows|;
  }

  /** A created record can be read back by its id: with ascending numeric
      ids and no caller-supplied id, `create<Type>` appends a record whose id
      is new, keeps the ids ascending, and `<Type>(id)` then finds it. */
  lemma CreateThenFind(store: Store, model: string, args: Record)
    requires model in KeySet(store)
    requires |Collection(store, model)| > 0 && AscendingIds(Collection(store, model))
    requires IdField !in KeySet(args)
    ensures CreateRow(store, model, args).Success?
    ensures var (after, created) := CreateRow(store, model, args).value;
      && model in KeySet(after)
      && |Collection(after, model)| == |Collection(store, model)| + 1
      && AscendingIds(Collection(after, model))
      && RowById(after, model, Id(created)) == Some(created)
  {
    var rows := Collection(store, model);
    GeneratedIdIsFresh(rows);
    var (after, created) := CreateRow(store, model, args).value;
    AppendGeneratedThenFind(rows, created);
  }

  /** After `delete<Type>(id)` no record with that id remains. */
  lemma DeleteThenFind(store: Store, model: string, id: Option<Value>)
    requires model in KeySet(store)
    ensures var after := DeleteRow(store, model, id).0;
      model in KeySet(after) && RowById(after, model, id).None?
  {
  }

  /** After an `update<Type>(args)` that matched, `<Type>(id)` finds a record
      carrying every field of `args`. */
  lemma UpdateThenFind(store: Store, model: string, args: Record)
    requires model in KeySet(store)
    requires exists x :: x in Collection(store, model) && Matches(x, args)
    ensures var after := UpdateRow(store, model, args).0;
      && model in KeySet(after)
      && RowById(after, model, Id(args)).Some?
      && forall k :: k in KeySet(args) ==> Get(RowById(after, model, Id(args)).value, k) == Get(args, k)
  {
    var rows := Collection(store, model);
    var updated := UpdateRows(rows, args).0;
    var x :| x in rows && Matches(x, args);
    var i :| 0 <= i < |rows| && rows[i] == x;
    assert Id(updated[i]) == Id(args);
    var found := FindById(updated, Id(args));
    assert found.Some?;
    var j :| 0 <= j < |updated| && updated[j] == found.value && Id(updated[j]) == Id(args);
    assert Matches(rows[j], args);
    assert found.value == Spread(rows[j], args);
  }
}
