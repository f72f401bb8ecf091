/** The expectations of lib/schema-maker.test.js, stated on the model. */
module Examples {
  import opened Wrappers
  import opened JsObject
  import opened Values
  import opened FieldTypes
  import opened Seeds
  import opened Schema
  import opened Resolvers

  /** `_generateId([{ id: n }])` is `n + 1`. */
  lemma GenerateIdSingleton(n: int)
    ensures GenerateId([[(IdField, Num(n as real))]]) == Success(Num((n + 1) as real))
  {
  }

  /** The first sample record of the field-type test. */
  const Naruto: seq<(string, Value)> := [("id", Num(1.0)), ("title", Str("Naruto")), ("rating", Num(90.6)),
                                         ("episodes", Num(12.0)), ("manga", Bool(true))]

  /** The second sample record of the field-type test. */
  const Berserk: seq<(string, Value)> := [("id", Num(1.0)), ("name", Str("Berserk"))]

  const NarutoCreate: seq<Token> := [
    Field("id", IntType, false), Field("title", StringType, true), Field("rating", FloatType, true),
    Field("episodes", IntType, true), Field("manga", BooleanType, true)]

  const NarutoUpdate: seq<Token> := [
    Field("id", IntType, true), Field("title", StringType, false), Field("rating", FloatType, false),
    Field("episodes", IntType, false), Field("manga", BooleanType, false)]

  /** One step of `MakeFieldTypes`, for unrolling it on a literal record. */
  lemma UnrollCons(field: (string, Value), rest: seq<(string, Value)>, mode: Mode, t: Token, ts: seq<Token>)
    requires FieldToken(field, mode) == Success(t)
    requires MakeFieldTypes(rest, mode) == Success(ts)
    ensures MakeFieldTypes([field] + rest, mode) == Success([t] + ts)
  {
    assert ([field] + rest)[1..] == rest;
  }

  lemma NarutoCreateFieldTokens()
    ensures FieldToken(Naruto[0], Create) == Success(NarutoCreate[0])
    ensures FieldToken(Naruto[1], Create) == Success(NarutoCreate[1])
    ensures FieldToken(Naruto[2], Create) == Success(NarutoCreate[2])
    ensures FieldToken(Naruto[3], Create) == Success(NarutoCreate[3])
    ensures FieldToken(Naruto[4], Create) == Success(NarutoCreate[4])
  {
    assert 90.6.Floor == 90;
  }

  lemma NarutoCreateTokens()
    ensures MakeFieldTypes(Naruto, Create) == Success(NarutoCreate)
  {
    var n, c := Naruto, NarutoCreate;
    NarutoCreateFieldTokens();
    assert MakeFieldTypes([], Create) == Success([]);
    UnrollCons(n[4], [], Create, c[4], []);
    assert [n[4]] + [] == [n[4]] && [c[4]] + [] == [c[4]];
    UnrollCons(n[3], [n[4]], Create, c[3], [c[4]]);
    UnrollCons(n[2], [n[3]] + [n[4]], Create, c[2], [c[3]] + [c[4]]);
    UnrollCons(n[1], [n[2]] + ([n[3]] + [n[4]]), Create, c[1], [c[2]] + ([c[3]] + [c[4]]));
    UnrollCons(n[0], [n[1]] + ([n[2]] + ([n[3]] + [n[4]])), Create, c[0], [c[1]] + ([c[2]] + ([c[3]] + [c[4]])));
    assert [n[0]] + ([n[1]] + ([n[2]] + ([n[3]] + [n[4]]))) == n;
    assert [c[0]] + ([c[1]] + ([c[2]] + ([c[3]] + [c[4]]))) == c;
  }

  lemma NarutoUpdateFieldTokens()
    ensures FieldToken(Naruto[0], Update) == Success(NarutoUpdate[0])
    ensures FieldToken(Naruto[1], Update) == Success(NarutoUpdate[1])
    ensures FieldToken(Naruto[2], Update) == Success(NarutoUpdate[2])
    ensures FieldToken(Naruto[3], Update) == Success(NarutoUpdate[3])
    ensures FieldToken(Naruto[4], Update) == Success(NarutoUpdate[4])
  {
    assert 90.6.Floor == 90;
  }

  lemma NarutoUpdateTokens()
    ensures MakeFieldTypes(Naruto, Update) == Success(NarutoUpdate)
  {
    var n, c := Naruto, NarutoUpdate;
    NarutoUpdateFieldTokens();
    assert MakeFieldTypes([], Update) == Success([]);
    UnrollCons(n[4], [], Update, c[4], []);
    assert [n[4]] + [] == [n[4]] && [c[4]] + [] == [c[4]];
    UnrollCons(n[3], [n[4]], Update, c[3], [c[4]]);
    UnrollCons(n[2], [n[3]] + [n[4]], Update, c[2], [c[3]] + [c[4]]);
    UnrollCons(n[1], [n[2]] + ([n[3]] + [n[4]]), Update, c[1], [c[2]] + ([c[3]] + [c[4]]));
    UnrollCons(n[0], [n[1]] + ([n[2]] + ([n[3]] + [n[4]])), Update, c[0], [c[1]] + ([c[2]] + ([c[3]] + [c[4]])));
    assert [n[0]] + ([n[1]] + ([n[2]] + ([n[3]] + [n[4]]))) == n;
    assert [c[0]] + ([c[1]] + ([c[2]] + ([c[3]] + [c[4]]))) == c;
  }

  /** One step of `RenderFieldTypes` on a suffix of a token list. */
  lemma RenderStep(ts: seq<Token>, i: nat)
    requires i + 1 < |ts|
    ensures RenderFieldTypes(ts[i..]) == RenderToken(ts[i]) + ", " + RenderFieldTypes(ts[i + 1..])
  {
    assert ts[i..][1..] == ts[i + 1..];
  }

  /** The signature of five tokens, unrolled. */
  lemma RenderFive(c: seq<Token>)
    requires |c| == 5
    ensures RenderFieldTypes(c) == RenderToken(c[0]) + ", " + (RenderToken(c[1]) + ", " +
      (RenderToken(c[2]) + ", " + (RenderToken(c[3]) + ", " + RenderToken(c[4]))))
  {
    assert c[4..] == [c[4]];
    RenderStep(c, 3);
    RenderStep(c, 2);
    RenderStep(c, 1);
    RenderStep(c, 0);
    assert c[0..] == c;
  }

  /** The signature of five tokens with known renderings, as the two
      leading pieces and the last token. */
  lemma RenderFiveAs(c: seq<Token>, t0: string, t1: string, t2: string, t3: string, t4: string,
                     p0: string, p1: string)
    requires |c| == 5
    requires RenderToken(c[0]) == t0 && RenderToken(c[1]) == t1 && RenderToken(c[2]) == t2
    requires RenderToken(c[3]) == t3 && RenderToken(c[4]) == t4
    requires p0 == t0 + ", " + t1 + ", " && p1 == t2 + ", " + t3 + ", "
    ensures RenderFieldTypes(c) == p0 + p1 + t4
  {
    RenderFive(c);
    JoinFive(t0, t1, t2, t3, t4, p0, p1);
  }

  /** Regrouping five rendered tokens into two leading pieces and the last. */
  lemma JoinFive(t0: string, t1: string, t2: string, t3: string, t4: string, p0: string, p1: string)
    requires p0 == t0 + ", " + t1 + ", " && p1 == t2 + ", " + t3 + ", "
    ensures t0 + ", " + (t1 + ", " + (t2 + ", " + (t3 + ", " + t4))) == p0 + p1 + t4
  {
  }

  lemma NarutoCreateRenderingsHead()
    ensures RenderToken(NarutoCreate[0]) == "id: Int"
    ensures RenderToken(NarutoCreate[1]) == "title: String!"
    ensures RenderToken(NarutoCreate[2]) == "rating: Float!"
  {
  }

  lemma NarutoCreateRenderingsTail()
    ensures RenderToken(NarutoCreate[3]) == "episodes: Int!"
    ensures RenderToken(NarutoCreate[4]) == "manga: Boolean!"
  {
  }

  lemma NarutoCreatePieces()
    ensures "id: Int, title: String!, " == "id: Int" + ", " + "title: String!" + ", "
    ensures "rating: Float!, episodes: Int!, " == "rating: Float!" + ", " + "episodes: Int!" + ", "
  {
  }

  /** The create signature the test expects for the first sample record,
      its literal cut in two places to keep each comparison short. */
  lemma RenderNarutoCreate()
    ensures RenderFieldTypes(NarutoCreate) ==
      "id: Int, title: String!, " + "rating: Float!, episodes: Int!, " + "manga: Boolean!"
  {
    NarutoCreateRenderingsHead();
    NarutoCreateRenderingsTail();
    NarutoCreatePieces();
    RenderFiveAs(NarutoCreate, "id: Int", "title: String!", "rating: Float!", "episodes: Int!", "manga: Boolean!",
      "id: Int, title: String!, ", "rating: Float!, episodes: Int!, ");
  }

  lemma NarutoUpdateRenderingsHead()
    ensures RenderToken(NarutoUpdate[0]) == "id: Int!"
    ensures RenderToken(NarutoUpdate[1]) == "title: String"
    ensures RenderToken(NarutoUpdate[2]) == "rating: Float"
  {
  }

  lemma NarutoUpdateRenderingsTail()
    ensures RenderToken(NarutoUpdate[3]) == "episodes: Int"
    ensures RenderToken(NarutoUpdate[4]) == "manga: Boolean"
  {
  }

  lemma NarutoUpdatePieces()
    ensures "id: Int!, title: String, " == "id: Int!" + ", " + "title: String" + ", "
    ensures "rating: Float, episodes: Int, " == "rating: Float" + ", " + "episodes: Int" + ", "
  {
  }

  /** The update signature the test expects for the first sample record. */
  lemma RenderNarutoUpdate()
    ensures RenderFieldTypes(NarutoUpdate) ==
      "id: Int!, title: String, " + "rating: Float, episodes: Int, " + "manga: Boolean"
  {
    NarutoUpdateRenderingsHead();
    NarutoUpdateRenderingsTail();
    NarutoUpdatePieces();
    RenderFiveAs(NarutoUpdate, "id: Int!", "title: String", "rating: Float", "episodes: Int", "manga: Boolean",
      "id: Int!, title: String, ", "rating: Float, episodes: Int, ");
  }

  /** The expected signature strings of the first sample record. */
  lemma NarutoFieldTypes()
    ensures RenderFieldTypes(MakeFieldTypes(Naruto, Create).value) ==
      "id: Int, title: String!, " + "rating: Float!, episodes: Int!, " + "manga: Boolean!"
    ensures RenderFieldTypes(MakeFieldTypes(Naruto, Update).value) ==
      "id: Int!, title: String, " + "rating: Float, episodes: Int, " + "manga: Boolean"
  {
    NarutoCreateTokens();
    NarutoUpdateTokens();
    RenderNarutoCreate();
    RenderNarutoUpdate();
  }

  const BerserkCreate: seq<Token> := [Field("id", IntType, false), Field("name", StringType, true)]

  const BerserkUpdate: seq<Token> := [Field("id", IntType, true), Field("name", StringType, false)]

  lemma BerserkTokens()
    ensures MakeFieldTypes(Berserk, Create) == Success(BerserkCreate)
    ensures MakeFieldTypes(Berserk, Update) == Success(BerserkUpdate)
  {
    var b, c, u := Berserk, BerserkCreate, BerserkUpdate;
    assert MakeFieldTypes([], Create) == Success([]) && MakeFieldTypes([], Update) == Success([]);
    UnrollCons(b[1], [], Create, c[1], []);
    UnrollCons(b[1], [], Update, u[1], []);
    assert [b[1]] + [] == [b[1]] && [c[1]] + [] == [c[1]] && [u[1]] + [] == [u[1]];
    assert FieldToken(b[0], Create) == Success(c[0]);
    assert FieldToken(b[0], Update) == Success(u[0]);
    UnrollCons(b[0], [b[1]], Create, c[0], [c[1]]);
    UnrollCons(b[0], [b[1]], Update, u[0], [u[1]]);
    assert [b[0]] + [b[1]] == b && [c[0]] + [c[1]] == c && [u[0]] + [u[1]] == u;
  }

  lemma RenderBerserkCreate()
    ensures RenderFieldTypes(BerserkCreate) == "id: Int, name: String!"
  {
    var c := BerserkCreate;
    assert c[1..] == [Field("name", StringType, true)];
    assert RenderToken(c[0]) == "id: Int";
  }

  lemma RenderBerserkUpdate()
    ensures RenderFieldTypes(BerserkUpdate) == "id: Int!, name: String"
  {
    var u := BerserkUpdate;
    assert u[1..] == [Field("name", StringType, false)];
    assert RenderToken(u[0]) == "id: Int!";
  }

  /** The expected signature strings of the second sample record. */
  lemma BerserkFieldTypes()
    ensures RenderFieldTypes(MakeFieldTypes(Berserk, Create).value) == "id: Int, name: String!"
    ensures RenderFieldTypes(MakeFieldTypes(Berserk, Update).value) == "id: Int!, name: String"
  {
    BerserkTokens();
    RenderBerserkCreate();
    RenderBerserkUpdate();
  }

  /** The seed-validation cases of the tests. */
  lemma SeedValidationCases()
    ensures !ValidateSeeds([[("qty", Num(7.0)), ("label", Str("Sold"))]])
    ensures !ValidateSeeds([[]])
    ensures !ValidateSeeds([])
    ensures ValidateSeeds([[("id", Num(199.0)), ("qty", Num(7.0)), ("label", Str("Sold"))]])
  {
  }

  /** Stand-in inflection for the collections of the tests. */
  const TestInflector: Inflector := Inflector(
    n => if n == "users" then "User" else if n == "roles" then "Role" else if n == "todos" then "Todo" else n,
    t => t + "s")

  /** The resolver table of the `todos` store has exactly the keys the test
      expects. */
  lemma TodoResolverKeys()
    ensures KeySet(BuildTable(["todos"], TestInflector).query) == {"allTodos", "Todo"}
    ensures KeySet(BuildTable(["todos"], TestInflector).mutation) == {"createTodo", "updateTodo", "deleteTodo"}
  {
    var names := ["todos"];
    assert TestInflector.typeName("todos") == "Todo";
    assert TestInflector.plural("Todo") == "Todos";
    var q := QueryEntries(names, TestInflector);
    assert q[0].0 == "allTodos" && q[1].0 == "Todo";
    assert KeySet(q) == {"allTodos", "Todo"};
    var m := MutationEntries(names, TestInflector);
    assert m[0].0 == "createTodo" && m[1].0 == "updateTodo" && m[2].0 == "deleteTodo";
    assert KeySet(m) == {"createTodo", "updateTodo", "deleteTodo"};
    assert UniqueKeys(q) && UniqueKeys(m);
    var t := BuildTable(names, TestInflector);
    assert t.query == q && t.mutation == m;
  }

  /** The store of the resolver test: one `todos` record. */
  const Todos: Store := [("todos", [[("id", Num(1.0)), ("text", Str("Get some sleep")), ("completed", Bool(false))]])]

  /** `makeResolvers` on a one-collection store whose record passes
      validation and typing is the table of that collection's name. */
  lemma ResolversOfOne(store: Store, inf: Inflector)
    requires |store| == 1 && ValidateSeeds(store[0].1) && AllTyped(store[0].1[0])
    ensures MakeResolvers(store, inf).Success?
    ensures MakeResolvers(store, inf).value == BuildTable([store[0].0], inf)
  {
    assert Keys(store) == [store[0].0];
  }

  /** The resolver test: `makeResolvers` accepts the `todos` store and binds
      exactly the five resolvers of `Todo`. */
  lemma TodoResolvers()
    ensures MakeResolvers(Todos, TestInflector).Success?
    ensures KeySet(MakeResolvers(Todos, TestInflector).value.query) == {"allTodos", "Todo"}
    ensures KeySet(MakeResolvers(Todos, TestInflector).value.mutation) == {"createTodo", "updateTodo", "deleteTodo"}
  {
    var rows := Todos[0].1;
    assert Todos[0].0 == "todos";
    assert Id(rows[0]) == Some(Num(1.0));
    assert ValidateSeeds(rows);
    assert TypeOf(rows[0][2].1) == Some(BooleanType);
    assert AllTyped(rows[0]);
    ResolversOfOne(Todos, TestInflector);
    TodoResolverKeys();
  }

  /** The `users` collection of the schema test. */
  const Users: seq<Record> := [[("id", Num(1.0)), ("email", Str("test@mail.com")), ("password", Str("secretcat"))]]

  /** The `roles` collection of the schema test. */
  const Roles: seq<Record> := [[("id", Num(1.0)), ("title", Str("admin"))]]

  /** The `users`/`roles` store of the schema test. */
  const UsersAndRoles: Store := [("users", Users), ("roles", Roles)]

  lemma UsersAndRolesValid()
    ensures ValidateSeeds(Users) && AllTyped(Users[0])
    ensures ValidateSeeds(Roles) && AllTyped(Roles[0])
  {
    assert Id(Users[0]) == Some(Num(1.0));
    assert Id(Roles[0]) == Some(Num(1.0));
  }

  lemma TestInflectorNames()
    ensures TestInflector.typeName("users") == "User" && TestInflector.plural("User") == "Users"
    ensures TestInflector.typeName("roles") == "Role" && TestInflector.plural("Role") == "Roles"
  {
  }

  lemma UsersAndRolesTypeDefs()
    ensures MakeTypeDefs(UsersAndRoles, TestInflector).Success?
  {
    UsersAndRolesValid();
    var store := UsersAndRoles;
    assert |store| == 2 && store[0] == ("users", Users) && store[1] == ("roles", Roles);
    forall i | 0 <= i < |store|
      ensures ValidateSeeds(store[i].1) && AllTyped(store[i].1[0])
    {
      if i == 0 { } else { assert i == 1; }
    }
  }

  /** The query fields of a two-collection store, one per collection. */
  lemma TwoCollectionQuery(store: Store, inf: Inflector)
    requires |store| == 2 && MakeTypeDefs(store, inf).Success?
    ensures MakeTypeDefs(store, inf).value.query ==
      [ QueryFields("all" + inf.plural(inf.typeName(store[0].0)), inf.typeName(store[0].0)),
        QueryFields("all" + inf.plural(inf.typeName(store[1].0)), inf.typeName(store[1].0))]
  {
  }

  lemma UsersAndRolesQueryFields()
    ensures MakeTypeDefs(UsersAndRoles, TestInflector).Success?
    ensures MakeTypeDefs(UsersAndRoles, TestInflector).value.query ==
      [QueryFields("allUsers", "User"), QueryFields("allRoles", "Role")]
  {
    UsersAndRolesTypeDefs();
    TestInflectorNames();
    var inf := TestInflector;
    TwoCollectionQuery(UsersAndRoles, inf);
    var u := UsersAndRoles[0].0;
    var o := UsersAndRoles[1].0;
    assert u == "users" && o == "roles";
    assert "all" + inf.plural(inf.typeName(u)) == "allUsers" by { assert "all" + "Users" == "allUsers"; }
    assert "all" + inf.plural(inf.typeName(o)) == "allRoles" by { assert "all" + "Roles" == "allRoles"; }
  }

  lemma QueryBlock(l: string, t: string)
    ensures QueryLines([QueryFields(l, t)]) == [l + ": [" + t + "]!", t + "(id: Int): " + t]
  {
    assert [QueryFields(l, t)][1..] == [];
  }

  lemma QueryLinesOfTest()
    ensures QueryLines([QueryFields("allUsers", "User"), QueryFields("allRoles", "Role")]) ==
      ["allUsers: [User]!", "User(id: Int): User", "allRoles: [Role]!", "Role(id: Int): Role"]
  {
    var q := [QueryFields("allUsers", "User"), QueryFields("allRoles", "Role")];
    assert q[1..] == [QueryFields("allRoles", "Role")];
    QueryBlock("allRoles", "Role");
    assert "allUsers" + ": [" + "User" + "]!" == "allUsers: [User]!";
    assert "User" + "(id: Int): " + "User" == "User(id: Int): User";
    assert "allRoles" + ": [" + "Role" + "]!" == "allRoles: [Role]!";
    assert "Role" + "(id: Int): " + "Role" == "Role(id: Int): Role";
  }

  /** The `Query` block of the schema test, with `(id: Int)` as the code
      writes it. */
  lemma UsersAndRolesQuery()
    ensures MakeTypeDefs(UsersAndRoles, TestInflector).Success?
    ensures QueryLines(MakeTypeDefs(UsersAndRoles, TestInflector).value.query) ==
      ["allUsers: [User]!", "User(id: Int): User", "allRoles: [Role]!", "Role(id: Int): Role"]
  {
    UsersAndRolesQueryFields();
    QueryLinesOfTest();
  }

  const UsersCreate: seq<Token> := [
    Field("id", IntType, false), Field("email", StringType, true), Field("password", StringType, true)]

  const UsersUpdate: seq<Token> := [
    Field("id", IntType, true), Field("email", StringType, false), Field("password", StringType, false)]

  const RolesCreate: seq<Token> := [Field("id", IntType, false), Field("title", StringType, true)]

  const RolesUpdate: seq<Token> := [Field("id", IntType, true), Field("title", StringType, false)]

  lemma UsersTokens()
    ensures MakeFieldTypes(Users[0], Create) == Success(UsersCreate)
    ensures MakeFieldTypes(Users[0], Update) == Success(UsersUpdate)
  {
    var r, c, u := Users[0], UsersCreate, UsersUpdate;
    assert MakeFieldTypes([], Create) == Success([]) && MakeFieldTypes([], Update) == Success([]);
    UnrollCons(r[2], [], Create, c[2], []);
    UnrollCons(r[2], [], Update, u[2], []);
    assert [r[2]] + [] == [r[2]] && [c[2]] + [] == [c[2]] && [u[2]] + [] == [u[2]];
    UnrollCons(r[1], [r[2]], Create, c[1], [c[2]]);
    UnrollCons(r[1], [r[2]], Update, u[1], [u[2]]);
    assert FieldToken(r[0], Create) == Success(c[0]);
    assert FieldToken(r[0], Update) == Success(u[0]);
    UnrollCons(r[0], [r[1]] + [r[2]], Create, c[0], [c[1]] + [c[2]]);
    UnrollCons(r[0], [r[1]] + [r[2]], Update, u[0], [u[1]] + [u[2]]);
    assert [r[0]] + ([r[1]] + [r[2]]) == r;
    assert [c[0]] + ([c[1]] + [c[2]]) == c && [u[0]] + ([u[1]] + [u[2]]) == u;
  }

  lemma RolesTokens()
    ensures MakeFieldTypes(Roles[0], Create) == Success(RolesCreate)
    ensures MakeFieldTypes(Roles[0], Update) == Success(RolesUpdate)
  {
    var r, c, u := Roles[0], RolesCreate, RolesUpdate;
    assert MakeFieldTypes([], Create) == Success([]) && MakeFieldTypes([], Update) == Success([]);
    UnrollCons(r[1], [], Create, c[1], []);
    UnrollCons(r[1], [], Update, u[1], []);
    assert [r[1]] + [] == [r[1]] && [c[1]] + [] == [c[1]] && [u[1]] + [] == [u[1]];
    assert FieldToken(r[0], Create) == Success(c[0]);
    assert FieldToken(r[0], Update) == Success(u[0]);
    UnrollCons(r[0], [r[1]], Create, c[0], [c[1]]);
    UnrollCons(r[0], [r[1]], Update, u[0], [u[1]]);
    assert [r[0]] + [r[1]] == r && [c[0]] + [c[1]] == c && [u[0]] + [u[1]] == u;
  }

  /** The mutation and object-type blocks of a two-collection store. */
  lemma TwoCollectionBlocks(store: Store, inf: Inflector)
    requires |store| == 2 && MakeTypeDefs(store, inf).Success?
    ensures MakeTypeDefs(store, inf).value.mutation ==
      [ MutationFields(inf.typeName(store[0].0),
          MakeFieldTypes(store[0].1[0], Create).value, MakeFieldTypes(store[0].1[0], Update).value),
        MutationFields(inf.typeName(store[1].0),
          MakeFieldTypes(store[1].1[0], Create).value, MakeFieldTypes(store[1].1[0], Update).value)]
    ensures MakeTypeDefs(store, inf).value.types ==
      [ ObjectType(inf.typeName(store[0].0), MakeFieldTypes(store[0].1[0], Create).value),
        ObjectType(inf.typeName(store[1].0), MakeFieldTypes(store[1].1[0], Create).value)]
  {
  }

  lemma UsersAndRolesBlocks()
    ensures MakeTypeDefs(UsersAndRoles, TestInflector).Success?
    ensures MakeTypeDefs(UsersAndRoles, TestInflector).value.mutation ==
      [MutationFields("User", UsersCreate, UsersUpdate), MutationFields("Role", RolesCreate, RolesUpdate)]
    ensures MakeTypeDefs(UsersAndRoles, TestInflector).value.types ==
      [ObjectType("User", UsersCreate), ObjectType("Role", RolesCreate)]
  {
    UsersAndRolesTypeDefs();
    TestInflectorNames();
    UsersTokens();
    RolesTokens();
    TwoCollectionBlocks(UsersAndRoles, TestInflector);
    assert UsersAndRoles[0] == ("users", Users) && UsersAndRoles[1] == ("roles", Roles);
  }

  /** The signature of three tokens with known renderings, as a leading
      piece and the last token. */
  lemma RenderThreeAs(c: seq<Token>, t0: string, t1: string, t2: string, p0: string)
    requires |c| == 3
    requires RenderToken(c[0]) == t0 && RenderToken(c[1]) == t1 && RenderToken(c[2]) == t2
    requires p0 == t0 + ", " + t1 + ", "
    ensures RenderFieldTypes(c) == p0 + t2
  {
    RenderThree(c);
    JoinThree(t0, t1, t2, p0);
  }

  /** The signature of three tokens, unrolled. */
  lemma RenderThree(c: seq<Token>)
    requires |c| == 3
    ensures RenderFieldTypes(c) == RenderToken(c[0]) + ", " + (RenderToken(c[1]) + ", " + RenderToken(c[2]))
  {
    assert c[2..] == [c[2]];
    RenderStep(c, 1);
    RenderStep(c, 0);
    assert c[0..] == c;
  }

  /** Regrouping three rendered tokens into a leading piece and the last. */
  lemma JoinThree(t0: string, t1: string, t2: string, p0: string)
    requires p0 == t0 + ", " + t1 + ", "
    ensures t0 + ", " + (t1 + ", " + t2) == p0 + t2
  {
  }

  lemma UsersCreateRenderings()
    ensures RenderToken(UsersCreate[0]) == "id: Int" && RenderToken(UsersCreate[1]) == "email: String!"
    ensures RenderToken(UsersCreate[2]) == "password: String!"
  {
  }

  lemma UsersUpdateRenderings()
    ensures RenderToken(UsersUpdate[0]) == "id: Int!" && RenderToken(UsersUpdate[1]) == "email: String"
    ensures RenderToken(UsersUpdate[2]) == "password: String"
  {
  }

  /** The create argument list of `users`. */
  lemma RenderUsersCreate()
    ensures RenderFieldTypes(UsersCreate) == "id: Int, email: String!, " + "password: String!"
  {
    UsersCreateRenderings();
    RenderThreeAs(UsersCreate, "id: Int", "email: String!", "password: String!", "id: Int, email: String!, ");
  }

  /** The update argument list of `users`. */
  lemma RenderUsersUpdate()
    ensures RenderFieldTypes(UsersUpdate) == "id: Int!, email: String, " + "password: String"
  {
    UsersUpdateRenderings();
    RenderThreeAs(UsersUpdate, "id: Int!", "email: String", "password: String", "id: Int!, email: String, ");
  }

  lemma RenderRolesCreate()
    ensures RenderFieldTypes(RolesCreate) == "id: Int, title: String!"
  {
    assert RolesCreate[1..] == [RolesCreate[1]];
    assert RenderToken(RolesCreate[0]) == "id: Int";
  }

  lemma RenderRolesUpdate()
    ensures RenderFieldTypes(RolesUpdate) == "id: Int!, title: String"
  {
    assert RolesUpdate[1..] == [RolesUpdate[1]];
    assert RenderToken(RolesUpdate[0]) == "id: Int!";
  }

  /** `create${type}(${createFieldTypes}): ${type}!` regrouped around its
      argument list. */
  lemma CreateLine(t: string, args: string, pre: string, post: string)
    requires pre == "create" + t + "(" && post == "): " + t + "!"
    ensures "create" + t + "(" + args + "): " + t + "!" == pre + args + post
  {
  }

  /** `update${type}(${updateFieldTypes}): ${type}` regrouped likewise. */
  lemma UpdateLine(t: string, args: string, pre: string, post: string)
    requires pre == "update" + t + "(" && post == "): " + t
    ensures "update" + t + "(" + args + "): " + t == pre + args + post
  {
  }

  lemma UserCreateLine()
    ensures "create" + "User" + "(" + RenderFieldTypes(UsersCreate) + "): " + "User" + "!"
      == "createUser(" + ("id: Int, email: String!, " + "password: String!") + "): User!"
  {
    RenderUsersCreate();
    CreateLine("User", "id: Int, email: String!, " + "password: String!", "createUser(", "): User!");
  }

  lemma UserUpdateLine()
    ensures "update" + "User" + "(" + RenderFieldTypes(UsersUpdate) + "): " + "User"
      == "updateUser(" + ("id: Int!, email: String, " + "password: String") + "): User"
  {
    RenderUsersUpdate();
    UpdateLine("User", "id: Int!, email: String, " + "password: String", "updateUser(", "): User");
  }

  lemma RoleMutationLines()
    ensures "create" + "Role" + "(" + RenderFieldTypes(RolesCreate) + "): " + "Role" + "!"
      == "createRole(" + "id: Int, title: String!" + "): Role!"
    ensures "update" + "Role" + "(" + RenderFieldTypes(RolesUpdate) + "): " + "Role"
      == "updateRole(" + "id: Int!, title: String" + "): Role"
    ensures "delete" + "Role" + "(id: Int): Boolean!" == "deleteRole(id: Int): Boolean!"
  {
    RenderRolesCreate();
    RenderRolesUpdate();
    CreateLine("Role", "id: Int, title: String!", "createRole(", "): Role!");
    UpdateLine("Role", "id: Int!, title: String", "updateRole(", "): Role");
  }

  /** The mutation lines of two collections, given each line. */
  lemma MutationLinesOfTwo(m0: MutationFields, m1: MutationFields,
                           c0: string, u0: string, d0: string, c1: string, u1: string, d1: string)
    requires c0 == "create" + m0.typeName + "(" + RenderFieldTypes(m0.createArgs) + "): " + m0.typeName + "!"
    requires u0 == "update" + m0.typeName + "(" + RenderFieldTypes(m0.updateArgs) + "): " + m0.typeName
    requires d0 == "delete" + m0.typeName + "(id: Int): Boolean!"
    requires c1 == "create" + m1.typeName + "(" + RenderFieldTypes(m1.createArgs) + "): " + m1.typeName + "!"
    requires u1 == "update" + m1.typeName + "(" + RenderFieldTypes(m1.updateArgs) + "): " + m1.typeName
    requires d1 == "delete" + m1.typeName + "(id: Int): Boolean!"
    ensures MutationLines([m0, m1]) == [c0, u0, d0, c1, u1, d1]
  {
    var r := MutationLines([m0, m1]);
    assert r[0] == c0 && r[1] == u0 && r[2] == d0;
    assert r[3] == c1 && r[4] == u1 && r[5] == d1;
  }

  /** The `Mutation` block the schema test expects, each signature written
      apart from the name around it. */
  lemma UsersAndRolesMutation()
    ensures MakeTypeDefs(UsersAndRoles, TestInflector).Success?
    ensures MutationLines(MakeTypeDefs(UsersAndRoles, TestInflector).value.mutation) ==
      [ "createUser(" + ("id: Int, email: String!, " + "password: String!") + "): User!",
        "updateUser(" + ("id: Int!, email: String, " + "password: String") + "): User",
        "deleteUser(id: Int): Boolean!",
        "createRole(" + "id: Int, title: String!" + "): Role!",
        "updateRole(" + "id: Int!, title: String" + "): Role",
        "deleteRole(id: Int): Boolean!"]
  {
    UsersAndRolesBlocks();
    UsersAndRolesMutationFields();
  }

  /** The mutation lines of the `User` and `Role` descriptors. */
  lemma UsersAndRolesMutationFields()
    ensures MutationLines([MutationFields("User", UsersCreate, UsersUpdate), MutationFields("Role", RolesCreate, RolesUpdate)]) ==
      [ "createUser(" + ("id: Int, email: String!, " + "password: String!") + "): User!",
        "updateUser(" + ("id: Int!, email: String, " + "password: String") + "): User",
        "deleteUser(id: Int): Boolean!",
        "createRole(" + "id: Int, title: String!" + "): Role!",
        "updateRole(" + "id: Int!, title: String" + "): Role",
        "deleteRole(id: Int): Boolean!"]
  {
    UserCreateLine();
    UserUpdateLine();
    RoleMutationLines();
    assert "delete" + "User" + "(id: Int): Boolean!" == "deleteUser(id: Int): Boolean!";
    MutationLinesOfTwo(MutationFields("User", UsersCreate, UsersUpdate), MutationFields("Role", RolesCreate, RolesUpdate),
      "createUser(" + ("id: Int, email: String!, " + "password: String!") + "): User!",
      "updateUser(" + ("id: Int!, email: String, " + "password: String") + "): User",
      "deleteUser(id: Int): Boolean!",
      "createRole(" + "id: Int, title: String!" + "): Role!",
      "updateRole(" + "id: Int!, title: String" + "): Role",
      "deleteRole(id: Int): Boolean!");
  }

  /** The object-type lines of a list of types, first type apart. */
  lemma TypeLinesCons(o: ObjectType, rest: seq<ObjectType>)
    ensures TypeLines([o] + rest) == TypeBlock(o) + TypeLines(rest)
  {
    assert ([o] + rest)[1..] == rest;
  }

  /** The block of a type whose header and field lines are known. */
  lemma BlockLines(o: ObjectType, header: string, lines: seq<string>)
    requires header == "type " + o.name + " {"
    requires |o.fields| == |lines|
    requires forall i :: 0 <= i < |lines| ==> RenderToken(o.fields[i]) == lines[i]
    ensures TypeBlock(o) == [header] + lines + ["}"]
  {
    var b := TypeBlock(o);
    assert b[1..|b| - 1] == lines;
  }

  lemma UserBlock()
    ensures TypeBlock(ObjectType("User", UsersCreate)) ==
      ["type User {"] + ["id: Int", "email: String!", "password: String!"] + ["}"]
  {
    UsersCreateRenderings();
    assert "type " + "User" + " {" == "type User {";
    BlockLines(ObjectType("User", UsersCreate), "type User {", ["id: Int", "email: String!", "password: String!"]);
  }

  lemma RoleBlock()
    ensures TypeBlock(ObjectType("Role", RolesCreate)) == ["type Role {"] + ["id: Int", "title: String!"] + ["}"]
  {
    assert RenderToken(RolesCreate[0]) == "id: Int" && RenderToken(RolesCreate[1]) == "title: String!";
    assert "type " + "Role" + " {" == "type Role {";
    BlockLines(ObjectType("Role", RolesCreate), "type Role {", ["id: Int", "title: String!"]);
  }

  /** The object types of two collections, block after block. */
  lemma TypeLinesOfTwo(o0: ObjectType, o1: ObjectType)
    ensures TypeLines([o0, o1]) == TypeBlock(o0) + TypeBlock(o1)
  {
    TypeLinesCons(o0, [o1]);
    TypeLinesCons(o1, []);
    assert [o0] + [o1] == [o0, o1] && [o1] + [] == [o1];
  }

  /** The object types the schema test expects, one line per field. */
  lemma UsersAndRolesTypes()
    ensures MakeTypeDefs(UsersAndRoles, TestInflector).Success?
    ensures TypeLines(MakeTypeDefs(UsersAndRoles, TestInflector).value.types) ==
      ["type User {", "id: Int", "email: String!", "password: String!", "}",
       "type Role {", "id: Int", "title: String!", "}"]
  {
    UsersAndRolesBlocks();
    TypeLinesOfTwo(ObjectType("User", UsersCreate), ObjectType("Role", RolesCreate));
    UserBlock();
    RoleBlock();
  }

  /** The whole schema text of the schema test, line by line. */
  lemma UsersAndRolesSchema()
    ensures MakeTypeDefs(UsersAndRoles, TestInflector).Success?
    ensures RenderTypeDefs(MakeTypeDefs(UsersAndRoles, TestInflector).value) ==
      ["type Query {"]
      + ["allUsers: [User]!", "User(id: Int): User", "allRoles: [Role]!", "Role(id: Int): Role"]
      + ["}", "type Mutation {"]
      + [ "createUser(" + ("id: Int, email: String!, " + "password: String!") + "): User!",
          "updateUser(" + ("id: Int!, email: String, " + "password: String") + "): User",
          "deleteUser(id: Int): Boolean!",
          "createRole(" + "id: Int, title: String!" + "): Role!",
          "updateRole(" + "id: Int!, title: String" + "): Role",
          "deleteRole(id: Int): Boolean!"]
      + ["}"]
      + ["type User {", "id: Int", "email: String!", "password: String!", "}",
         "type Role {", "id: Int", "title: String!", "}"]
  {
    UsersAndRolesQuery();
    UsersAndRolesMutation();
    UsersAndRolesTypes();
  }
}
