# graf-it `SchemaMaker` in Dafny

graf-it turns a JSON "database" into a GraphQL API. The top-level keys of the
JSON object name the collections, and each key holds an array of seed
records. `SchemaMaker` reads this object and produces two things:

- the GraphQL type definitions (`makeTypeDefs`):
  - a `Query` field listing each collection;
  - a `Query` field finding one record by id;
  - `create`, `update` and `delete` mutations;
  - one object type per collection, shaped like its first record.
- the resolver table (`makeResolvers`): five closures per collection that
  read and rewrite the in-memory database.

The model keeps the database as an ordered JavaScript object
(`JsObject.Object`). Keys are unique and kept in insertion order. Assigning
an existing key keeps its position; assigning a new key appends it. Object
spread `{ ...a, ...b }` is `JsObject.Spread`. Seed values are strings,
exact numbers, booleans, `null`, or a composite (array or object). JavaScript
truthiness is modelled on all of these values; `===` is modelled on the
scalars only, since every composite is one and the same value in the model
(see "## Left out"). A missing `id` compares equal to a missing `id`, as
`undefined === undefined` does.

Modules, following the structure of `lib/schema-maker.js`:

- `JsObject` — ordered objects: `Get`, `Put`, `PutAll`, `Spread`.
- `Values` — seed values, records, truthiness, errors.
- `Text` — `split` and `join` on strings.
- `FieldTypes` — `_makeFieldTypes`: one field token per key of a record,
  and its rendering as a GraphQL argument list.
- `Seeds` — `_validateSeeds` and `_generateId`.
- `Schema` — the per-collection descriptors that both generators compute, and
  `makeTypeDefs` as structured blocks plus their rendering as lines.
- `Resolvers` — the five resolvers as pure functions from a store to the store
  they leave behind and their answer, the resolver table of `makeResolvers`,
  and a sequence of calls served one after another.
- `ResolverProperties` — how the resolvers relate to each other and to the
  schema.
- `Examples` — the expectations of `lib/schema-maker.test.js`, stated on the
  model.

A thrown exception is a `Failure` with an `Error` value. Inflection
(`capitalize(singular(model))` and `plural`) is a parameter, `Inflector`.

Where the tests and the code disagree, the model follows the code:

- The single-record query is declared `<Type>(id: Int)`. The test for
  `makeTypeDefs` expects `<Type>(id: Int!)`. `Examples.UsersAndRolesQuery`
  states what the code produces.

`create<Type>` builds `{ id, ...args }`, so a caller-supplied `id` wins over
the generated one; `Resolvers.CreateRow` states this.

## Model

| member | source | states |
|---|---|---|
| JsObject.Get | lib/schema-maker.js:82 | a lookup finds a value exactly when the key is present, and the value is the one stored under that key |
| JsObject.Put | lib/schema-maker.js:22-25 | assignment makes the key read as the new value and leaves every other key as it was; an existing key keeps its place, a new key is appended |
| JsObject.PutAll | lib/schema-maker.js:77-126 | a run of assignments: the key set is the union, and each key reads as its last assigned value, or as before if never assigned; the original keys stay first, in order |
| JsObject.PutAllDistinct | lib/schema-maker.js:77-126 | assigning distinct keys into an empty object yields exactly those entries in order |
| JsObject.LastValueOfObject | lib/schema-maker.js:77-126 | in an object with unique keys, the last value assigned under a key is the value it holds |
| JsObject.Spread | lib/schema-maker.js:93 | `{ ...a, ...b }` holds the keys of both; a key of `b` reads as in `b`, any other as in `a`; the keys of `a` come first |
| FieldTypes.MakeFieldTypes | lib/schema-maker.js:141-160 | one token per field, in key order, with the same name: strings, whole numbers, fractional numbers and booleans give `String`, `Int`, `Float`, `Boolean`; `!` is added exactly for non-id fields in create mode and for the id in update mode; any other value gives an empty token, or fails on the first such field that must carry `!` |
| FieldTypes.TypeOf | lib/schema-maker.js:144-154 | the `typeof` switch: strings are `String`, numbers with no fractional part `Int`, other numbers `Float`, booleans `Boolean`, and every other value has no type |
| FieldTypes.FieldToken | lib/schema-maker.js:143-158 | one field's token fails exactly when its value has no type and the mode adds `!` to it, with the error naming the field; it is empty exactly when the value has no type; otherwise it carries the field name and type and is required exactly for non-id fields in create mode and for the id in update mode |
| FieldTypes.TypeNameInjective | lib/schema-maker.js:145-153 | the four type names of the templates are pairwise distinct and none ends in `!`, so the type can be read back from a token |
| FieldTypes.RenderTokenShape | lib/schema-maker.js:145-157 | a rendered token is `""` exactly for an untyped field; otherwise it reads back as the field name, `": "`, the type name, and a final `!` exactly when the field is required |
| FieldTypes.ModesShareFields | lib/schema-maker.js:141-160 | both modes succeed exactly when every field has a supported type; then they give the same names and types, and differ only in which fields are required: every non-id field in create mode, only the id in update mode |
| Values.Truthy | lib/schema-maker.js:174 | a value is truthy exactly when it is not missing, `null`, `false`, `0` or `""`, the falsy values of JavaScript |
| Seeds.IncrementId | lib/schema-maker.js:167 | `id + 1`: a string gets `"1"` appended, a number, boolean or `null` becomes its numeric value plus one, and a composite is not modelled |
| Seeds.ValidateSeeds | lib/schema-maker.js:173-175 | seeds are valid exactly when there is at least one record and every record has a truthy `id` |
| Seeds.ValidateSeedsRejects | lib/schema-maker.js:173-175 | an empty collection, a record without `id`, and a record whose id is `0`, `""`, `false` or `null` each make the seeds invalid |
| Seeds.GenerateId | lib/schema-maker.js:166-168 | an empty collection fails; otherwise an id is generated exactly when the last record has an id that is not a composite; a numeric last id `n` yields `n + 1`, a string id gets `"1"` appended, and `true`, `false` and `null` count as 1, 0 and 0 before the `+ 1` |
| Seeds.GeneratedIdIsFresh | lib/schema-maker.js:161-168 | with numeric ids ascending along the collection, the generated id is greater than, and different from, every existing id |
| Schema.Describe | lib/schema-maker.js:20-35 | invalid seeds fail with the given message; otherwise the collection is described exactly when its first record is fully typed, with the inflected type names and both field lists of the first record, none of them empty tokens |
| Schema.DescribeAll | lib/schema-maker.js:20-35 | the reduction succeeds exactly when every collection is described, pointwise and in order; a failure is the error of the first collection that fails |
| Schema.MakeTypeDefs | lib/schema-maker.js:19-56 | the schema exists exactly when every collection has valid seeds and a fully typed first record; it then has one query, mutation and object-type block per collection, in collection order, with the list field `all<Plural>`, the type name and the create and update argument lists of the first record; otherwise it fails with "Invalid seeds in JSON file." or an undefined field type |
| Schema.QueryLines | lib/schema-maker.js:37-42 | two lines per collection, in collection order: `all<Plural>: [<Type>]!` and `<Type>(id: Int): <Type>` |
| Schema.MutationLines | lib/schema-maker.js:43-49 | three lines per collection, in collection order: `create<Type>(<create arguments>): <Type>!`, `update<Type>(<update arguments>): <Type>` and `delete<Type>(id: Int): Boolean!` |
| Schema.TypeLines | lib/schema-maker.js:50-54 | each object type takes a block after the blocks before it: the header `type <Type> {`, one line per field token in order, and a closing brace |
| Schema.RenderTypeDefsQuery | lib/schema-maker.js:36-42 | the schema text opens with `type Query {`, then the query lines, then a closing brace |
| Schema.RenderTypeDefsMutation | lib/schema-maker.js:43-49 | the `type Mutation {` block follows, holding the mutation lines and closed by a brace |
| Schema.RenderTypeDefsTypes | lib/schema-maker.js:50-55 | the object-type lines close the schema text |
| Text.Split | lib/schema-maker.js:52 | `split` gives at least one piece, no piece holds the separator, and joining the pieces at the separator gives back the text |
| Text.SplitJoin | lib/schema-maker.js:52 | splitting undoes joining when no piece holds the separator |
| Schema.SignatureJoinsPieces | lib/schema-maker.js:159 | the rendered signature is its field pieces joined at commas: the first token, then each later token behind a space |
| Schema.ObjectTypeLinesSplitSignature | lib/schema-maker.js:52 | when no field name holds a comma, `split(',')` of the create signature gives one piece per field token, each the token as rendered (after the first, behind one space), so the object type lists exactly the fields |
| Schema.DescribeAllReadsFirstRecords | lib/schema-maker.js:30-33 | the descriptors depend only on the names, on which collections have valid seeds, and on the first record of each valid collection |
| Schema.TypeDefsReadFirstRecords | lib/schema-maker.js:30-33 | two stores that agree on names, on validity and on first records give the same schema |
| Resolvers.AllRows | lib/schema-maker.js:80-83 | `all<Plural>` answers the collection exactly as stored |
| Resolvers.FindById | lib/schema-maker.js:87 | `find` answers nothing exactly when no record has the id, and otherwise the first record with that id |
| Resolvers.RowById | lib/schema-maker.js:85-88 | `<Type>(id)` answers nothing exactly when no record carries the id, and otherwise the first record of the collection that carries it |
| Resolvers.CreateRow | lib/schema-maker.js:90-97 | `create<Type>` fails exactly when no id can be generated; otherwise it appends one record to its collection only, the record has `id` as its first key, the caller's `id` if given and else the generated one, and every other field comes from the arguments |
| Resolvers.LastMatch | lib/schema-maker.js:100-111 | the index of the last record whose id equals the argument id, or nothing exactly when no record matches |
| Resolvers.UpdateRows | lib/schema-maker.js:102-108 | the `map` keeps the length, leaves non-matching records as they were, merges the arguments into every matching record, and answers the merge of the last match |
| Resolvers.UpdateRow | lib/schema-maker.js:99-111 | `update<Type>` touches only its own collection; it answers nothing exactly when no record matches, and otherwise `{ ...row, ...args }` for the last matching row, in which the arguments win and other fields are kept |
| Resolvers.WithoutId | lib/schema-maker.js:116 | the filter keeps exactly the records whose id differs, and keeps the length exactly when none had the id |
| Resolvers.WithoutIdKeepsOrder | lib/schema-maker.js:116 | the filter works part by part, so the kept records stay in their original order |
| Resolvers.DeleteRow | lib/schema-maker.js:113-119 | `delete<Type>` removes every record with the id from its collection only, and answers true exactly when some record had that id |
| Resolvers.Invoke | lib/schema-maker.js:77-119 | a resolver call keeps every collection and changes no collection but its own; the two queries leave the store as it was; only `create<Type>` can fail, exactly when its id cannot be generated |
| Resolvers.Serve | lib/schema-maker.js:77-119 | a sequence of calls keeps every collection, so every bound resolver stays callable, and gives one answer per call |
| Resolvers.ServeOnlyCreateFails | lib/schema-maker.js:91-97 | in a run of calls, only a `create<Type>` call can answer with an error, because only `_generateId` can throw |
| Resolvers.ServeLeavesOthers | lib/schema-maker.js:77-119 | a collection that no call of the run names reads the same afterwards |
| Resolvers.ServeWithoutWrites | lib/schema-maker.js:77-119 | when no call of the run is a mutation that succeeded (queries and calls that threw), the store comes back unchanged |
| Resolvers.QueryEntries | lib/schema-maker.js:80-88 | the `Query` assignments in order: `all<Plural>` and then `<Type>` for each collection, bound to that collection |
| Resolvers.MutationEntries | lib/schema-maker.js:90-119 | the `Mutation` assignments in order: `create<Type>`, `update<Type>` and `delete<Type>` for each collection, bound to that collection |
| Resolvers.BuildTable | lib/schema-maker.js:77-127 | each resolver name holds the resolver assigned to it last; when the names do not clash, the table is exactly the assignments in order |
| Resolvers.MakeResolvers | lib/schema-maker.js:61-128 | the resolvers exist exactly when the schema does; otherwise it fails with "Seeds Error." or an undefined field type; on success the table is built from the collection names in order |
| ResolverProperties.QueryEntryKeys | lib/schema-maker.js:80-88 | the `Query` names are exactly `all<Plural>` and `<Type>` of the collections |
| ResolverProperties.MutationEntryKeys | lib/schema-maker.js:90-119 | the `Mutation` names are exactly `create<Type>`, `update<Type>` and `delete<Type>` of the collections |
| ResolverProperties.TableKeys | lib/schema-maker.js:77-127 | the resolver table defines exactly the generated names, in both `Query` and `Mutation` |
| ResolverProperties.SchemaFieldsHaveResolvers | lib/schema-maker.js:36-49 | every query and mutation field the schema declares has a resolver under that name |
| ResolverProperties.AppendGeneratedThenFind | lib/schema-maker.js:92-94 | appending a record with the generated id keeps ids ascending, and a lookup by that id finds the record |
| ResolverProperties.CreateThenFind | lib/schema-maker.js:90-97 | with ascending numeric ids and no caller id, a created record is found again by its id, the collection grows by one, and ids stay ascending |
| ResolverProperties.DeleteThenFind | lib/schema-maker.js:113-119 | after `delete<Type>(id)`, no record with that id is found |
| ResolverProperties.UpdateThenFind | lib/schema-maker.js:99-111 | after an update that matched, a lookup by the argument id finds a record carrying every argument field |
| Examples.GenerateIdSingleton | lib/schema-maker.test.js:13-18 | for a single record with id `n`, the next id is `n + 1` |
| Examples.NarutoFieldTypes | lib/schema-maker.test.js:24-49 | the create and update argument lists of the first test record are the strings the test expects, each written in three literal pieces |
| Examples.BerserkFieldTypes | lib/schema-maker.test.js:31-49 | the create and update argument lists of the second test record are the expected strings |
| Examples.SeedValidationCases | lib/schema-maker.test.js:55-79 | seeds without an id, with an empty record, or with no records are rejected; a record with id 199 is accepted |
| Examples.TodoResolvers | lib/schema-maker.test.js:139-165 | `makeResolvers` succeeds on the test's `todos` store, `Query` has exactly the keys `allTodos` and `Todo`, and `Mutation` has exactly `createTodo`, `updateTodo` and `deleteTodo` |
| Examples.UsersAndRolesQuery | lib/schema-maker.test.js:82-116 | the `users`/`roles` store yields a schema whose `Query` block has the expected fields, with `(id: Int)` as the code writes it |
| Examples.UsersAndRolesMutation | lib/schema-maker.test.js:117-124 | the `Mutation` block of that schema is the six lines the test expects |
| Examples.UsersAndRolesTypes | lib/schema-maker.test.js:125-133 | its object types are `User` with `id: Int`, `email: String!`, `password: String!` and `Role` with `id: Int`, `title: String!` |
| Examples.UsersAndRolesSchema | lib/schema-maker.test.js:110-135 | the whole schema text of that store, line by line, with spaces ignored as the test compares it |

## Left out

- `load` and `write`, the file I/O. The store is an argument, and each
  resolver returns the store `write` would serialise.
- `src/index.js`, the HTTP server that hosts the schema. It is not part of
  this model.
- Inflection (`capitalize`, `singular`, `plural` from lodash and
  pluralize). It is an uninterpreted `Inflector` parameter.
- Layout whitespace in the schema text. `Schema.RenderTypeDefs` gives the
  non-blank lines with their indentation removed, and drops the blank lines
  the template literals leave. Indentation and blank lines carry no meaning
  in GraphQL; the spaces and line breaks between tokens are kept. The test
  compares the text with all whitespace removed
  (lib/schema-maker.test.js:135).
- IEEE 754 numbers. Numbers are exact reals, so there is no rounding, `NaN` or
  `Infinity`. JavaScript `% 1 === 0` is "equals its floor".
- The key order of JavaScript objects. Integer-like keys are listed first by
  the engine; the model keeps plain insertion order for every key.
- A collection value that is not an array, and array elements that are not
  objects. Every collection is a sequence of records.
- The contents of arrays and objects inside records. `Composite` is a single
  value that stands for every array and every object, so `[1] === {a: 2}`
  holds in the model, and what a nested value held is lost, including from
  the records `all<Plural>` and `<Type>` answer.
- Seeds.GenerateId: a last record without `id`, or with a composite id, is a
  `Failure(UnmodelledId)`. JavaScript gives `NaN` or a string concatenation
  there.
- Schema.ObjectTypeLinesSplitSignature: a field name holding a comma is not
  covered. `split(',')` would then cut inside the field, and GraphQL rejects
  such a name anyway.
- GraphQL itself: argument coercion, the engine calling resolvers, and
  concurrency between requests. `Resolvers.Serve` runs calls one after
  another.
