/** Field-type inference: one sample record becomes a list of
    `name: Type[!]` tokens (`_makeFieldTypes` in lib/schema-maker.js). */
module FieldTypes {
  import opened Wrappers
  import opened Values

  /** The four scalar types the inferencer emits. */
  datatype GqlType = StringType | IntType | FloatType | BooleanType

  /** Which fields are non-nullable: all but `id` on create, only `id` on update. */
  datatype Mode = Create | Update

  /** One element of the signature. `Blank` is the `undefined` element that
      `join` renders as the empty string. */
  datatype Token = Field(name: string, ty: GqlType, required: bool) | Blank

  /** JavaScript's `n % 1 === 0`. */
  predicate IsWhole(n: real) {
    n.Floor as real == n
  }

  /** The `typeof` switch; `None` for null, arrays and objects. */
  function TypeOf(v: Value): (r: Option<GqlType>)
    ensures r.Some? <==> v.Str? || v.Num? || v.Bool?
    ensures r == Some(StringType) <==> v.Str?
    ensures r == Some(IntType) <==> v.Num? && IsWhole(v.n)
    ensures r == Some(FloatType) <==> v.Num? && !IsWhole(v.n)
    ensures r == Some(BooleanType) <==> v.Bool?
  {
    match v
    case Str(_) => Some(StringType)
    case Num(n) => if IsWhole(n) then Some(IntType) else Some(FloatType)
    case Bool(_) => Some(BooleanType)
    case Null => None
    case Composite => None
  }

  /** Whether the token for `field` gets the `!` suffix in `mode`. */
  predicate MarkedRequired(mode: Mode, field: string) {
    (mode == Create && field != IdField) || (mode == Update && field == IdField)
  }

  /** A field the inferencer can process without throwing: either its value
      has a type, or its token carries no `!` and is left undefined. */
  predicate Processable(field: (string, Value), mode: Mode) {
    TypeOf(field.1).Some? || !MarkedRequired(mode, field.0)
  }

  /** The token for one field, or the TypeError of `undefined.concat('!')`. */
  function FieldToken(field: (string, Value), mode: Mode): (r: Result<Token, Error>)
    ensures r.Failure? <==> !Processable(field, mode)
    ensures r.Failure? ==> r.error == UndefinedFieldType(field.0)
    ensures r.Success? ==> (r.value.Blank? <==> TypeOf(field.1).None?)
    ensures r.Success? && r.value.Field? ==>
      && r.value.name == field.0
      && Some(r.value.ty) == TypeOf(field.1)
      && (r.value.required <==> MarkedRequired(mode, field.0))
  {
    match TypeOf(field.1)
    case Some(t) => Success(Field(field.0, t, MarkedRequired(mode, field.0)))
    case None =>
      if MarkedRequired(mode, field.0) then Failure(UndefinedFieldType(field.0)) else Success(Blank)
  }

  /** The token list of `_makeFieldTypes(row, mode)`, one token per key in key
      order, or the error of the first field that throws. */
  function MakeFieldTypes(row: seq<(string, Value)>, mode: Mode): (r: Result<seq<Token>, Error>)
    ensures r.Success? <==> forall i :: 0 <= i < |row| ==> Processable(row[i], mode)
    ensures r.Success? ==> |r.value| == |row|
    ensures r.Success? ==> forall i :: 0 <= i < |row| ==>
      (r.value[i].Blank? <==> TypeOf(row[i].1).None?)
    ensures r.Success? ==> forall i :: 0 <= i < |row| && r.value[i].Field? ==>
      && r.value[i].name == row[i].0
      && Some(r.value[i].ty) == TypeOf(row[i].1)
      && (r.value[i].required <==> MarkedRequired(mode, row[i].0))
    ensures r.Failure? ==> exists i ::
      && 0 <= i < |row|
      && r.error == UndefinedFieldType(row[i].0)
      && !Processable(row[i], mode)
      && forall j :: 0 <= j < i ==> Processable(row[j], mode)
  {
    if |row| == 0 then Success([])
    else
      var t :- FieldToken(row[0], mode);
      var rest :- MakeFieldTypes(row[1..], mode);
      Success([t] + rest)
  }

  /** A record every value of which has one of the four scalar types. */
  predicate AllTyped(row: seq<(string, Value)>) {
    forall i :: 0 <= i < |row| ==> TypeOf(row[i].1).Some?
  }

  /** The two modes share one field list: both succeed exactly when every
      value is typed, and then they name the same fields with the same base
      types, differing only in which fields carry `!`. */
  lemma {:induction false} ModesShareFields(row: seq<(string, Value)>)
    ensures MakeFieldTypes(row, Create).Success? && MakeFieldTypes(row, Update).Success?
      <==> AllTyped(row)
    ensures AllTyped(row) ==>
      var c := MakeFieldTypes(row, Create).value;
      var u := MakeFieldTypes(row, Update).value;
      && |c| == |u| == |row|
      && forall i :: 0 <= i < |row| ==>
        && c[i].Field? && u[i].Field?
        && c[i].name == u[i].name == row[i].0
        && c[i].ty == u[i].ty
        && (c[i].required <==> row[i].0 != IdField)
        && (u[i].required <==> row[i].0 == IdField)
  {
    if !AllTyped(row) {
      var i :| 0 <= i < |row| && TypeOf(row[i].1).None?;
      if row[i].0 == IdField {
        assert !Processable(row[i], Update);
      } else {
        assert !Processable(row[i], Create);
      }
    }
  }

  /** The GraphQL name of a scalar type. */
  function TypeName(t: GqlType): string {
    match t
    case StringType => "String"
    case IntType => "Int"
    case FloatType => "Float"
    case BooleanType => "Boolean"
  }

  /** A token as text: `name: Type` plus `!` when required, `""` for `Blank`. */
  function RenderToken(t: Token): string {
    match t
    case Blank => ""
    case Field(name, ty, required) => name + ": " + TypeName(ty) + (if required then "!" else "")
  }

  /** Distinct scalar types have distinct GraphQL names, none ending in `!`. */
  lemma TypeNameInjective(a: GqlType, b: GqlType)
    ensures TypeName(a) == TypeName(b) <==> a == b
    ensures |TypeName(a)| > 0 && TypeName(a)[|TypeName(a)| - 1] != '!'
  {
  }

  /** A rendered token reads back: `""` exactly for `Blank`; otherwise the
      name, then `": "`, then the type's name, then `!` exactly when the
      field is required. */
  lemma RenderTokenShape(t: Token)
    ensures RenderToken(t) == "" <==> t.Blank?
    ensures t.Field? ==>
      var r := RenderToken(t);
      var n := |t.name|;
      var e := if t.required then |r| - 1 else |r|;
      && n + 2 < e <= |r|
      && r[..n] == t.name
      && r[n..n + 2] == ": "
      && r[n + 2..e] == TypeName(t.ty)
      && (r[|r| - 1] == '!' <==> t.required)
  {
  }

  /** The signature string `_makeFieldTypes` returns: the rendered tokens
      joined by ", " (`Array.prototype.join`). */
  function RenderFieldTypes(tokens: seq<Token>): string {
    if |tokens| == 0 then ""
    else if |tokens| == 1 then RenderToken(tokens[0])
    else RenderToken(tokens[0]) + ", " + RenderFieldTypes(tokens[1..])
  }
}
