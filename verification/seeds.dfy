/** Seed validation and id generation (`_validateSeeds` and `_generateId`
    in lib/schema-maker.js). */
module Seeds {
  import opened Wrappers
  import opened Values

  /** `rows.every(r => r.id)`, scanning from the front. */
  function EveryHasId(rows: seq<Record>): (ok: bool)
    ensures ok <==> forall i :: 0 <= i < |rows| ==> Truthy(Id(rows[i]))
  {
    if |rows| == 0 then true
    else Truthy(Id(rows[0])) && EveryHasId(rows[1..])
  }

  /** `_validateSeeds`: a usable collection is non-empty and every record in
      it has a truthy `id`. */
  function ValidateSeeds(rows: seq<Record>): (ok: bool)
    ensures ok <==> |rows| > 0 && forall r :: r in rows ==> Truthy(Id(r))
  {
    |rows| > 0 && EveryHasId(rows)
  }

  /** The rejections lib/schema-maker.test.js lists: an empty collection, a record
      without `id` (the empty record among them), and a falsy `id`. */
  lemma ValidateSeedsRejects(rows: seq<Record>, i: nat)
    requires i < |rows|
    ensures !ValidateSeeds([])
    ensures Id(rows[i]).None? ==> !ValidateSeeds(rows)
    ensures Id(rows[i]) in {Some(Num(0.0)), Some(Str("")), Some(Bool(false)), Some(Null)}
      ==> !ValidateSeeds(rows)
  {
  }

  /** ECMAScript's ToNumber on the values `+ 1` converts: numbers as they
      are, `true` as 1, `false` and `null` as 0. Strings are not converted,
      since `+` concatenates them. */
  function ToNumber(v: Value): Option<real> {
    match v
    case Num(n) => Some(n)
    case Bool(b) => Some(if b then 1.0 else 0.0)
    case Null => Some(0.0)
    case Str(_) => None
    case Composite => None
  }

  /** `last.id + 1` with JavaScript's `+`: numbers add, strings append "1",
      booleans and null convert to a number first. */
  function IncrementId(id: Value): (r: Result<Value, Error>)
    ensures r.Failure? <==> id.Composite?
    ensures id.Str? ==> r == Success(Str(id.s + "1"))
    ensures ToNumber(id).Some? ==> r == Success(Num(ToNumber(id).value + 1.0))
  {
    match id
    case Num(n) => Success(Num(n + 1.0))
    case Str(s) => Success(Str(s + "1"))
    case Bool(b) => Success(Num(if b then 2.0 else 1.0))
    case Null => Success(Num(1.0))
    case Composite => Failure(UnmodelledId)
  }

  /** `_generateId`: the last row's id plus one. Reading the last row of an
      empty collection throws; a missing id gives NaN, which is left out. */
  function GenerateId(rows: seq<Record>): (r: Result<Value, Error>)
    ensures |rows| == 0 ==> r == Failure(NoLastRow)
    ensures |rows| > 0 ==>
      (r.Success? <==> Id(rows[|rows| - 1]).Some? && !Id(rows[|rows| - 1]).value.Composite?)
    ensures |rows| > 0 && Id(rows[|rows| - 1]).Some? && Id(rows[|rows| - 1]).value.Num? ==>
      r == Success(Num(Id(rows[|rows| - 1]).value.n + 1.0))
    ensures |rows| > 0 && Id(rows[|rows| - 1]).Some? && Id(rows[|rows| - 1]).value.Str? ==>
      r == Success(Str(Id(rows[|rows| - 1]).value.s + "1"))
    ensures |rows| > 0 && Id(rows[|rows| - 1]).Some? && ToNumber(Id(rows[|rows| - 1]).value).Some? ==>
      r == Success(Num(ToNumber(Id(rows[|rows| - 1]).value).value + 1.0))
  {
    if |rows| == 0 then Failure(NoLastRow)
    else
      match Id(rows[|rows| - 1])
      case None => Failure(UnmodelledId)
      case Some(id) => IncrementId(id)
  }

  /** Every record has a numeric id and the ids strictly increase, the
      ordering `_generateId` relies on. */
  predicate AscendingIds(rows: seq<Record>) {
    && (forall i :: 0 <= i < |rows| ==> Id(rows[i]).Some? && Id(rows[i]).value.Num?)
    && (forall i, j :: 0 <= i < j < |rows| ==> Id(rows[i]).value.n < Id(rows[j]).value.n)
  }

  /** On a non-empty collection with ascending numeric ids the generated id
      is numeric, exceeds every id present, and so clashes with none. */
  lemma GeneratedIdIsFresh(rows: seq<Record>)
    requires |rows| > 0 && AscendingIds(rows)
    ensures GenerateId(rows).Success? && GenerateId(rows).value.Num?
    ensures forall i :: 0 <= i < |rows| ==>
      Id(rows[i]).value.n < GenerateId(rows).value.n && Id(rows[i]) != Some(GenerateId(rows).value)
  {
  }
}
