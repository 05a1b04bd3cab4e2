/** JSON values as the engine returns them and as the entity models validate and dump them. */
module JsonValues {
  import opened Wrappers

  datatype Json =
    | Null
    | Bool(b: bool)
    | Num(n: real)
    | Str(s: string)
    | Arr(items: seq<Json>)
    | Obj(fields: map<string, Json>)

  /** A raw engine document: the `_source` object of a stored document or of a hit. */
  type Doc = map<string, Json>

  /** A validation failure, reduced to the name of the field (or model) that failed. */
  datatype ValidationError = ValidationError(loc: string)

  /** Applies `f` to every element in order and stops at the first failure, as a list
      comprehension that constructs a model per element raises on the first bad one. */
  function EachOk<X, T>(xs: seq<X>, f: X -> Result<T, ValidationError>): (r: Result<seq<T>, ValidationError>)
    ensures r.Ok? <==> forall i :: 0 <= i < |xs| ==> f(xs[i]).Ok?
    ensures r.Ok? ==> |r.value| == |xs| && forall i :: 0 <= i < |xs| ==> f(xs[i]) == Ok(r.value[i])
    ensures r.Err? ==> exists i :: 0 <= i < |xs| && f(xs[i]) == Err(r.error) && FirstFailure(xs, f, i)
  {
    if xs == [] then Ok([])
    else
      match f(xs[0])
      case Err(e) => Err(e)
      case Ok(x) =>
        match EachOk(xs[1..], f)
        case Err(e) =>
          ghost var i :| 0 <= i < |xs[1..]| && f(xs[1..][i]) == Err(e) && FirstFailure(xs[1..], f, i);
          assert f(xs[i + 1]) == Err(e) && FirstFailure(xs, f, i + 1);
          Err(e)
        case Ok(rest) => Ok([x] + rest)
  }

  /** Every element before index `i` passes `f`. */
  ghost predicate FirstFailure<X, T>(xs: seq<X>, f: X -> Result<T, ValidationError>, i: int)
    requires 0 <= i < |xs|
  {
    forall j :: 0 <= j < i ==> f(xs[j]).Ok?
  }

  /** `EachOk` raises the error of the first failing element. */
  lemma {:induction false} EachOkFirstError<X, T>(xs: seq<X>, f: X -> Result<T, ValidationError>, i: nat)
    requires i < |xs| && f(xs[i]).Err?
    requires forall j :: 0 <= j < i ==> f(xs[j]).Ok?
    ensures EachOk(xs, f) == Err(f(xs[i]).error)
  {
    if i > 0 {
      EachOkFirstError(xs[1..], f, i - 1);
    }
  }

  /** When every element passes, `EachOk` returns exactly the converted elements. */
  lemma EachOkAllPass<X, T>(xs: seq<X>, f: X -> Result<T, ValidationError>, ys: seq<T>)
    requires |ys| == |xs|
    requires forall i :: 0 <= i < |xs| ==> f(xs[i]) == Ok(ys[i])
    ensures EachOk(xs, f) == Ok(ys)
  {
    var r := EachOk(xs, f);
    assert r.Ok?;
    assert forall i :: 0 <= i < |xs| ==> r.value[i] == ys[i];
    assert r.value == ys;
  }

  /** Serialises every element in order. */
  function DumpEach<T>(xs: seq<T>, dump: T -> Json): (r: seq<Json>)
    ensures |r| == |xs|
  {
    seq(|xs|, i requires 0 <= i < |xs| => dump(xs[i]))
  }

  /** Validating what was dumped gives back the list, whenever it does so element-wise. */
  lemma EachOkDumpEach<T>(xs: seq<T>, validate: Json -> Result<T, ValidationError>, dump: T -> Json)
    requires forall x :: validate(dump(x)) == Ok(x)
    ensures EachOk(DumpEach(xs, dump), validate) == Ok(xs)
  {
    EachOkAllPass(DumpEach(xs, dump), validate, xs);
  }

  /** A required field: a missing key is a validation error. */
  function Required(d: Doc, key: string): (r: Result<Json, ValidationError>)
  {
    if key in d then Ok(d[key]) else Err(ValidationError(key))
  }

  /** A value of type `str`. */
  function StrValue(j: Json, loc: string): Result<string, ValidationError>
  {
    if j.Str? then Ok(j.s) else Err(ValidationError(loc))
  }

  /** A required field of type `str`. */
  function StrField(d: Doc, key: string): Result<string, ValidationError>
  {
    var v :- Required(d, key);
    StrValue(v, key)
  }

  /** A required field of type `str | None` (no default: the key must be present). */
  function OptStrField(d: Doc, key: string): Result<Option<string>, ValidationError>
  {
    var v :- Required(d, key);
    if v.Null? then Ok(None) else if v.Str? then Ok(Some(v.s)) else Err(ValidationError(key))
  }

  /** A required field of type `float | None`; only JSON numbers are accepted. */
  function OptNumField(d: Doc, key: string): Result<Option<real>, ValidationError>
  {
    var v :- Required(d, key);
    if v.Null? then Ok(None) else if v.Num? then Ok(Some(v.n)) else Err(ValidationError(key))
  }

  /** A list field with `default_factory=list`: a missing key gives the empty list. */
  function ListField<T>(d: Doc, key: string, validate: Json -> Result<T, ValidationError>): Result<seq<T>, ValidationError>
  {
    if key !in d then Ok([])
    else if d[key].Arr? then EachOk(d[key].items, validate)
    else Err(ValidationError(key))
  }

  /** Element validator for `list[str]`. */
  function StrItem(j: Json): Result<string, ValidationError>
  {
    StrValue(j, "item")
  }

  function StrJson(s: string): Json
  {
    Str(s)
  }

  function OptStrJson(o: Option<string>): Json
  {
    if o.Some? then Str(o.value) else Null
  }

  function OptNumJson(o: Option<real>): Json
  {
    if o.Some? then Num(o.value) else Null
  }

  /** A list of strings survives a dump and a validation unchanged. */
  lemma StrListRoundTrip(xs: seq<string>)
    ensures EachOk(DumpEach(xs, StrJson), StrItem) == Ok(xs)
  {
    EachOkDumpEach(xs, StrItem, StrJson);
  }
}
