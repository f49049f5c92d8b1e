/** The query layer between the HTTP server and the database: pagination
    validation, the error values queries reject with, the projection used
    to list trials and the lookup of one trial's metadata. */
module Queries {
  import opened Wrappers

  const ERROR_MISSING: string := "missing"
  const ERROR_PAGINATION: string := "pagination"

  /** The five properties that identify a trial in a listing. */
  const IDENTIFYING_PROPERTIES: seq<string> := ["start_time", "end_time", "Animal", "Run", "nSamples"]

  /** A JavaScript argument as far as validation looks at it: an ordinary
      number, NaN, or a value of another type (its `typeof` name and the
      number it converts to in a comparison with a number; None when that
      conversion gives NaN). A `NonNumber` stands for a value whose `typeof`
      is not "number"; infinite numbers are not represented. */
  datatype JsValue =
    | Num(value: real)
    | NaN
    | NonNumber(typeName: string, asNumber: Option<real>)

  /** Whether `typeof v === 'number'`. */
  predicate IsNumber(v: JsValue) { v.Num? || v.NaN? }

  /** The name `typeof v` reports. */
  function TypeOf(v: JsValue): string
  {
    match v
    case Num(_) => "number"
    case NaN => "number"
    case NonNumber(t, _) => t
  }

  /** The number `v` converts to when compared with a number (None for NaN). */
  function ToNumeric(v: JsValue): Option<real>
  {
    match v
    case Num(x) => Some(x)
    case NaN => None
    case NonNumber(_, n) => n
  }

  /** `v <= 0`: false whenever the conversion gives NaN. */
  predicate AtMostZero(v: JsValue) { ToNumeric(v).Some? && ToNumeric(v).value <= 0.0 }

  /** `v < 0`: false whenever the conversion gives NaN. */
  predicate BelowZero(v: JsValue) { ToNumeric(v).Some? && ToNumeric(v).value < 0.0 }

  /** The `data` field of a query error. */
  datatype ErrorData =
    | PaginationData(start: JsValue, limit: JsValue)
    | IdFilter(id: string)

  datatype QueryError = QueryError(msg: string, data: ErrorData, errType: string)

  /** A trial's metadata document. */
  datatype Document = Document(id: string, fields: map<string, string>)

  /** The query `findAllTrials` hands to the database: project onto
      `projection`, skip `skip` documents, return at most `limit`. */
  datatype TrialQuery = TrialQuery(projection: map<string, int>, skip: JsValue, limit: JsValue)

  /** Error for a lookup that found nothing. */
  function ErrorMissing(msg: string, data: ErrorData): (e: QueryError)
    ensures e.errType == ERROR_MISSING && e.errType != ERROR_PAGINATION
    ensures e.msg == msg && e.data == data
  {
    QueryError(msg, data, ERROR_MISSING)
  }

  /** Error for invalid pagination, carrying the offending arguments. */
  function ErrorPagination(msg: string, start: JsValue, limit: JsValue): (e: QueryError)
    ensures e.errType == ERROR_PAGINATION && e.errType != ERROR_MISSING
    ensures e.msg == msg && e.data == PaginationData(start, limit)
  {
    QueryError(msg, PaginationData(start, limit), ERROR_PAGINATION)
  }

  /** The validation message, read as "the last failing check wins":
      a negative start beats a non-positive limit, which beats a non-number
      limit, which beats a non-number start. */
  function PaginationError(start: JsValue, limit: JsValue): Option<string>
  {
    if BelowZero(start) then Some("start must be greater than or equal to 0")
    else if AtMostZero(limit) then Some("limit must be greater than 0")
    else if !IsNumber(limit) then Some("limit is not a number, was " + TypeOf(limit))
    else if !IsNumber(start) then Some("start is not a number, was " + TypeOf(start))
    else None
  }

  /** Validation accepts exactly two numbers with `limit <= 0` and `start < 0`
      both false. */
  lemma PaginationAccepts(start: JsValue, limit: JsValue)
    ensures PaginationError(start, limit).None? <==>
      IsNumber(start) && IsNumber(limit) && !AtMostZero(limit) && !BelowZero(start)
  {
  }

  /** For ordinary numbers: accepted exactly when `limit > 0` and `start >= 0`. */
  lemma PaginationAcceptsNumbers(start: real, limit: real)
    ensures PaginationError(Num(start), Num(limit)).None? <==> limit > 0.0 && start >= 0.0
  {
  }

  /** A negative start always reports the start message, whatever the limit. */
  lemma NegativeStartWins(start: JsValue, limit: JsValue)
    requires BelowZero(start)
    ensures PaginationError(start, limit) == Some("start must be greater than or equal to 0")
  {
  }

  /** Checks the pagination arguments; later checks overwrite the message of
      earlier ones and nothing clears it. */
  method VerifyPaginationData(start: JsValue, limit: JsValue) returns (err: Option<string>)
    ensures err == PaginationError(start, limit)
    ensures err.None? <==> IsNumber(start) && IsNumber(limit) && !AtMostZero(limit) && !BelowZero(start)
    ensures !IsNumber(start) || !IsNumber(limit) ==> err.Some?
  {
    err := None;
    if !IsNumber(start) { err := Some("start is not a number, was " + TypeOf(start)); }
    if !IsNumber(limit) { err := Some("limit is not a number, was " + TypeOf(limit)); }
    if AtMostZero(limit) { err := Some("limit must be greater than 0"); }
    if BelowZero(start) { err := Some("start must be greater than or equal to 0"); }
  }

  /** Lists all trials: rejects with a pagination error when validation
      fails, otherwise issues a query projecting onto the identifying
      properties. */
  method FindAllTrials(start: JsValue, limit: JsValue) returns (r: Result<TrialQuery, QueryError>)
    ensures r.Failure? <==> PaginationError(start, limit).Some?
    ensures r.Failure? ==> r.error == ErrorPagination(PaginationError(start, limit).value, start, limit)
    ensures r.Success? ==>
      r.value.skip == start && r.value.limit == limit &&
      r.value.projection.Keys == set p | p in IDENTIFYING_PROPERTIES &&
      forall p :: p in r.value.projection ==> r.value.projection[p] == 1
  {
    var paginationError := VerifyPaginationData(start, limit);
    if paginationError.Some? {
      return Failure(ErrorPagination(paginationError.value, start, limit));
    }
    var identifyingProperties := IDENTIFYING_PROPERTIES;

    var projection: map<string, int> := map[];
    for i := 0 to |identifyingProperties|
      invariant projection.Keys == set p | p in identifyingProperties[..i]
      invariant forall p :: p in projection ==> projection[p] == 1
    {
      assert identifyingProperties[..i + 1] == identifyingProperties[..i] + [identifyingProperties[i]];
      projection := projection[identifyingProperties[i] := 1];
    }
    assert identifyingProperties[..|identifyingProperties|] == identifyingProperties;
    r := Success(TrialQuery(projection, start, limit));
  }

  /** `d` is the earliest document of `collection` whose `_id` is `id`. */
  ghost predicate IsFirstMatch(collection: seq<Document>, id: string, d: Document)
  {
    d.id == id &&
    exists k :: 0 <= k < |collection| && collection[k] == d &&
                (forall j :: 0 <= j < k ==> collection[j].id != id)
  }

  /** The documents of `collection` whose `_id` is `id`, in collection order. */
  function FindById(collection: seq<Document>, id: string): (found: seq<Document>)
    ensures forall d :: d in found ==> d in collection && d.id == id
    ensures found == [] <==> forall d :: d in collection ==> d.id != id
    ensures found != [] ==> IsFirstMatch(collection, id, found[0])
  {
    if collection == [] then []
    else
      var rest := FindById(collection[1..], id);
      if collection[0].id == id then [collection[0]] + rest
      else
        assert forall d :: d in collection[1..] ==> d in collection;
        assert rest != [] ==> IsFirstMatch(collection, id, rest[0]) by {
          if rest != [] {
            var k :| 0 <= k < |collection[1..]| && collection[1..][k] == rest[0] &&
                     (forall j :: 0 <= j < k ==> collection[1..][j].id != id);
            assert collection[k + 1] == rest[0];
          }
        }
        rest
  }

  /** All metadata of the trial with `_id` `id`: the first match, or a
      "missing" rejection naming the id. */
  function GetTrialMeta(id: string, collection: seq<Document>): (r: Result<Document, QueryError>)
    ensures r.Success? <==> exists d :: d in collection && d.id == id
    ensures r.Success? ==> r.value in collection && IsFirstMatch(collection, id, r.value)
    ensures r.Failure? ==>
      r.error == QueryError("No trials for ID '" + id + "'", IdFilter(id), ERROR_MISSING)
  {
    var found := FindById(collection, id);
    var trials := if |found| > 0 then found[..1] else [];
    if |trials| > 0 then Success(trials[0])
    else Failure(ErrorMissing("No trials for ID '" + id + "'", IdFilter(id)))
  }
}
