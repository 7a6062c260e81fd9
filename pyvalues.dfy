/**
 * Python values and exceptions that the fetcher and the driver scripts work on:
 * results of operations that may raise, the exceptions involved (with the class
 * hierarchy that except clauses match against), and JSON documents as the json
 * module loads them.
 */
module PyValues {

  datatype Option<+T> = None | Some(value: T)

  /** The outcome of a Python expression that either produces a value or raises. */
  datatype Result<+T> = Ok(value: T) | Err(error: Exc)

  /**
   * The exceptions the modelled code raises or catches. The first group are
   * requests.exceptions classes; the second are Python built-ins.
   */
  datatype Exc =
    | HTTPError(status: int)          // raised by raise_for_status()
    | ConnectionError
    | ConnectTimeout                  // subclass of both ConnectionError and Timeout
    | ReadTimeout
    | ChunkedEncodingError
    | JSONDecodeError                 // response.json() on a body that is not JSON
    | RetryError                      // the session's retries were exhausted
    | OtherRequestException           // any other RequestException subclass
    | AttributeError
    | TypeError
    | ValueError
    | UnboundLocalError
    | KeyError(key: string)

  /** The exception classes that appear in the except clauses of the core. */
  datatype ExcClass =
    | Exception
    | RequestException
    | HTTPErrorClass
    | ConnectionErrorClass
    | TimeoutClass
    | ChunkedEncodingErrorClass

  /** `isinstance(e, c)` for the modelled exceptions. */
  predicate IsInstance(e: Exc, c: ExcClass) {
    match c
    case Exception => true
    case RequestException =>
      e.HTTPError? || e.ConnectionError? || e.ConnectTimeout? || e.ReadTimeout? ||
      e.ChunkedEncodingError? || e.JSONDecodeError? || e.RetryError? || e.OtherRequestException?
    case HTTPErrorClass => e.HTTPError?
    case ConnectionErrorClass => e.ConnectionError? || e.ConnectTimeout?
    case TimeoutClass => e.ConnectTimeout? || e.ReadTimeout?
    case ChunkedEncodingErrorClass => e.ChunkedEncodingError?
  }

  /**
   * The index of the first except clause (a list of classes, tried in order)
   * that catches `e`, or None when the exception escapes the try statement.
   */
  function FirstHandler(e: Exc, clauses: seq<ExcClass>): (r: Option<nat>)
    ensures r.Some? ==> r.value < |clauses| && IsInstance(e, clauses[r.value])
    ensures r.Some? ==> forall j :: 0 <= j < r.value ==> !IsInstance(e, clauses[j])
    ensures r.None? ==> forall j :: 0 <= j < |clauses| ==> !IsInstance(e, clauses[j])
  {
    if clauses == [] then None
    else if IsInstance(e, clauses[0]) then Some(0)
    else match FirstHandler(e, clauses[1..])
      case None => None
      case Some(i) => Some(i + 1)
  }

  /** A JSON document as json.load returns it; objects keep their key order. */
  datatype Json =
    | JNull
    | JBool(b: bool)
    | JNum(n: real)
    | JStr(s: string)
    | JArr(elems: seq<Json>)
    | JObj(fields: seq<(string, Json)>)

  /** The keys of a dict, in insertion order. */
  function KeysOf(fields: seq<(string, Json)>): (ks: seq<string>)
    ensures |ks| == |fields|
    ensures forall i :: 0 <= i < |fields| ==> ks[i] == fields[i].0
  {
    if fields == [] then [] else [fields[0].0] + KeysOf(fields[1..])
  }

  /** No key occurs twice, as in every Python dict. */
  predicate DistinctKeys(fields: seq<(string, Json)>) {
    forall i, j :: 0 <= i < j < |fields| ==> fields[i].0 != fields[j].0
  }

  /** No string occurs twice in the list. */
  predicate Distinct(keys: seq<string>) {
    forall i, j :: 0 <= i < j < |keys| ==> keys[i] != keys[j]
  }

  /** The value stored under `key`, if any. */
  function Lookup(fields: seq<(string, Json)>, key: string): (r: Option<Json>)
    ensures r.Some? <==> key in KeysOf(fields)
  {
    if fields == [] then None
    else if fields[0].0 == key then Some(fields[0].1)
    else Lookup(fields[1..], key)
  }

  /** In a dict without repeated keys, the pair at position i is what looking up its key finds. */
  lemma {:induction false} LookupDistinct(fields: seq<(string, Json)>, i: nat)
    requires DistinctKeys(fields) && i < |fields|
    ensures Lookup(fields, fields[i].0) == Some(fields[i].1)
  {
    if i > 0 {
      assert fields[0].0 != fields[i].0;
      assert DistinctKeys(fields[1..]) by {
        forall p, q | 0 <= p < q < |fields| - 1
          ensures fields[1..][p].0 != fields[1..][q].0
        {
          assert fields[1..][p] == fields[p + 1] && fields[1..][q] == fields[q + 1];
        }
      }
      LookupDistinct(fields[1..], i - 1);
    }
  }

  /**
   * `d[key]`: KeyError on a dict without the key, TypeError on a value that
   * is not a dict (a list or string subscripted by a string, or a scalar).
   */
  function Index(j: Json, key: string): (r: Result<Json>)
    ensures r.Ok? <==> j.JObj? && key in KeysOf(j.fields)
    ensures r.Ok? ==> Lookup(j.fields, key) == Some(r.value)
    ensures r.Err? ==> r.error == (if j.JObj? then KeyError(key) else TypeError)
  {
    match j
    case JObj(fields) =>
      (match Lookup(fields, key)
       case Some(v) => Ok(v)
       case None => Err(KeyError(key)))
    case _ => Err(TypeError)
  }

  /**
   * `for x in j`: a list gives its elements, a dict its keys, a string its
   * one-character strings; anything else is not iterable.
   */
  function Iterate(j: Json): (r: Result<seq<Json>>)
    ensures r.Ok? <==> j.JArr? || j.JObj? || j.JStr?
    ensures j.JArr? ==> r == Ok(j.elems)
    ensures j.JObj? ==> r.Ok? && |r.value| == |j.fields| && forall i :: 0 <= i < |j.fields| ==> r.value[i] == JStr(j.fields[i].0)
    ensures j.JStr? ==> r.Ok? && |r.value| == |j.s| && forall i :: 0 <= i < |j.s| ==> r.value[i] == JStr([j.s[i]])
  {
    match j
    case JArr(elems) => Ok(elems)
    case JObj(fields) => Ok(seq(|fields|, i requires 0 <= i < |fields| => JStr(fields[i].0)))
    case JStr(s) => Ok(seq(|s|, i requires 0 <= i < |s| => JStr([s[i]])))
    case _ => Err(TypeError)
  }
}
