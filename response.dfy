/** The server's response envelope: a `data` part and an `error` part, either of which
    may be null. */
module Response {
  import opened Wrappers
  import opened Js

  /** `ResponseUtil<T>`: None stands for null. */
  datatype ResponseUtil<T> = ResponseUtil(data: Option<T>, error: Option<string>)

  /** `ResponseUtil.ok(data)`: the data, no error. */
  function Ok<T>(data: T): (r: ResponseUtil<T>)
    ensures r.data == Some(data) && r.error.None?
  {
    ResponseUtil(Some(data), None)
  }

  /** `ResponseUtil.error(e)`: no data, the error. */
  function Error<T>(error: string): (r: ResponseUtil<T>)
    ensures r.data.None? && r.error == Some(error)
  {
    ResponseUtil(None, Some(error))
  }

  /** `ResponseUtil.build(data, error)` and the constructor: both parts as given. */
  function Build<T>(data: Option<T>, error: Option<string>): (r: ResponseUtil<T>)
    ensures r.data == data && r.error == error
  {
    ResponseUtil(data, error)
  }

  function NullOr(v: Option<Value>): Value {
    if v.Some? then v.value else Null
  }

  /** `toJSON()`: an object with exactly the two fields `error` and `data`. */
  function ToJSON(r: ResponseUtil<Value>): (v: Value)
    ensures v.Obj? && v.fields.Keys == {"error", "data"}
    ensures v.fields["data"] == (if r.data.Some? then r.data.value else Null)
    ensures v.fields["error"] == (if r.error.Some? then Str(r.error.value) else Null)
  {
    Obj(map["error" := if r.error.Some? then Str(r.error.value) else Null, "data" := NullOr(r.data)])
  }

  /** `valueOf()` is `toJSON()`. */
  function ValueOf(r: ResponseUtil<Value>): (v: Value)
    ensures v == ToJSON(r)
  {
    ToJSON(r)
  }

  // ---------------------------------------------------------------------------
  // Properties

  /** Rebuilding an envelope from its own parts gives it back. */
  lemma BuildFromParts<T>(r: ResponseUtil<T>)
    ensures Build(r.data, r.error) == r
  {
  }

  /** An `ok` and an `error` envelope never coincide, and each determines its argument. */
  lemma OkAndErrorDistinct<T>(d: T, d2: T, e: string, e2: string)
    ensures Ok(d) != Error<T>(e)
    ensures Ok(d) == Ok(d2) ==> d == d2
    ensures Error<T>(e) == Error<T>(e2) ==> e == e2
  {
  }

  /** The JSON form of `ok(d)` carries d and a null error; that of `error(e)` carries e and
      null data. */
  lemma ToJSONOfFactories(d: Value, e: string)
    ensures ToJSON(Ok(d)) == Obj(map["error" := Null, "data" := d])
    ensures ToJSON(Error(e)) == Obj(map["error" := Str(e), "data" := Null])
  {
  }

  /** The JSON form keeps the error and, apart from an explicit null, the data. */
  lemma ToJSONKeepsParts(r1: ResponseUtil<Value>, r2: ResponseUtil<Value>)
    requires ToJSON(r1) == ToJSON(r2)
    requires r1.data != Some(Null) && r2.data != Some(Null)
    ensures r1 == r2
  {
    assert ToJSON(r1).fields["data"] == ToJSON(r2).fields["data"];
    assert ToJSON(r1).fields["error"] == ToJSON(r2).fields["error"];
  }
}
