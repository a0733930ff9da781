/**
 * The REST helpers of the package's API extension: the JSON error body every aborted request
 * answers with, the schema `update` that copies loadable fields onto a model object, the
 * post-dump filter that drops `None` values, and the 404 shortcuts of the query class.
 */
module Api {
  import opened Wrappers
  import opened Json
  import opened PyDict

  // ---------------------------------------------------------------------------------------
  // abort
  // ---------------------------------------------------------------------------------------

  /** A member of Python's `HTTPStatus`: its code, its member name and its reason phrase. */
  datatype HttpStatus = HttpStatus(value: int, name: string, phrase: string)

  /** The statuses the package aborts with. */
  const FORBIDDEN := HttpStatus(403, "FORBIDDEN", "Forbidden")
  const NOT_FOUND := HttpStatus(404, "NOT_FOUND", "Not Found")
  const INTERNAL_SERVER_ERROR := HttpStatus(500, "INTERNAL_SERVER_ERROR", "Internal Server Error")

  /** The HTTP error `abort` raises: the response status and the message its body carries. */
  datatype Abort = Abort(status: HttpStatus, message: string)

  /** Python truthiness of an `Optional[str]`: present and not empty. */
  predicate Truthy(message: Option<string>)
  {
    message.Some? && message.value != ""
  }

  /**
   * `abort(http_status, message)`: the caller's message when it is truthy, the status phrase
   * otherwise (so an empty message also gets the phrase).
   */
  function AbortWith(status: HttpStatus, message: Option<string>): (a: Abort)
    ensures a.status == status
    ensures Truthy(message) ==> a.message == message.value
    ensures !Truthy(message) ==> a.message == status.phrase
  {
    Abort(status, if Truthy(message) then message.value else status.phrase)
  }

  /** The JSON body of the aborted response, as `flask.jsonify(code=..., status=..., message=...)`. */
  function Body(a: Abort): Value
  {
    JObject(map["code" := JInt(a.status.value), "status" := JStr(a.status.name), "message" := JStr(a.message)])
  }

  /** What a client reads back from an error body: code, status name and message. */
  function ReadBody(v: Value): Option<(int, string, string)>
  {
    if v.JObject? && "code" in v.fields && "status" in v.fields && "message" in v.fields
      && v.fields["code"].JInt? && v.fields["status"].JStr? && v.fields["message"].JStr?
    then Some((v.fields["code"].i, v.fields["status"].s, v.fields["message"].s))
    else None
  }

  /** The body has exactly three fields and carries the status code, its name and the message. */
  lemma BodyRoundTrip(a: Abort)
    ensures Body(a).JObject? && Body(a).fields.Keys == {"code", "status", "message"}
    ensures ReadBody(Body(a)) == Some((a.status.value, a.status.name, a.message))
  {
    var fields := Body(a).fields;
    assert "code" in fields && "status" in fields && "message" in fields;
  }

  // ---------------------------------------------------------------------------------------
  // AutoSchema
  // ---------------------------------------------------------------------------------------

  /** A marshmallow field, as far as `update` looks at it. */
  datatype Field = Field(dumpOnly: bool)

  /** `data.get(name)`: the value, or None when the name is missing. */
  function Get(data: map<string, Value>, name: string): Value
  {
    if name in data then data[name] else JNull
  }

  /** `[k for k, v in fields.items() if not v.dump_only]`: each loadable name once. */
  function LoadableFields(fields: Dict<Field>): (names: seq<string>)
    requires DistinctKeys(fields)
    ensures forall n :: n in names <==> (n, Field(false)) in fields
    ensures forall i, j :: 0 <= i < j < |names| ==> names[i] != names[j]
    ensures |names| <= |fields|
  {
    if |fields| == 0 then []
    else
      var rest := LoadableFields(fields[1..]);
      assert forall p :: p in fields <==> p == fields[0] || p in fields[1..];
      if fields[0].1.dumpOnly then rest else [fields[0].0] + rest
  }

  /**
   * The attributes of a model object after `update`: every loadable field takes the data's
   * value, or None when the data lacks it; every other attribute is left as it was.
   */
  function UpdatedAttrs(attrs: map<string, Value>, fields: Dict<Field>, data: map<string, Value>): (r: map<string, Value>)
    requires DistinctKeys(fields)
    ensures forall n :: n in r <==> n in attrs || (n, Field(false)) in fields
    ensures forall n :: (n, Field(false)) in fields ==> r[n] == Get(data, n)
    ensures forall n :: n in attrs && (n, Field(false)) !in fields ==> r[n] == attrs[n]
  {
    attrs + map n | n in LoadableFields(fields) :: Get(data, n)
  }

  /** Updating twice from the same data is updating once. */
  lemma UpdateIdempotent(attrs: map<string, Value>, fields: Dict<Field>, data: map<string, Value>)
    requires DistinctKeys(fields)
    ensures UpdatedAttrs(UpdatedAttrs(attrs, fields, data), fields, data) == UpdatedAttrs(attrs, fields, data)
  {
  }

  /** A database model instance: its attributes by name. */
  class Model {
    var attrs: map<string, Value>

    constructor (attrs: map<string, Value>)
      ensures this.attrs == attrs
    {
      this.attrs := attrs;
    }
  }

  class AutoSchema {
    /** `self.fields`: the schema's fields in declaration order. */
    const fields: Dict<Field>

    constructor (fields: Dict<Field>)
      requires DistinctKeys(fields)
      ensures this.fields == fields
    {
      this.fields := fields;
    }

    /** `update(obj, data)`: `setattr(obj, name, data.get(name))` for every loadable field, in order. */
    method Update(obj: Model, data: map<string, Value>)
      requires DistinctKeys(fields)
      modifies obj
      ensures obj.attrs == UpdatedAttrs(old(obj.attrs), fields, data)
    {
      var loadable := LoadableFields(fields);
      for i := 0 to |loadable|
        invariant obj.attrs == old(obj.attrs) + map n | n in loadable[..i] :: Get(data, n)
      {
        assert loadable[..i + 1] == loadable[..i] + [loadable[i]];
        LoadOneMore(old(obj.attrs), loadable[..i], loadable[i], data);
        obj.attrs := obj.attrs[loadable[i] := Get(data, loadable[i])];
      }
      assert loadable[..|loadable|] == loadable;
    }
  }

  /** Loading one more name is one more `setattr`. */
  lemma LoadOneMore(attrs: map<string, Value>, names: seq<string>, n: string, data: map<string, Value>)
    ensures attrs + (map m | m in names + [n] :: Get(data, m))
      == (attrs + map m | m in names :: Get(data, m))[n := Get(data, n)]
  {
  }

  /** `{key: value for key, value in data.items() if value is not None}`. */
  function RemoveNoneValues(data: Dict<Value>): (r: Dict<Value>)
    ensures forall p :: p in r <==> p in data && p.1 != JNull
    ensures |r| <= |data|
  {
    if |data| == 0 then []
    else
      var rest := RemoveNoneValues(data[1..]);
      assert forall p :: p in data <==> p == data[0] || p in data[1..];
      (if data[0].1 == JNull then [] else [data[0]]) + rest
  }

  /** The filter keeps the order of the entries: filtering a concatenation filters each part. */
  lemma {:induction false} RemoveNoneValuesAppend(a: Dict<Value>, b: Dict<Value>)
    ensures RemoveNoneValues(a + b) == RemoveNoneValues(a) + RemoveNoneValues(b)
  {
    if |a| > 0 {
      var head := if a[0].1 == JNull then [] else [a[0]];
      assert (a + b)[0] == a[0] && (a + b)[1..] == a[1..] + b;
      calc {
        RemoveNoneValues(a + b);
        head + RemoveNoneValues(a[1..] + b);
        { RemoveNoneValuesAppend(a[1..], b); }
        head + (RemoveNoneValues(a[1..]) + RemoveNoneValues(b));
        (head + RemoveNoneValues(a[1..])) + RemoveNoneValues(b);
        RemoveNoneValues(a) + RemoveNoneValues(b);
      }
    } else {
      assert a + b == b;
    }
  }

  /** A dict without None values passes unchanged. */
  lemma {:induction false} RemoveNoneValuesKeeps(data: Dict<Value>)
    requires forall i :: 0 <= i < |data| ==> data[i].1 != JNull
    ensures RemoveNoneValues(data) == data
  {
    if |data| > 0 {
      RemoveNoneValuesKeeps(data[1..]);
      assert [data[0]] + data[1..] == data;
    }
  }

  /** Removing the None values a second time changes nothing. */
  lemma RemoveNoneValuesIdempotent(data: Dict<Value>)
    ensures RemoveNoneValues(RemoveNoneValues(data)) == RemoveNoneValues(data)
  {
    var r := RemoveNoneValues(data);
    forall i | 0 <= i < |r| ensures r[i].1 != JNull {
      assert r[i] in r;
    }
    RemoveNoneValuesKeeps(r);
  }

  // ---------------------------------------------------------------------------------------
  // BaseQuery
  // ---------------------------------------------------------------------------------------

  /** `get_or_404(ident, description)` over the table `rows` that `get` looks `ident` up in. */
  function GetOr404<K, T>(rows: map<K, T>, ident: K, description: Option<string>): (r: Result<T, Abort>)
    ensures r.Success? <==> ident in rows
    ensures r.Success? ==> r.value == rows[ident]
    ensures r.Failure? ==> r.error.status == NOT_FOUND
    ensures r.Failure? ==> r.error.message == if Truthy(description) then description.value else "Not Found"
  {
    if ident !in rows then Failure(AbortWith(NOT_FOUND, description)) else Success(rows[ident])
  }

  /** `first_or_404(description)` over the rows the query yields, in order. */
  function FirstOr404<T>(rows: seq<T>, description: Option<string>): (r: Result<T, Abort>)
    ensures r.Success? <==> |rows| > 0
    ensures r.Success? ==> r.value == rows[0]
    ensures r.Failure? ==> r.error.status == NOT_FOUND
    ensures r.Failure? ==> r.error.message == if Truthy(description) then description.value else "Not Found"
  {
    if |rows| == 0 then Failure(AbortWith(NOT_FOUND, description)) else Success(rows[0])
  }
}
