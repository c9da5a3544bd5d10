/**
 * What the screens get back from their HTTP calls, as values handed to the model:
 * a response (status and body) or a failure, together with the shapes of the JSON
 * bodies the screens inspect (`$values` envelopes, bare arrays, other objects).
 */
module Http {
  import opened Wrappers

  /** A response body as far as the screens look at it: absent, a plain string, or an object with an optional `message`. */
  datatype Body = NoBody | Text(text: string) | Record(message: Option<string>)

  datatype Response = Response(status: int, data: Body)

  /**
   * A rejected call: an axios error (its `code`, its `message`, and the response if the
   * server answered), another `Error` instance, or a thrown value that is not an `Error`.
   */
  datatype Failure =
    | AxiosError(code: Option<string>, message: string, response: Option<Response>)
    | PlainError(message: string)
    | NonError

  /** How a call ended. */
  datatype Outcome<T> = Done(value: T) | Failed(failure: Failure)

  /** `error.message` of an `Error` (axios errors are `Error`s too); "" for anything else. */
  function MessageOf(f: Failure): string {
    match f
    case AxiosError(_, m, _) => m
    case PlainError(m) => m
    case NonError => ""
  }

  /** `${error.message}` in a template literal: `undefined` when what was thrown is not an `Error`. */
  function MessageText(f: Failure): string {
    if f.NonError? then "undefined" else MessageOf(f)
  }

  /** `error.response?.data?.message`: present only for an axios error whose response body is an object with a message. */
  function ResponseMessage(f: Failure): Option<string> {
    if f.AxiosError? && f.response.Some? && f.response.value.data.Record? then f.response.value.data.message
    else None
  }

  /** `a || b` on strings: the empty string is falsy. */
  function OrElse(a: Option<string>, b: string): (r: string)
    ensures a.Some? && a.value != "" ==> r == a.value
    ensures a.None? || a.value == "" ==> r == b
  {
    if a.Some? && a.value != "" then a.value else b
  }

  /**
   * A JSON body read for its array content: an array, an object given as the sequence
   * of its properties in enumeration order, `null`, or any other scalar (a number, a
   * string, a boolean).
   */
  datatype Json<T> = Items(items: seq<T>) | Object(props: seq<(string, Json<T>)>) | Null | Scalar

  /** The message of the `TypeError` thrown when reading property `key` of `null`, in V8's wording. */
  function NullReadMessage(key: string): string {
    "Cannot read properties of null (reading '" + key + "')"
  }

  /**
   * A list body as the menu dialogs read it: an object with a `$values` array, the
   * bare array, or `null`.
   */
  datatype ListBody<T> = Wrapped(items: seq<T>) | Bare(items: seq<T>) | NullList

  /** The list a body holds; reading `$values` of `null` throws a `TypeError` instead. */
  function Unwrapped<T>(body: ListBody<T>): (r: Outcome<seq<T>>)
    ensures r.Done? <==> !body.NullList?
    ensures r.Done? ==> r.value == body.items
    ensures r.Failed? ==> r.failure == PlainError(NullReadMessage("$values"))
  {
    match body
    case Wrapped(xs) => Done(xs)
    case Bare(xs) => Done(xs)
    case NullList => Failed(PlainError(NullReadMessage("$values")))
  }

  /** The value of the first property named `key`, if any. */
  function Property<T>(props: seq<(string, Json<T>)>, key: string): (r: Option<Json<T>>)
    ensures r.Some? <==> exists i | 0 <= i < |props| :: props[i].0 == key
    ensures r.Some? ==> exists i | 0 <= i < |props| :: props[i] == (key, r.value)
    decreases |props|
  {
    if props == [] then None
    else if props[0].0 == key then Some(props[0].1)
    else Property(props[1..], key)
  }

  /** The value of the first property that is an array, in enumeration order. */
  function FirstArray<T>(props: seq<(string, Json<T>)>): (r: Option<seq<T>>)
    ensures r.None? <==> forall i | 0 <= i < |props| :: !props[i].1.Items?
    ensures r.Some? ==> exists i | 0 <= i < |props| :: props[i].1 == Items(r.value) && forall j | 0 <= j < i :: !props[j].1.Items?
    decreases |props|
  {
    if props == [] then None
    else if props[0].1.Items? then Some(props[0].1.items)
    else
      var r := FirstArray(props[1..]);
      assert r.Some? ==> exists i | 1 <= i < |props| :: props[i].1 == Items(r.value) && forall j | 1 <= j < i :: !props[j].1.Items? by {
        if r.Some? {
          var k :| 0 <= k < |props[1..]| && props[1..][k].1 == Items(r.value) && forall j | 0 <= j < k :: !props[1..][j].1.Items?;
          assert props[k + 1].1 == Items(r.value);
          assert forall j | 1 <= j < k + 1 :: !props[j].1.Items? by {
            forall j | 1 <= j < k + 1 ensures !props[j].1.Items? {
              assert props[j] == props[1..][j - 1];
            }
          }
        }
      }
      r
  }

  /**
   * The array a dish-list body holds: the `$values` property of an object that has
   * one, the body itself when it is an array, otherwise the first property that is an
   * array; no dishes for anything else (`null` included, which the fetches test for
   * before reading a property, and a `$values` that is not an array).
   */
  function ArrayOf<T>(data: Json<T>): seq<T> {
    match data
    case Items(xs) => xs
    case Null => []
    case Scalar => []
    case Object(props) =>
      if Property(props, "$values").Some? then
        (if Property(props, "$values").value.Items? then Property(props, "$values").value.items else [])
      else if FirstArray(props).Some? then FirstArray(props).value
      else []
  }

  /** The `for...in` scan with `break`: stops at the first array-valued property. */
  method ScanForArray<T>(props: seq<(string, Json<T>)>) returns (found: seq<T>)
    ensures found == if FirstArray(props).Some? then FirstArray(props).value else []
  {
    found := [];
    var i := 0;
    while i < |props|
      invariant 0 <= i <= |props|
      invariant FirstArray(props) == FirstArray(props[i..])
      invariant found == []
    {
      if props[i].1.Items? {
        assert props[i..][0] == props[i];
        found := props[i].1.items;
        break;
      }
      assert props[i..][1..] == props[i + 1..];
      i := i + 1;
    }
  }

  /** The unwrapping the dish-list fetches do, step by step. */
  method UnwrapArray<T>(data: Json<T>) returns (items: seq<T>)
    ensures items == ArrayOf(data)
  {
    items := [];
    if data.Object? {
      var values := Property(data.props, "$values");
      if values.Some? {
        if values.value.Items? {
          items := values.value.items;
        }
      } else {
        items := ScanForArray(data.props);
      }
    } else if data.Items? {
      items := data.items;
    }
  }
}
