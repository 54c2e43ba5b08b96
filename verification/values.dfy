/** Python values as they flow through the incident backend: the dictionaries
    built from forms and requests, the classifier's parsed reply, the records
    written to the document store, and the exceptions that may interrupt a
    request.  External calls are recorded as `Effect`s. */
module Values {

  datatype Option<+T> = None | Some(value: T)

  /** The exceptions that reach the code modelled here. */
  datatype Exception =
    | ServiceError(message: string) // raised by a foreign client: the language model, the broker, the store, the socket server, the file system
    | NotJson                       // `request.json` on a body that is not JSON
    | DecodeError                   // a message payload that is not UTF-8 or not JSON
    | TypeError                     // an operation on a value of the wrong Python type
    | KeyError(key: string)         // a missing dictionary key

  /** A computation that returns a value or raises. */
  datatype Result<+T> = Ok(value: T) | Raise(exc: Exception)

  /** A call performed only for its effect, which may raise. */
  datatype Outcome = Done | Failed(exc: Exception)

  /** The Python values that occur in requests, classifier replies and stored
      documents.  `ServerTimestamp` is the store's placeholder for "the commit
      time"; the store replaces it by `VTime` when it writes a document. */
  datatype Value =
    | VNone
    | VBool(b: bool)
    | VInt(i: int)
    | VFloat(x: real)
    | VStr(s: string)
    | VList(items: seq<Value>)
    | VDict(fields: map<string, Value>)
    | ServerTimestamp
    | VTime(t: int)

  type Dict = map<string, Value>

  /** An external call, recorded when it is attempted (whether or not it then fails). */
  datatype Effect =
    | SaveMedia(path: string)                  // media.save(path)
    | CallModel(description: Value)            // one generate_content call for this description
    | Publish(message: Dict)                   // the published dictionary, not its JSON encoding
    | WriteIncident(id: nat, record: Dict)     // a document set in the incidents collection
    | Emit(event: string, payload: Value)      // socketio.emit(event, payload)
    | Ack                                      // message.ack()
    | LogError(error: Exception)               // print("Subscriber error:", e)

  function Min(a: nat, b: nat): nat { if a <= b then a else b }

  /** Python's `s[:n]` for n >= 0. */
  function Take<T>(s: seq<T>, n: nat): (r: seq<T>)
    ensures |r| == Min(|s|, n)
    ensures r <= s
    ensures |s| <= n ==> r == s
  {
    if |s| <= n then s else s[..n]
  }

  /** Python's `v[:n]` on an arbitrary value: strings and lists are sliced,
      every other type raises TypeError (Python before 3.12; from 3.12 on a
      dictionary raises KeyError instead). */
  function SliceTo(v: Value, n: nat): (r: Result<Value>)
    ensures r.Ok? <==> v.VStr? || v.VList?
    ensures v.VStr? ==> r == Ok(VStr(Take(v.s, n)))
    ensures v.VList? ==> r == Ok(VList(Take(v.items, n)))
    ensures r.Raise? ==> r.exc == TypeError
  {
    match v
    case VStr(s) => Ok(VStr(Take(s, n)))
    case VList(items) => Ok(VList(Take(items, n)))
    case _ => Raise(TypeError)
  }

  /** `d.update(other)`, and equally `{**d, **other}`: the keys of both, with
      `other` winning where both have a key. */
  function Update(d: Dict, other: Dict): (r: Dict)
    ensures r.Keys == d.Keys + other.Keys
    ensures forall k :: k in other ==> r[k] == other[k]
    ensures forall k :: k in d && k !in other ==> r[k] == d[k]
  {
    d + other
  }
}
