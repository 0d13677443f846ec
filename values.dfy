/** JSON-shaped values, the errors that escape the pipeline, and model replies. */
module Values {

  datatype Option<T> = None | Some(value: T) {
    function GetOr(default: T): T {
      if Some? then value else default
    }
  }

  /** The exceptions the modelled code lets escape to its caller. */
  datatype Failure =
    | NotFound              // load_case on a case file that was never written
    | MalformedRecord       // a stored record with no list under "conversation"
    | NonStringInstruction  // " ".join over care instructions that are not all strings
    | ServiceUnavailable    // chat.invoke could not reach the language model

  datatype Result<T> = Ok(value: T) | Err(error: Failure)

  /** A value as json.loads produces it and json.dump writes it. */
  datatype Json =
    | Null
    | Bool(b: bool)
    | Int(i: int)
    | Float(r: real)
    | Str(s: string)
    | Arr(items: seq<Json>)
    | Obj(fields: map<string, Json>)

  /** A Python dict with string keys, as the pipeline passes them around. */
  type Record = map<string, Json>

  /** What one chat.invoke call yields: the reply's content, or no reply at all. */
  datatype Reply = Text(content: string) | Unavailable

  /** d.get(key, default) */
  function GetOr(d: Record, key: string, default: Json): Json {
    if key in d then d[key] else default
  }

  /** d.get(key) */
  function Get(d: Record, key: string): Json {
    GetOr(d, key, Null)
  }

  /** A Python list of strings. */
  function StrList(xs: seq<string>): Json {
    Arr(seq(|xs|, i requires 0 <= i < |xs| => Str(xs[i])))
  }

  /** Every element of a JSON list is a string. */
  predicate AllStrings(items: seq<Json>) {
    forall i | 0 <= i < |items| :: items[i].Str?
  }

  /** The strings of a list every element of which is a string. */
  function Strings(items: seq<Json>): (xs: seq<string>)
    requires AllStrings(items)
    ensures |xs| == |items|
    ensures forall i | 0 <= i < |items| :: items[i] == Str(xs[i])
  {
    seq(|items|, i requires 0 <= i < |items| => items[i].s)
  }
}
