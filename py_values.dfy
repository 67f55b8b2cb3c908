/** Python values the lead pipeline passes around: parsed JSON, the
    dictionaries its iterators update in place, the exceptions it raises,
    and an inner iterator seen only through the items it will still
    produce. */
module PyValues {
  import opened Wrappers

  /** A value produced by `json.loads` (floating-point numbers are not
      modelled). */
  datatype Json =
    | JNull
    | JBool(b: bool)
    | JInt(i: int)
    | JStr(s: string)
    | JArr(items: seq<Json>)
    | JObj(fields: map<string, Json>)

  /** The exceptions the modelled code raises or lets through. */
  datatype PyError =
    | ValueError(message: string)
    | KeyError(key: string)
    | TypeError
    | RuntimeError(message: string)
    | HuggingFaceError(detail: Json)
    | JsonDecodeError
    | UnboundLocalError(name: string)
    | ServiceError(message: string)

  /** A Python `dict` that the pipeline shares and updates in place. */
  class Dict {
    var entries: map<string, Json>

    constructor (entries: map<string, Json>)
      ensures this.entries == entries
    {
      this.entries := entries;
    }
  }

  /** The contents of a list of dictionaries. */
  function EntriesOf(ds: seq<Dict>): (r: seq<map<string, Json>>)
    reads set d | d in ds
    ensures |r| == |ds| && forall i :: 0 <= i < |ds| ==> r[i] == ds[i].entries
  {
    seq(|ds|, i reads ds requires 0 <= i < |ds| => ds[i].entries)
  }

  /** One call of `__next__`: an item, `StopIteration`, or an exception. */
  datatype Step = Yield(item: Dict) | Stop | Raise(error: PyError)

  /** `d[key]` when it is a string; `KeyError` when the key is missing and
      `TypeError` when the value is not a string. */
  function GetStr(m: map<string, Json>, key: string): (r: Result<string, PyError>)
    ensures r.Ok? <==> key in m && m[key].JStr?
    ensures r.Ok? ==> m[key] == JStr(r.value)
  {
    if key !in m then Err(KeyError(key))
    else if !m[key].JStr? then Err(TypeError)
    else Ok(m[key].s)
  }

  /** `d[key]` when it is an integer, with the same errors. */
  function GetInt(m: map<string, Json>, key: string): (r: Result<int, PyError>)
    ensures r.Ok? <==> key in m && m[key].JInt?
    ensures r.Ok? ==> m[key] == JInt(r.value)
  {
    if key !in m then Err(KeyError(key))
    else if !m[key].JInt? then Err(TypeError)
    else Ok(m[key].i)
  }

  /** `d["entity_group"] == "PER"`, or the `KeyError` of a missing key. */
  function IsPerson(m: map<string, Json>): (r: Result<bool, PyError>)
    ensures r.Err? <==> "entity_group" !in m
    ensures r.Ok? ==> (r.value <==> m["entity_group"] == JStr("PER"))
  {
    if "entity_group" !in m then Err(KeyError("entity_group"))
    else Ok(m["entity_group"] == JStr("PER"))
  }

  /** The inner iterator a decorator wraps, seen as the dictionaries it will
      still yield; `iterCalls` counts the calls of its `__iter__`. */
  class ItemSource {
    var remaining: seq<Dict>
    var iterCalls: nat

    constructor (items: seq<Dict>)
      ensures remaining == items && iterCalls == 0
    {
      remaining := items;
      iterCalls := 0;
    }

    /** `iter(source)`. */
    method Iter()
      modifies this`iterCalls
      ensures iterCalls == old(iterCalls) + 1
    {
      iterCalls := iterCalls + 1;
    }

    /** `next(source)`: the first remaining item, or `None` for
        `StopIteration`. */
    method Next() returns (r: Option<Dict>)
      modifies this`remaining
      ensures old(remaining) == [] ==> r == None && remaining == []
      ensures old(remaining) != [] ==> r == Some(old(remaining)[0]) && remaining == old(remaining)[1..]
    {
      if remaining == [] {
        r := None;
      } else {
        r := Some(remaining[0]);
        remaining := remaining[1..];
      }
    }
  }
}
