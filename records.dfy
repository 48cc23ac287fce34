/**
 * Dictionary rows and configuration dictionaries. Python code in the
 * pipeline passes `dict` values around (preset tables, render-job updates);
 * a `Record` is such a dictionary: string keys mapped to scalar values.
 */
module Records {

  /** One entry of an `error_log` list in a render job. */
  datatype ErrorEntry = ErrorEntry(error: string, timestamp: string)

  /** The scalar values that occur in the dictionaries of the core. */
  datatype Value =
    | Str(s: string)
    | Int(i: int)
    | Bool(b: bool)
    | Real(r: real)
    | ErrorLog(entries: seq<ErrorEntry>)

  type Record = map<string, Value>

  /** `d.update(e)` on a copy of `d`: keys of `e` win. */
  function Update(d: Record, e: Record): (r: Record)
    ensures r.Keys == d.Keys + e.Keys
    ensures forall k :: k in e ==> r[k] == e[k]
    ensures forall k :: k in d && k !in e ==> r[k] == d[k]
  {
    d + e
  }
}
