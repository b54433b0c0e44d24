/** Flight-feed records as the pipeline sees them: Python dictionaries from
    string keys to JSON-ish values, and the exceptions the stages raise. */
module Records {

  datatype Option<T> = None | Some(value: T)

  /** A value stored in a record: a string, an integer (the merge's Priority),
      or Python's None (what `dict.pop(k, None)` stores for a missing key). */
  datatype Value = Str(s: string) | IntV(i: int) | NoneV

  /** A record (a Python dict). Key insertion order is not modelled. */
  type Record = map<string, Value>

  /** The exceptions the core raises: `KeyError` from `d[k]`, `TypeError` from
      slicing, concatenating or comparing values of the wrong kind, and
      `ValueError` from an unparseable ISO-8601 string (carrying that string). */
  datatype Error = KeyError(key: string) | TypeError | ValueError(text: string)

  datatype Result<T> = Ok(value: T) | Err(error: Error)

  // Keys of the raw feed records
  const No := "No"
  const OriginDestIATA := "OriginDestIATA"
  const Scheduled := "Scheduled"
  const Stand := "Stand"
  const Aircraft := "Aircraft"
  const BookedRaw := "Booked\nCargo/Mail"

  // Keys of the presentation records
  const FlightNo := "Flight No.\nFlug"
  const Airframe := "A/C"
  const Gate := "Gate"
  const BookedCargoMail := "Booked Cargo/Mail"
  const Priority := "Priority"

  /** `r.get(k, default)` */
  function Get(r: Record, k: string, default: Value): Value
  {
    if k in r then r[k] else default
  }

  /** `r[k]`, raising `KeyError` when the key is missing */
  function Lookup(r: Record, k: string): (v: Result<Value>)
    ensures v.Ok? <==> k in r
    ensures v.Ok? ==> v.value == r[k]
    ensures v.Err? ==> v.error == KeyError(k)
  {
    if k in r then Ok(r[k]) else Err(KeyError(k))
  }

  /** Python's `s[-3:]`: the last `min(3, |s|)` characters of `s`. */
  function LastThree(s: string): (t: string)
    ensures |t| == if |s| < 3 then |s| else 3
    ensures t == s[|s| - |t|..]
  {
    if |s| <= 3 then s else s[|s| - 3..]
  }

  /** `datetime.fromisoformat(s)` composed with whatever is done to the parsed
      value, given as `parse`; the empty string is never an ISO-8601 date. */
  function FromIso<T>(parse: string -> Option<T>, s: string): (t: Option<T>)
    ensures s == "" ==> t == None
  {
    if s == "" then None else parse(s)
  }

  /** `a` is `b` with some elements left out, order kept. */
  predicate IsSubsequence(a: seq<Record>, b: seq<Record>)
    decreases |b|
  {
    a == [] || (b != [] && ((a[0] == b[0] && IsSubsequence(a[1..], b[1..])) || IsSubsequence(a, b[1..])))
  }
}
