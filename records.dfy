/** The rows the dashboard reads from its CSV file, with the calendar date
    already turned into an integer day number. */
module Records {

  /** One hourly rental record: date (as a day number), hour of day, weather
      code, and the casual, registered and total rental counts. */
  datatype Record = Record(day: int, hr: int, weathersit: int, casual: nat, registered: nat, cnt: nat)

  datatype Option<+T> = None | Some(value: T)

  datatype Result<+T, +E> = Ok(value: T) | Err(error: E)

  /** `s` is obtained from `t` by deleting elements, keeping the order of the rest. */
  predicate IsSubsequence(s: seq<Record>, t: seq<Record>)
    decreases |t|
  {
    if s == [] then true
    else if t == [] then false
    else if s[0] == t[0] then IsSubsequence(s[1..], t[1..])
    else IsSubsequence(s, t[1..])
  }
}
