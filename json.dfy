/** JSON values as the record layer stores them, file contents, and the
    exceptions its file and dictionary operations can raise. */
module Json {
  import opened Wrappers
  import opened Strings

  /** A decoded JSON value. ISO-8601 instants are kept as integer ticks
      (`JNum`); floating-point numbers are not modelled. */
  datatype Json =
    | JNull
    | JBool(b: bool)
    | JNum(n: int)
    | JStr(s: string)
    | JArr(items: seq<Json>)
    | JObj(fields: map<string, Json>)

  /** A Python `dict` with string keys, as `json.load` returns it. */
  type Dict = map<string, Json>

  /** What one file holds: text that decodes to a value, or text that does not. */
  datatype Doc = Parsed(value: Json) | Malformed

  /** The exceptions the modelled code can raise, by kind. */
  datatype Failure =
    | NoSuchFile(name: string)        // open() of an absent file
    | BadJson(name: string)           // json.load of malformed text
    | NotADict(name: string)          // a decoded value indexed by a key is not a dict
    | MissingKey(key: string)         // KeyError
    | BadIsoDate(name: string)        // datetime.fromisoformat on a value that is no instant
    | NotAList(key: string)           // .append on a section that is not a list
    | NotJoinable                     // ', '.join over something other than strings
    | NotIterable(key: string)        // list.extend with a value that cannot be iterated
    | EmptyPop                        // list.pop(0) on an empty list
    | DaysTooLarge(days: int)         // timedelta(days=...) beyond 999999999 days
    | DateOutOfRange                  // datetime arithmetic past datetime.min or datetime.max

  /** `str(e)` for the exception, as far as the model knows it. */
  function Describe(f: Failure): string
  {
    match f
    case NoSuchFile(n) => "[Errno 2] No such file or directory: '" + n + "'"
    case BadJson(n) => "Expecting value: " + n
    case NotADict(n) => "string indices must be integers: " + n
    case MissingKey(k) => "'" + k + "'"
    case BadIsoDate(n) => "Invalid isoformat string: " + n
    case NotAList(k) => "'" + k + "' object has no attribute 'append'"
    case NotJoinable => "sequence item 0: expected str instance"
    case NotIterable(k) => "'" + k + "' object is not iterable"
    case EmptyPop => "pop from empty list"
    case DaysTooLarge(d) => "days=" + IntToString(d) + "; must have magnitude <= 999999999"
    case DateOutOfRange => "date value out of range"
  }

  /** `d.get(key, default)` */
  function Get(d: Dict, key: string, default: Json): Json
  {
    if key in d then d[key] else default
  }

  /** The text an f-string interpolates for a value: a string stands for
      itself, anything else for its `repr`, which the caller supplies. */
  function Text(j: Json, repr: Json -> string): string
  {
    if j.JStr? then j.s else repr(j)
  }

  /** A JSON list of strings. */
  function Strs(xs: seq<string>): (j: Json)
    ensures j.JArr? && |j.items| == |xs|
  {
    JArr(seq(|xs|, i requires 0 <= i < |xs| => JStr(xs[i])))
  }

  /** `', '.join(j)`: a list of strings is joined; a string is iterated
      character by character; anything else raises TypeError. */
  function JoinText(j: Json): (r: Result<string, Failure>)
    ensures r.Err? <==> !(j.JStr? || (j.JArr? && AllStrings(j.items)))
  {
    match j
    case JStr(s) => Ok(Join(seq(|s|, i requires 0 <= i < |s| => [s[i]]), ", "))
    case JArr(items) =>
      if AllStrings(items)
      then Ok(Join(seq(|items|, i requires 0 <= i < |items| => items[i].s), ", "))
      else Err(NotJoinable)
    case _ => Err(NotJoinable)
  }

  predicate AllStrings(items: seq<Json>)
  {
    forall i :: 0 <= i < |items| ==> items[i].JStr?
  }

  /** What `list.extend(j)` adds: the items of a list, or the characters of a
      string; anything else is not iterable. */
  function Iterated(j: Json): (r: Option<seq<Json>>)
    ensures j.JArr? ==> r == Some(j.items)
    ensures j.JStr? ==> r.Some? && |r.value| == |j.s| && forall i :: 0 <= i < |j.s| ==> r.value[i] == JStr([j.s[i]])
    ensures r.Some? <==> j.JArr? || j.JStr?
  {
    match j
    case JArr(items) => Some(items)
    case JStr(s) => Some(seq(|s|, i requires 0 <= i < |s| => JStr([s[i]])))
    case _ => None
  }
}
