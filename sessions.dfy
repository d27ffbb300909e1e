/**
 * The per-call session store: `PBXHandler.current_calls`, a dictionary from
 * call id to a dictionary from field name to the last value written there.
 * Inputs arrive as strings, but the flow also writes ints (cursor and counts),
 * the list of birth years, and `None` (a skipped client id).
 */
module Sessions {
  import opened Wrappers
  import opened Digits

  /** A Python value as it can sit in a session dictionary. */
  datatype Value = Str(s: string) | Int(n: int) | IntList(items: seq<int>) | Null

  type Session = map<string, Value>
  type Calls = map<string, Session>

  const PhoneKey := "PBXphone"
  const CallIdKey := "PBXcallId"
  const ChildrenCountKey := "children_count"
  const CurrentChildKey := "current_child"
  const BirthYearsKey := "children_birth_years"
  const Spouse1Key := "spouse1_workplaces"
  const Spouse2Key := "spouse2_workplaces"
  const ClientPhoneKey := "client_phone"
  const ClientTzKey := "client_tz"
  const AmountKey := "receiptAmount"

  /** Python truthiness. */
  predicate Truthy(v: Value)
  {
    match v
    case Str(s) => s != []
    case Int(n) => n != 0
    case IntList(xs) => xs != []
    case Null => false
  }

  /** `current_calls.get(call_id, {})`: the call's session, empty when there is none. */
  function SessionOf(calls: Calls, callId: string): (cd: Session)
    ensures callId in calls ==> cd == calls[callId]
    ensures callId !in calls ==> cd == map[]
  {
    if callId in calls then calls[callId] else map[]
  }

  /** `cd.get(key, default)`. */
  function GetOr(cd: Session, key: string, default: Value): (v: Value)
    ensures key in cd ==> v == cd[key]
    ensures key !in cd ==> v == default
  {
    if key in cd then cd[key] else default
  }

  /** `cd.get(key)`: `None` when the key is absent. */
  function Get(cd: Session, key: string): Value
  {
    GetOr(cd, key, Null)
  }

  /**
   * `int(v)` for a value read back from a session: strings are parsed, ints
   * are kept, and a list or `None` is a TypeError (`None` here).
   */
  function IntOf(v: Value): (r: Option<int>)
    ensures v.Int? ==> r == Some(v.n)
    ensures v.IntList? || v.Null? ==> r.None?
  {
    match v
    case Str(s) => ParseInt(s)
    case Int(n) => Some(n)
    case _ => None
  }

  /**
   * Python's `a < b` between two session values: ints and strings compare
   * among themselves, any other pairing raises TypeError (`None` here).
   * Lists never reach the keys this is applied to (see `WellShaped`).
   */
  function PyLess(a: Value, b: Value): (r: Option<bool>)
    ensures r.Some? <==> (a.Int? && b.Int?) || (a.Str? && b.Str?)
    ensures a.Int? && b.Int? ==> r == Some(a.n < b.n)
  {
    if a.Int? && b.Int? then Some(a.n < b.n)
    else if a.Str? && b.Str? then Some(LexLess(a.s, b.s))
    else None
  }

  /** Which kinds of value the flow ever writes under which key. */
  ghost predicate ShapeOk(key: string, v: Value)
  {
    match v
    case Str(_) => true
    case Int(_) => key in {ChildrenCountKey, CurrentChildKey, Spouse1Key, Spouse2Key}
    case IntList(_) => key == BirthYearsKey
    case Null => key == ClientTzKey
  }

  /** A session holds only values of the kinds `ShapeOk` allows. */
  ghost predicate SessionShaped(cd: Session)
  {
    forall key | key in cd :: ShapeOk(key, cd[key])
  }

  /**
   * Every session is `SessionShaped`; in particular the caller's phone, the
   * client phone and the amount are always strings when present.
   */
  ghost predicate WellShaped(calls: Calls)
  {
    forall id | id in calls :: SessionShaped(calls[id])
  }

  /** `calls` keeps every session and every field of `calls0`: nothing is deleted. */
  ghost predicate Grows(calls0: Calls, calls: Calls)
  {
    && calls0.Keys <= calls.Keys
    && forall id | id in calls0 :: calls0[id].Keys <= calls[id].Keys
  }
}
