/** The loosely typed records that hooks exchange: a Swift `[String: Any]`
    becomes a map from field name to a tagged union of the value kinds the
    install code casts to, and every `as?` cast becomes a partial accessor. */
module Values {

  datatype Option<+T> = None | Some(value: T) {
    /** Swift's `x ?? default`. */
    function GetOr(default: T): T {
      match this
      case Some(v) => v
      case None => default
    }
  }

  /** Swift's `Int` on the 64-bit platforms the system targets. */
  newtype Int64 = x: int | -0x8000_0000_0000_0000 <= x < 0x8000_0000_0000_0000

  /** A value of static type `Any`. `VOther` stands for every value that is
      neither a `String`, an `Int` nor a `Bool` (a `Double`, an array, a
      dictionary, `NSNull`, ...): no cast used by the install code accepts it. */
  datatype Value = VStr(str: string) | VInt(num: Int64) | VBool(flag: bool) | VOther

  /** `[String: Any]`. */
  type Record = map<string, Value>

  /** `rec[key] as? String`: absent or of another kind gives nothing. */
  function StringField(rec: Record, key: string): (r: Option<string>)
    ensures forall s :: r == Some(s) <==> key in rec && rec[key] == VStr(s)
  {
    if key in rec && rec[key].VStr? then Some(rec[key].str) else None
  }

  /** `rec[key] as? String` followed by the guard `!s.isEmpty`. */
  function NonEmptyStringField(rec: Record, key: string): Option<string> {
    match StringField(rec, key)
    case Some(s) => if s != "" then Some(s) else None
    case None => None
  }

  /** `rec[key] as? Bool`. */
  function BoolField(rec: Record, key: string): (r: Option<bool>)
    ensures forall b :: r == Some(b) <==> key in rec && rec[key] == VBool(b)
  {
    if key in rec && rec[key].VBool? then Some(rec[key].flag) else None
  }

  /** `rec[key] as? Int`. */
  function IntField(rec: Record, key: string): (r: Option<Int64>)
    ensures forall n :: r == Some(n) <==> key in rec && rec[key] == VInt(n)
  {
    if key in rec && rec[key].VInt? then Some(rec[key].num) else None
  }

  /** The field is present, holds a `String`, and that string is not empty:
      what the guards of the install code demand of a required field. */
  ghost predicate HasNonEmptyString(rec: Record, key: string) {
    key in rec && rec[key].VStr? && |rec[key].str| > 0
  }

  /** Two records that agree on every field in `keys`: presence and value. */
  ghost predicate AgreeOn(a: Record, b: Record, keys: set<string>) {
    forall k :: k in keys ==> (k in a <==> k in b) && (k in a ==> a[k] == b[k])
  }
}
