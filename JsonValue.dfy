/**
  The untyped JSON values that `NSJSONSerialization` hands to the decoders, and the
  Swift casts (`as? String`, `as? Int`, `as? [String:AnyObject]`,
  `as? [[String:AnyObject]]`) the decoders apply to them.
 */
module JsonValue {
  import opened Wrappers

  datatype Json =
    | JNull
    | JBool(b: bool)
    | JInt(n: int)
    | JStr(str: string)
    | JArr(items: seq<Json>)
    | JObj(fields: map<string, Json>)

  /** A JSON object, Swift's `[String:AnyObject]`. */
  type Object = map<string, Json>

  /** `d[key] as? String` succeeds. */
  predicate HasString(d: Object, key: string) {
    key in d && d[key].JStr?
  }

  /** `d[key] as? Int` succeeds (NSNumber bridging of booleans and floats is not modelled). */
  predicate HasInt(d: Object, key: string) {
    key in d && d[key].JInt?
  }

  /** `d[key] as? [String:AnyObject]` succeeds. */
  predicate HasObject(d: Object, key: string) {
    key in d && d[key].JObj?
  }

  /** `d[key] as? [[String:AnyObject]]` succeeds: an array all of whose elements are objects. */
  predicate HasObjectArray(d: Object, key: string) {
    key in d && d[key].JArr? && forall i :: 0 <= i < |d[key].items| ==> d[key].items[i].JObj?
  }

  /** `d[key] as? String ?? default` */
  function StringOr(d: Object, key: string, default: string): string {
    if HasString(d, key) then d[key].str else default
  }

  /** `d[key] as? Int ?? default` */
  function IntOr(d: Object, key: string, default: int): int {
    if HasInt(d, key) then d[key].n else default
  }

  /**
    The element-wise cast of an array to `[[String:AnyObject]]`: it succeeds only when
    every element is an object, and then keeps length and order.
   */
  function CastObjects(items: seq<Json>): (r: Option<seq<Object>>)
    ensures r.Some? <==> forall i :: 0 <= i < |items| ==> items[i].JObj?
    ensures r.Some? ==> |r.value| == |items|
    ensures r.Some? ==> forall i :: 0 <= i < |items| ==> r.value[i] == items[i].fields
  {
    if items == [] then Some([])
    else if !items[0].JObj? then None
    else match CastObjects(items[1..]) {
      case None => None
      case Some(rest) => Some([items[0].fields] + rest)
    }
  }

  /** `d[key] as? [[String:AnyObject]]` */
  function ObjectArrayAt(d: Object, key: string): (r: Option<seq<Object>>)
    ensures r.Some? <==> HasObjectArray(d, key)
    ensures r.Some? ==> |r.value| == |d[key].items|
    ensures r.Some? ==> forall i :: 0 <= i < |r.value| ==> r.value[i] == d[key].items[i].fields
  {
    if key in d && d[key].JArr? then CastObjects(d[key].items) else None
  }
}
