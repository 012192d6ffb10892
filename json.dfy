/** A decoded JSON document, as `encoding/json` hands it to `interface{}`:
    numbers are float64 in the source and are carried here as opaque reals
    (the SDK does no arithmetic on them). */
module Json {
  datatype Value =
    | Null
    | Bool(b: bool)
    | Num(n: real)
    | Str(s: string)
    | Arr(items: seq<Value>)
    | Obj(fields: map<string, Value>)

  /** A string slice as JSON marshals it. */
  function Strings(ss: seq<string>): (v: Value)
    ensures v.Arr? && |v.items| == |ss|
    ensures forall i :: 0 <= i < |ss| ==> v.items[i] == Str(ss[i])
  {
    Arr(seq(|ss|, i requires 0 <= i < |ss| => Str(ss[i])))
  }
}
