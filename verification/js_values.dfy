/** The few JavaScript value rules the services depend on. */
module JsValues {
  import opened Results

  /** A string-valued property that may be absent. */
  type Field = Option<string>

  /** `!!f`: an absent field and the empty string are falsy. */
  predicate Truthy(f: Field) {
    f.Some? && f.value != ""
  }

  /** `a || b` on two fields: the first one when it is truthy, else the second. */
  function Or(a: Field, b: Field): (r: Field)
    ensures Truthy(r) <==> Truthy(a) || Truthy(b)
    ensures Truthy(a) ==> r == a
    ensures !Truthy(a) ==> r == b
  {
    if Truthy(a) then a else b
  }

  /** A timestamp property. A `Date` object is truthy even when it is an
      Invalid Date built from a missing timestamp (`epochMs` is `None`); a raw
      number or string taken from a JSON body is falsy when it is 0 or "". */
  datatype Timestamp = Date(epochMs: Option<int>) | Millis(ms: int) | Text(text: string)

  /** `!!t` for a timestamp property that may be absent. */
  predicate TruthyTime(t: Option<Timestamp>) {
    match t
    case None => false
    case Some(Date(_)) => true
    case Some(Millis(ms)) => ms != 0
    case Some(Text(text)) => text != ""
  }

  /** A top-level key of a JSON patch body: absent, explicitly `null`, or given.
      Only a given value is truthy; `Object.assign` copies `null` but skips an
      absent key. */
  datatype Patch<+T> = Absent | Null | Given(value: T)
}
