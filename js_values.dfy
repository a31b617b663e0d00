/**
 The few JavaScript value rules the customiser relies on: a field that may be
 absent or null, a number that may be NaN (what `parseFloat` gives for an
 empty input), and the `||` operator, which replaces a falsy left operand
 (absent, null, "", 0 or NaN) by its right operand.
 */
module JsValues {

  datatype Option<+T> = None | Some(value: T)

  /** A JavaScript number as the tile-scale inputs produce it. */
  datatype Num = Num(value: real) | NaN

  /** Truthiness of a string that may be absent or null. */
  predicate TruthyStr(o: Option<string>) {
    o.Some? && o.value != ""
  }

  /** Truthiness of a number that may be absent: NaN and 0 are falsy. */
  predicate TruthyNum(o: Option<Num>) {
    o.Some? && o.value.Num? && o.value.value != 0.0
  }

  /** `o || d` for a string operand and a string default. */
  function StrOr(o: Option<string>, d: string): string
  {
    if TruthyStr(o) then o.value else d
  }

  /** `o || null` for a string operand: falsy strings collapse to null. */
  function StrOrNull(o: Option<string>): (r: Option<string>)
    ensures r.Some? <==> TruthyStr(o)
    ensures r.Some? ==> r == o
  {
    if TruthyStr(o) then o else None
  }

  /** `o || d` for a numeric operand and a numeric default. */
  function NumOr(o: Option<Num>, d: real): Num
  {
    if TruthyNum(o) then o.value else Num(d)
  }
}
