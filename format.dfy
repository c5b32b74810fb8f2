/**
 * What a view puts in place of a number. `Number.prototype.toFixed` is kept abstract: a
 * formatted value is the number together with its count of decimals. Optional chaining on a
 * missing field (`data?.x?.toFixed(1)`) yields `undefined`, which renders as nothing.
 */
module Format {
  import opened Wrappers

  datatype Text = Dashes | Undefined | Fixed(value: real, digits: nat)

  /** `v?.toFixed(digits)` */
  function ToFixed(v: Option<real>, digits: nat): (t: Text)
    ensures t != Dashes
    ensures t.Fixed? <==> v.Some?
    ensures t.Fixed? ==> t.value == v.value && t.digits == digits
  {
    match v
    case Some(x) => Fixed(x, digits)
    case None => Undefined
  }
}
