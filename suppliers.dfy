/**
 * Calling a registered supplier (`generators.get(clazz).get()`), and what each
 * kind of supplier can return.
 */
module Suppliers {
  import opened Wrappers
  import opened Types
  import Randomness
  import PrimitiveProvider
  import StringProvider

  /** `v` is a value `s.get()` can return. */
  ghost predicate Yields(s: Supplier, v: Value) {
    match s
    case Constant(x) => v == x
    case PrimitiveDraw(_, p) => PrimitiveProvider.InRange(p, v)
    case LowercaseString(_, maxLength) =>
      v.StringValue? && |v.s| < maxLength && StringProvider.IsLowercase(v.s)
  }

  method Supply(s: Supplier) returns (r: Result<Value, Error>)
    modifies s.Sources()
    ensures r.Ok? ==> Yields(s, r.value)
    ensures r.Err? <==> s.LowercaseString? && s.maxLength <= 0
    ensures r.Err? ==> r.error == NonPositiveBound(s.maxLength)
  {
    match s
    case Constant(x) =>
      r := Ok(x);
    case PrimitiveDraw(random, p) =>
      var v := PrimitiveProvider.Draw(random, p);
      r := Ok(v);
    case LowercaseString(random, maxLength) =>
      var str := StringProvider.NextLowercaseString(random, maxLength);
      r := if str.Ok? then Ok(StringValue(str.value)) else Err(str.error);
  }

  /** The string provider's supplier returns a `java.lang.String`. */
  lemma SuppliedStringIsString(random: Randomness.Random, maxLength: int, v: Value)
    requires Yields(LowercaseString(random, maxLength), v)
    ensures RuntimeClass(v) == Some(StringClassName)
  {}
}
