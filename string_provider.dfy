/**
 * `StringGeneratorsProvider`: a single supplier, built once, that draws a
 * lower-case ASCII string shorter than `maxLength`.
 */
module StringProvider {
  import opened Wrappers
  import opened Randomness
  import opened Types

  /** Every character is one of 'a'..'z'. */
  predicate IsLowercase(s: string) {
    forall i :: 0 <= i < |s| ==> 'a' <= s[i] <= 'z'
  }

  /**
   * One call of the supplier: draw a length in [0, maxLength), then append
   * that many letters, each `'a' + nextInt(26)`. `nextInt` rejects a
   * non-positive bound before drawing, so a provider built with
   * `maxLength <= 0` fails on every call and leaves the `Random` untouched.
   */
  method NextLowercaseString(random: Random, maxLength: int) returns (r: Result<string, Error>)
    modifies random
    ensures r.Err? <==> maxLength <= 0
    ensures r.Err? ==> r.error == NonPositiveBound(maxLength) && unchanged(random)
    ensures r.Ok? ==> |r.value| == BoundedDraw(Draw31(Advance(old(random.seed))), maxLength)
    ensures r.Ok? ==> |r.value| < maxLength && IsLowercase(r.value)
  {
    if maxLength <= 0 {
      return Err(NonPositiveBound(maxLength));
    }
    var length := random.NextIntBelow(maxLength);
    var sb: string := [];
    for i := 0 to length
      invariant |sb| == i && IsLowercase(sb)
    {
      var letter := random.NextIntBelow(26);
      sb := sb + [('a' as int + letter) as char];
    }
    r := Ok(sb);
  }

  class StringGeneratorsProvider {
    /** The one supplier, built by the constructor and handed out by every `getGenerators` call. */
    const stringSupplier: Supplier

    constructor (random: Random, maxLength: int)
      ensures stringSupplier == LowercaseString(random, maxLength)
    {
      stringSupplier := LowercaseString(random, maxLength);
    }

    function GetGenerators(): (m: Registry)
      ensures |m| == 1 && StringClassName in m
      ensures m[StringClassName] == stringSupplier
    {
      map[StringClassName := stringSupplier]
    }
  }
}
