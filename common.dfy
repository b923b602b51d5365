/** Values shared by the order modules: optional values, outcomes with the
    errors the order code raises or returns, and Python's decimal rendering
    of an integer (`str(n)`, `f'{n}'`). */
module Common {

  datatype Option<T> = None | Some(value: T) {
    /** The value when present, otherwise `default` (Python's `x if x is not None else default`). */
    function GetOr(default: T): T {
      match this
      case Some(v) => v
      case None => default
    }
  }

  datatype Result<T> = Success(value: T) | Failure(error: Error)

  /** The failures the order code can end in. */
  datatype Error =
    | SellerDoesNotExist   // Seller.objects.get raised Seller.DoesNotExist
    | BuyerDoesNotExist    // Buyer.objects.get raised Buyer.DoesNotExist
    | ProductDoesNotExist  // Product.objects.get raised Product.DoesNotExist
    | OrderDoesNotExist    // Order.objects.get raised Order.DoesNotExist
    | OrderNotFound        // the value Exception("Order not found") RETURNED by a resolver
    | IntegrityError       // the database refused a write (unique, foreign key, check, not null)
    | ValueError           // list.remove of an element that is not in the list

  type Id = nat

  /** The decimal digit character of `d`. */
  function DigitChar(d: nat): (c: char)
    requires d < 10
    ensures '0' <= c <= '9' && c as int - '0' as int == d
  {
    ('0' as int + d) as char
  }

  predicate IsDigits(s: string) {
    forall i :: 0 <= i < |s| ==> '0' <= s[i] <= '9'
  }

  /** The number a string of decimal digits spells, most significant digit
      first (Python's `int(s)` on such a string). */
  function DigitsValue(s: string): nat
    requires IsDigits(s)
  {
    if s == [] then 0 else 10 * DigitsValue(s[..|s| - 1]) + (s[|s| - 1] as int - '0' as int)
  }

  /** Python's `str(n)` for a non-negative integer: the digits that spell `n`,
      most significant first, with no leading zero. */
  function Decimal(n: nat): (s: string)
    ensures 1 <= |s| && IsDigits(s)
    ensures DigitsValue(s) == n
    ensures s[0] == '0' <==> n == 0
    ensures n < 10 <==> |s| == 1
  {
    if n < 10 then
      var s := [DigitChar(n)];
      assert s[..0] == [];
      s
    else
      var s := Decimal(n / 10) + [DigitChar(n % 10)];
      assert s[..|s| - 1] == Decimal(n / 10);
      s
  }

  /** Distinct numbers render as distinct strings, so an identifier rendered
      with `str` (a group name, a broadcast's order id) names one record. */
  lemma DecimalInjective(a: nat, b: nat)
    requires Decimal(a) == Decimal(b)
    ensures a == b
  {
  }
}
