/** Identifiers, results, storage defaults and the machine arithmetic of the runtime:
    u128 balances, i128 curve coordinates, and fixed-point numbers with 18 decimals
    that round down. */
module Primitives {

  datatype Account = Account(id: nat)
  datatype Currency = Currency(id: nat)
  type PositionId = int

  datatype Option<+T> = None | Some(value: T)

  datatype Error =
    | NotEnoughBalance
    | Expired
    | BelowMinimumMint
    | LockNotExist
    | ArgumentsError
    | ExceedsMaxPositions
    | NoController
    | Overflow
    | Underflow
    | GaugeRefused
    | ChannelNotExist
    | TransferError
    | InvalidCommissionRate
    | VtokenNotConfigured
    | ConversionFailed
    | AmountConversionFailed
    | RemovalNotComplete
    | CalculationOverflow
    | LessThanExpected
    | LessThanExistentialDeposit
    | LockRefused

  datatype Result<+T> = Ok(value: T) | Err(error: Error) {
    predicate IsFailure() {
      Err?
    }

    function PropagateFailure<U>(): Result<U> {
      match this
      case Err(e) => Err(e)
      case Ok(_) => Err(Overflow)
    }

    function Extract(): T
      requires Ok?
    {
      value
    }
  }

  /** The error of a call that fails. */
  function Refusal<T>(r: Result<T>): Option<Error> {
    if r.Err? then Some(r.error) else None
  }

  type pos = n: nat | 0 < n witness 1

  const U128_MAX: nat := 0xFFFF_FFFF_FFFF_FFFF_FFFF_FFFF_FFFF_FFFF
  const I128_MAX: int := 0x7FFF_FFFF_FFFF_FFFF_FFFF_FFFF_FFFF_FFFF
  /** One, as the inner value of a fixed-point number. */
  const ONE: pos := 1_000_000_000_000_000_000

  /** The value of a checked u128 operation whose exact result is `x`. */
  function U128(x: int): Result<nat> {
    if 0 <= x <= U128_MAX then Ok(x) else Err(Overflow)
  }

  /** The value of a checked i128 operation whose exact result is `x`. */
  function I128(x: int): Result<int> {
    if -I128_MAX - 1 <= x <= I128_MAX then Ok(x) else Err(Overflow)
  }

  /** A u128 amount. */
  type Balance = n: nat | n <= U128_MAX

  function SatAdd(x: nat, y: nat): Balance {
    if x + y <= U128_MAX then x + y else U128_MAX
  }

  function SatSub(x: nat, y: nat): nat {
    if y <= x then x - y else 0
  }

  function Min(x: nat, y: nat): nat {
    if x <= y then x else y
  }

  function Max0(x: int): nat {
    if x < 0 then 0 else x
  }

  /** A storage read with the default that an absent entry stands for. */
  function Get<K, V>(m: map<K, V>, k: K, default: V): V {
    if k in m then m[k] else default
  }

  /** Product of two factors divided by a third, rounded down. */
  function MulDiv(x: nat, y: nat, d: pos): nat {
    x * y / d
  }

  lemma MulMono(x: int, y: int, c: nat)
    requires x <= y
    ensures c * x <= c * y
  {
  }

  lemma DivMono(x: int, y: int, d: pos)
    requires x <= y
    ensures x / d <= y / d
  {
    if x / d > y / d {
      MulMono(y / d + 1, x / d, d);
    }
  }

  lemma MulDivBound(x: nat, d: pos)
    ensures d * (x / d) <= x < d * (x / d) + d
  {
  }

  lemma MulDivLe(x: nat, y: nat, d: pos)
    requires x <= d
    ensures MulDiv(x, y, d) <= y
  {
    MulMono(x, d, y);
    DivMono(x * y, d * y, d);
    DivExact(y, d);
  }

  lemma DivExact(y: int, d: pos)
    ensures (d * y) / d == y
  {
    var q := (d * y) / d;
    assert d * y - d * q == (d * y) % d && d * (y - q) == d * y - d * q;
    if q < y {
      MulMono(1, y - q, d);
    } else if y < q {
      MulMono(1, q - y, d);
    }
  }
}
