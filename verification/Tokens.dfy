/** Free balances of all currencies, and what a transfer does to them. */
module Tokens {
  import opened Primitives

  type Holdings = map<(Currency, Account), Balance>

  function Held(free: Holdings, c: Currency, who: Account): Balance {
    Get(free, (c, who), 0)
  }

  function HeldBy(free: Holdings, who: Account): Currency -> nat {
    c => Held(free, c, who)
  }

  /** What an account holds of the listed currencies. */
  function PutIn(free: Holdings, from: Account, list: seq<Currency>): Currency -> nat {
    c => if c in list then Held(free, c, from) else 0
  }

  /** A transfer that goes through. Sending nothing, or to oneself, has no effect. */
  function Sent(free: Holdings, c: Currency, from: Account, to: Account, amount: nat): Holdings
    requires amount <= Held(free, c, from) || from == to
  {
    if amount == 0 || from == to then free
    else free[(c, from) := Held(free, c, from) - amount][(c, to) := SatAdd(Held(free, c, to), amount)]
  }

  /** The receiver's balance fits. */
  predicate CanReceive(free: Holdings, c: Currency, from: Account, to: Account, amount: nat) {
    amount == 0 || from == to || Held(free, c, to) + amount <= U128_MAX
  }

  /** Nobody but the sender of a transfer has less after it. */
  lemma SentGrows(free: Holdings, c: Currency, from: Account, to: Account, amount: nat)
    requires amount <= Held(free, c, from) || from == to
    ensures var free' := Sent(free, c, from, to, amount);
      && (forall c', u :: c' != c || u != from ==> Held(free, c', u) <= Held(free', c', u))
      && Held(free, c, from) <= Held(free', c, from) + amount
  {
  }

  /** Of currency c, amount x has moved from one account to the other, and nothing else. */
  ghost predicate Moved(free: Holdings, free': Holdings, from: Account, to: Account, x: nat, c: Currency) {
    && Held(free', c, from) + x == Held(free, c, from)
    && Held(free', c, to) == Held(free, c, to) + x
    && forall u :: u != from && u != to ==> Held(free', c, u) == Held(free, c, u)
  }

  /** A transfer that the receiver can take moves its amount, and nothing else. */
  lemma SentMoves(free: Holdings, c: Currency, from: Account, to: Account, amount: nat)
    requires amount <= Held(free, c, from) && from != to && Held(free, c, to) + amount <= U128_MAX
    ensures var free' := Sent(free, c, from, to, amount);
      && Held(free', c, from) + amount == Held(free, c, from) && Held(free', c, to) == Held(free, c, to) + amount
      && forall d, u :: d != c || (u != from && u != to) ==> Held(free', d, u) == Held(free, d, u)
    ensures CanReceive(free, c, from, to, amount)
  {
  }

  /** Moving one currency more. */
  lemma NextMoved(free: Holdings, mid: Holdings, after: Holdings, from: Account, to: Account,
                  x: Currency -> nat, x': Currency -> nat, c: Currency)
    requires from != to && forall d :: Moved(free, mid, from, to, x(d), d)
    requires x(c) == 0 && forall d :: d != c ==> x'(d) == x(d)
    requires x'(c) <= Held(mid, c, from) && (x'(c) == 0 || Held(mid, c, to) + x'(c) <= U128_MAX)
    requires after == Sent(mid, c, from, to, x'(c))
    ensures forall d :: Moved(free, after, from, to, x'(d), d)
  {
    forall d
      ensures Moved(free, after, from, to, x'(d), d)
    {
      assert Moved(free, mid, from, to, x(d), d);
    }
  }

  /** The amounts of the currencies that are not waiting. */
  function Without(due: map<Currency, Balance>, todo: set<Currency>): Currency -> nat {
    c => if c in todo then 0 else Get(due, c, 0)
  }

  /** A transfer between accounts without locks. */
  function TryTransfer(free: Holdings, c: Currency, from: Account, to: Account, amount: nat): (r: Result<Holdings>)
    ensures r.Ok? ==> (amount <= Held(free, c, from) || from == to) && r.value == Sent(free, c, from, to, amount)
    ensures r.Ok? && amount != 0 && from != to ==> Held(free, c, to) + amount <= U128_MAX
    ensures r.Ok? <==>
      amount == 0 || from == to || (amount <= Held(free, c, from) && Held(free, c, to) + amount <= U128_MAX)
    ensures r.Err? ==> r.error == if Held(free, c, from) < amount then NotEnoughBalance else Overflow
  {
    if amount == 0 || from == to then Ok(free)
    else if Held(free, c, from) < amount then Err(NotEnoughBalance)
    else if Held(free, c, to) + amount > U128_MAX then Err(Overflow)
    else Ok(Sent(free, c, from, to, amount))
  }
}
