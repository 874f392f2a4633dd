/** Markup: tokens locked beside a position raise its weight. Each account's coefficient is the sum of
    what its locked tokens give, and each token's total is the sum of what is locked of it. */
module MarkupLedger {
  import opened Primitives
  import opened Sums

  datatype CoefficientInfo = CoefficientInfo(weight: nat, hardcap: Balance, updateBlock: nat, shareWeight: nat)
  datatype UserInfo = UserInfo(before: Balance, coefficient: Balance)
  datatype LockedToken = LockedToken(amount: Balance, coefficient: Balance, refreshBlock: nat)

  const NO_INFO := UserInfo(0, 0)
  const NO_TOKEN := LockedToken(0, 0, 0)

  type Key = (Currency, Account)
  type Users = map<Account, UserInfo>
  type LockedTokens = map<Key, LockedToken>
  type Totals = map<Currency, Balance>

  // ---- The coefficient -----------------------------------------------------------------

  /** A quotient as a fixed-point number. */
  function Ratio(x: nat, y: nat): Result<Balance> {
    if y == 0 then Err(Overflow) else
      var q :- U128(ONE * x / y);
      Ok(q)
  }

  function FixedMul(x: nat, y: nat): Result<Balance> {
    var p :- U128(x * y / ONE);
    Ok(p)
  }

  /** The coefficient for `amount` locked out of `total`, with `issuance` of the token in existence:
      a part for the share of what is locked, a part for the share of what exists, at most the cap. */
  function Coefficient(info: CoefficientInfo, amount: nat, total: nat, issuance: nat): (r: Result<Balance>)
    ensures r.Ok? ==> r.value <= info.hardcap
  {
    var share :- Ratio(amount, total);
    var left :- FixedMul(info.shareWeight, share);
    var part :- Ratio(amount, issuance);
    var right :- FixedMul(part, info.weight);
    var sum :- U128(left + right);
    Ok(Min(info.hardcap, sum))
  }

  /** A coefficient x as it should be, up to rounding: `shareWeight` for the share of what is locked and `weight` for
      the share of what exists. It is never more than that, and below the cap it falls short by less than two units
      and one for each whole weight. */
  predicate Measures(info: CoefficientInfo, amount: nat, total: nat, issuance: nat, x: nat) {
    var exact := amount * (info.shareWeight * issuance + info.weight * total);
    && 0 < total && 0 < issuance && x <= info.hardcap && total * issuance * x <= exact
    && (x < info.hardcap ==> ONE * exact < total * issuance * (ONE * (x + 2) + info.shareWeight + info.weight))
  }

  lemma WeightedShare(w: nat, amount: nat, total: pos) returns (x: nat)
    ensures x == w * (ONE * amount / total) / ONE
    ensures total * x <= w * amount && ONE * (w * amount) < total * (ONE * x + ONE + w)
  {
    var share := ONE * amount / total;
    x := w * share / ONE;
    MulDivBound(ONE * amount, total);
    MulDivBound(w * share, ONE);
    MulMono(total * share, ONE * amount, w);
    MulMono(ONE * amount, total * share + total, w);
    MulMono(ONE * x, w * share, total);
    MulMono(w * share + 1, ONE * x + ONE, total);
    Distribute(w, total * share, total);
    assert w * (total * share) == total * (w * share) && w * (ONE * amount) == ONE * (w * amount);
    assert total * (ONE * x) == ONE * (total * x);
    CancelFactor(ONE, total * x, w * amount);
    Distribute(total, w * share, 1);
    Distribute(total, ONE * x + ONE, w);
  }

  /** Two fractions over different denominators, added up. */
  lemma OverBoth(x: int, total: int, y: int, issuance: int, sw: int, w: int, amount: int)
    ensures issuance * (total * x) + total * (issuance * y) == total * issuance * (x + y)
    ensures issuance * (sw * amount) + total * (w * amount) == amount * (sw * issuance + w * total)
  {
    assert issuance * (total * x) == total * issuance * x && total * (issuance * y) == total * issuance * y;
    Distribute(total * issuance, x, y);
    assert issuance * (sw * amount) == amount * (sw * issuance) && total * (w * amount) == amount * (w * total);
    Distribute(amount, sw * issuance, w * total);
  }

  lemma CombinedShare(sw: nat, w: nat, amount: nat, total: pos, issuance: pos, left: nat, right: nat)
    requires total * left <= sw * amount && issuance * right <= w * amount
    ensures total * issuance * (left + right) <= amount * (sw * issuance + w * total)
  {
    MulMono(total * left, sw * amount, issuance);
    MulMono(issuance * right, w * amount, total);
    OverBoth(left, total, right, issuance, sw, w, amount);
  }

  lemma CombinedRest(sw: nat, w: nat, amount: nat, total: pos, issuance: pos, x: nat, y: nat)
    requires ONE * (sw * amount) < total * x && ONE * (w * amount) < issuance * y
    ensures ONE * (amount * (sw * issuance + w * total)) < total * issuance * (x + y)
  {
    MulMono(ONE * (sw * amount) + 1, total * x, issuance);
    MulMono(ONE * (w * amount) + 1, issuance * y, total);
    Distribute(issuance, ONE * (sw * amount), 1);
    Distribute(total, ONE * (w * amount), 1);
    OverBoth(x, total, y, issuance, ONE * sw, ONE * w, amount);
    OverBoth(0, total, 0, issuance, sw, w, amount);
    assert issuance * (ONE * sw * amount) + total * (ONE * w * amount)
        == ONE * (issuance * (sw * amount) + total * (w * amount));
  }

  lemma CoefficientValue(info: CoefficientInfo, amount: nat, total: nat, issuance: nat)
    requires Coefficient(info, amount, total, issuance).Ok?
    ensures 0 < total && 0 < issuance
    ensures Coefficient(info, amount, total, issuance).value
         == Min(info.hardcap, info.shareWeight * (ONE * amount / total) / ONE
                            + info.weight * (ONE * amount / issuance) / ONE)
  {
  }

  lemma CappedMeasures(info: CoefficientInfo, amount: nat, total: pos, issuance: pos, left: nat, right: nat)
    requires var exact := amount * (info.shareWeight * issuance + info.weight * total);
      && total * issuance * (left + right) <= exact
      && ONE * exact < total * issuance * (ONE * left + ONE + info.shareWeight + (ONE * right + ONE + info.weight))
    ensures Measures(info, amount, total, issuance, Min(info.hardcap, left + right))
  {
    var x := Min(info.hardcap, left + right);
    MulMono(x, left + right, total * issuance);
    assert ONE * left + ONE + info.shareWeight + (ONE * right + ONE + info.weight)
        == ONE * (left + right + 2) + info.shareWeight + info.weight;
  }

  lemma BothMeasure(info: CoefficientInfo, amount: nat, total: pos, issuance: pos, left: nat, right: nat)
    requires var sw := info.shareWeight;
      total * left <= sw * amount && ONE * (sw * amount) < total * (ONE * left + ONE + sw)
    requires var w := info.weight;
      issuance * right <= w * amount && ONE * (w * amount) < issuance * (ONE * right + ONE + w)
    ensures Measures(info, amount, total, issuance, Min(info.hardcap, left + right))
  {
    var sw, w := info.shareWeight, info.weight;
    CombinedShare(sw, w, amount, total, issuance, left, right);
    CombinedRest(sw, w, amount, total, issuance, ONE * left + ONE + sw, ONE * right + ONE + w);
    CappedMeasures(info, amount, total, issuance, left, right);
  }

  lemma CoefficientMeasures(info: CoefficientInfo, amount: nat, total: nat, issuance: nat)
    requires Coefficient(info, amount, total, issuance).Ok?
    ensures Measures(info, amount, total, issuance, Coefficient(info, amount, total, issuance).value)
  {
    CoefficientValue(info, amount, total, issuance);
    var left := WeightedShare(info.shareWeight, amount, total);
    var right := WeightedShare(info.weight, amount, issuance);
    BothMeasure(info, amount, total, issuance, left, right);
  }

  /** In numbers: all of the 100 that are locked, out of 1000, with half a unit for the one share and a whole one for
      the other. */
  lemma CoefficientInNumbers()
    ensures Coefficient(CoefficientInfo(ONE, 2 * ONE, 0, ONE / 2), 100, 100, 1000) == Ok(600_000_000_000_000_000)
  {
    assert Ratio(100, 100) == Ok(ONE) && Ratio(100, 1000) == Ok(ONE / 10);
  }

  /** A share is at most one. */
  lemma ShareAtMostOne(amount: nat, total: pos)
    requires amount <= total
    ensures Ratio(amount, total).Ok? && Ratio(amount, total).value <= ONE
  {
    MulMono(amount, total, ONE);
    DivMono(ONE * amount, total * ONE, total);
    DivExact(ONE, total);
  }

  /** The amount, which is part of what is locked, is there and in existence, and the weights fit together. */
  predicate Computable(info: CoefficientInfo, amount: nat, issuance: nat) {
    0 < amount <= issuance && info.shareWeight + info.weight <= U128_MAX
  }

  lemma PartWithinWeight(share: nat, w: nat)
    requires share <= ONE && w <= U128_MAX
    ensures FixedMul(w, share).Ok? && FixedMul(w, share).value <= w
    ensures FixedMul(share, w).Ok? && FixedMul(share, w).value <= w
  {
    MulDivLe(share, w, ONE);
    assert w * share == share * w;
  }

  /** With shares that are at most one and weights that fit together there is a coefficient. */
  lemma CoefficientComputes(info: CoefficientInfo, amount: nat, total: pos, issuance: pos)
    requires amount <= total && amount <= issuance && info.shareWeight + info.weight <= U128_MAX
    ensures Coefficient(info, amount, total, issuance).Ok?
  {
    ShareAtMostOne(amount, total);
    ShareAtMostOne(amount, issuance);
    PartWithinWeight(Ratio(amount, total).value, info.shareWeight);
    PartWithinWeight(Ratio(amount, issuance).value, info.weight);
  }

  // ---- The two ledgers -----------------------------------------------------------------

  function AmountTerm(locks: LockedTokens): Key -> int {
    key => Get(locks, key, NO_TOKEN).amount
  }

  function CoefficientTerm(locks: LockedTokens): Key -> int {
    key => Get(locks, key, NO_TOKEN).coefficient
  }

  function TokenOf(): Key -> Currency {
    (key: Key) => key.0
  }

  function HolderOf(): Key -> Account {
    (key: Key) => key.1
  }

  /** What is locked of token c. */
  ghost function LockedOf(locks: LockedTokens, c: Currency): int {
    OwnerSum(locks.Keys, TokenOf(), AmountTerm(locks))(c)
  }

  /** What an account's locked tokens give it. */
  ghost function GivenTo(locks: LockedTokens, who: Account): int {
    OwnerSum(locks.Keys, HolderOf(), CoefficientTerm(locks))(who)
  }

  ghost predicate TotalRight(locks: LockedTokens, totals: Totals, c: Currency) {
    Get(totals, c, 0) == LockedOf(locks, c)
  }

  ghost predicate CoefficientRight(locks: LockedTokens, users: Users, who: Account) {
    Get(users, who, NO_INFO).coefficient == GivenTo(locks, who)
  }

  predicate Known(locks: LockedTokens, users: Users, key: Key) {
    key in locks ==> key.1 in users
  }

  ghost predicate TotalsRight(locks: LockedTokens, totals: Totals) {
    forall c :: TotalRight(locks, totals, c)
  }

  ghost predicate CoefficientsRight(locks: LockedTokens, users: Users) {
    (forall who :: CoefficientRight(locks, users, who)) && forall key :: Known(locks, users, key)
  }

  lemma LockedUpdate(locks: LockedTokens, locks': LockedTokens, key: Key, c: Currency)
    requires locks'.Keys == locks.Keys + {key}
    requires forall j :: j in locks && j != key ==> locks'[j] == locks[j]
    ensures LockedOf(locks', c) == LockedOf(locks, c)
         + (if key.0 == c then locks'[key].amount - Get(locks, key, NO_TOKEN).amount else 0)
  {
    forall j | j in locks.Keys && j != key
      ensures AmountTerm(locks)(j) == AmountTerm(locks')(j)
    {
      assert locks'[j] == locks[j];
    }
    OwnerSumUpdate(locks.Keys, TokenOf(), AmountTerm(locks), locks'.Keys, TokenOf(), AmountTerm(locks'), key, c);
  }

  lemma GivenUpdate(locks: LockedTokens, locks': LockedTokens, key: Key, who: Account)
    requires locks'.Keys == locks.Keys + {key}
    requires forall j :: j in locks && j != key ==> locks'[j] == locks[j]
    ensures GivenTo(locks', who) == GivenTo(locks, who)
         + (if key.1 == who then locks'[key].coefficient - Get(locks, key, NO_TOKEN).coefficient else 0)
  {
    forall j | j in locks.Keys && j != key
      ensures CoefficientTerm(locks)(j) == CoefficientTerm(locks')(j)
    {
      assert locks'[j] == locks[j];
    }
    OwnerSumUpdate(locks.Keys, HolderOf(), CoefficientTerm(locks), locks'.Keys, HolderOf(), CoefficientTerm(locks'),
                   key, who);
  }

  /** An entry that holds nothing may be left out. */
  lemma EntryGone(locks: LockedTokens, key: Key, c: Currency, who: Account)
    requires key in locks && locks[key].amount == 0 && locks[key].coefficient == 0
    ensures LockedOf(locks - {key}, c) == LockedOf(locks, c) && GivenTo(locks - {key}, who) == GivenTo(locks, who)
  {
    var rest := locks - {key};
    var f, g := Share(TokenOf(), AmountTerm(locks), c), Share(HolderOf(), CoefficientTerm(locks), who);
    SumRemove(locks.Keys, f, key);
    SumRemove(locks.Keys, g, key);
    assert rest.Keys == locks.Keys - {key};
    SumSame(rest.Keys, Share(TokenOf(), AmountTerm(rest), c), f);
    SumSame(rest.Keys, Share(HolderOf(), CoefficientTerm(rest), who), g);
  }

  /** One entry is part of both sums it is counted in, so subtracting it never saturates. */
  lemma EntryCounts(locks: LockedTokens, users: Users, totals: Totals, key: Key)
    requires TotalsRight(locks, totals) && CoefficientsRight(locks, users)
    ensures Get(locks, key, NO_TOKEN).amount <= Get(totals, key.0, 0)
    ensures Get(locks, key, NO_TOKEN).coefficient <= Get(users, key.1, NO_INFO).coefficient
  {
    assert TotalRight(locks, totals, key.0) && CoefficientRight(locks, users, key.1);
    var f, g := Share(TokenOf(), AmountTerm(locks), key.0), Share(HolderOf(), CoefficientTerm(locks), key.1);
    SumNonNeg(locks.Keys, f);
    SumNonNeg(locks.Keys, g);
    if key in locks {
      SumTerm(locks.Keys, f, key);
      SumTerm(locks.Keys, g, key);
    }
  }

  /** With `value` added to the entry and to the token's total, the entry's share is still at most one. */
  lemma EntryShare(locks: LockedTokens, users: Users, totals: Totals, key: Key, value: nat)
    requires TotalsRight(locks, totals) && CoefficientsRight(locks, users)
    requires 0 < Get(totals, key.0, 0) + value <= U128_MAX
    ensures var share := Ratio(SatAdd(Get(locks, key, NO_TOKEN).amount, value), Get(totals, key.0, 0) + value);
      share.Ok? && share.value <= ONE
  {
    EntryCounts(locks, users, totals, key);
    ShareAtMostOne(Get(locks, key, NO_TOKEN).amount + value, Get(totals, key.0, 0) + value);
  }

  /** An account's info with a coefficient that changes from one token's old value to its new one. */
  function Updated(info: UserInfo, from: nat, to: nat): UserInfo {
    UserInfo(info.coefficient, SatAdd(SatSub(info.coefficient, from), to))
  }

  /** One entry is written, the account's coefficient with it. */
  lemma WriteEntry(locks: LockedTokens, users: Users, totals: Totals, key: Key, token: LockedToken)
    requires TotalsRight(locks, totals) && CoefficientsRight(locks, users)
    requires var from := Get(locks, key, NO_TOKEN).coefficient;
      Get(users, key.1, NO_INFO).coefficient - from + token.coefficient <= U128_MAX
    ensures var from := Get(locks, key, NO_TOKEN).coefficient;
      CoefficientsRight(locks[key := token],
                        users[key.1 := Updated(Get(users, key.1, NO_INFO), from, token.coefficient)])
  {
    var from := Get(locks, key, NO_TOKEN).coefficient;
    var locks', users' := locks[key := token],
      users[key.1 := Updated(Get(users, key.1, NO_INFO), from, token.coefficient)];
    EntryCounts(locks, users, totals, key);
    forall who
      ensures CoefficientRight(locks', users', who)
    {
      assert CoefficientRight(locks, users, who);
      GivenUpdate(locks, locks', key, who);
    }
    forall j
      ensures Known(locks', users', j)
    {
      assert Known(locks, users, j);
    }
  }

  /** When the account's sum does not fit, its stored coefficient is no longer that sum. */
  lemma SaturatedEntry(locks: LockedTokens, users: Users, totals: Totals, key: Key, token: LockedToken)
    requires TotalsRight(locks, totals) && CoefficientsRight(locks, users)
    requires var from := Get(locks, key, NO_TOKEN).coefficient;
      U128_MAX < Get(users, key.1, NO_INFO).coefficient - from + token.coefficient
    ensures var from := Get(locks, key, NO_TOKEN).coefficient;
      !CoefficientsRight(locks[key := token],
                         users[key.1 := Updated(Get(users, key.1, NO_INFO), from, token.coefficient)])
  {
    var from := Get(locks, key, NO_TOKEN).coefficient;
    var users' := users[key.1 := Updated(Get(users, key.1, NO_INFO), from, token.coefficient)];
    assert CoefficientRight(locks, users, key.1);
    GivenUpdate(locks, locks[key := token], key, key.1);
    assert !CoefficientRight(locks[key := token], users', key.1);
  }

  /** One entry is written, the token's total with it. */
  lemma WriteTotal(locks: LockedTokens, totals: Totals, key: Key, token: LockedToken, totals': Totals)
    requires TotalsRight(locks, totals)
    requires Get(totals', key.0, 0) == Get(totals, key.0, 0) + token.amount - Get(locks, key, NO_TOKEN).amount
    requires forall c :: c != key.0 ==> Get(totals', c, 0) == Get(totals, c, 0)
    ensures TotalsRight(locks[key := token], totals')
  {
    var locks' := locks[key := token];
    forall c
      ensures TotalRight(locks', totals', c)
    {
      assert TotalRight(locks, totals, c);
      LockedUpdate(locks, locks', key, c);
    }
  }

  /** An emptied entry is taken out. */
  lemma DropEntry(locks: LockedTokens, users: Users, totals: Totals, key: Key)
    requires key in locks && locks[key].amount == 0 && locks[key].coefficient == 0
    requires TotalsRight(locks, totals) && CoefficientsRight(locks, users)
    ensures TotalsRight(locks - {key}, totals) && CoefficientsRight(locks - {key}, users)
  {
    forall c
      ensures TotalRight(locks - {key}, totals, c)
    {
      assert TotalRight(locks, totals, c) && CoefficientRight(locks, users, Account(0));
      EntryGone(locks, key, c, Account(0));
    }
    forall who
      ensures CoefficientRight(locks - {key}, users, who)
    {
      assert TotalRight(locks, totals, key.0) && CoefficientRight(locks, users, who);
      EntryGone(locks, key, key.0, who);
    }
    forall j
      ensures Known(locks - {key}, users, j)
    {
      assert Known(locks, users, j);
    }
  }

  // ---- The calls -----------------------------------------------------------------------

  /** The entry has been refreshed since the token's coefficients last changed. */
  predicate Current(info: CoefficientInfo, locks: LockedTokens, c: Currency, who: Account) {
    (c, who) in locks && info.updateBlock < locks[(c, who)].refreshBlock
  }

  /** An entry of token c has at most been brought up to date, if its account has been visited. */
  predicate AtMostRefreshed(locks: LockedTokens, locks': LockedTokens, c: Currency, visited: set<Account>, key: Key) {
    && (key in locks <==> key in locks')
    && (key in locks ==> locks'[key].amount == locks[key].amount
                         && (key.0 != c || key.1 !in visited ==> locks'[key] == locks[key]))
  }

  lemma RefreshedOneMore(locks: LockedTokens, mid: LockedTokens, after: LockedTokens, c: Currency,
                         visited: set<Account>, who: Account)
    requires forall key :: AtMostRefreshed(locks, mid, c, visited, key)
    requires (c, who) in mid && (c, who) in after && after == mid[(c, who) := after[(c, who)]]
    requires after[(c, who)].amount == mid[(c, who)].amount
    ensures forall key :: AtMostRefreshed(locks, after, c, visited + {who}, key)
  {
    forall key
      ensures AtMostRefreshed(locks, after, c, visited + {who}, key)
    {
      assert AtMostRefreshed(locks, mid, c, visited, key);
    }
  }

  /** Nothing keeps an account's entry from being brought up to date. */
  predicate Succeeds(info: CoefficientInfo, locks: LockedTokens, c: Currency, who: Account, issuance: nat,
                     recalc: Account -> Result<()>)
  {
    (c, who) in locks ==> Computable(info, locks[(c, who)].amount, issuance) && recalc(who).Ok?
  }

  class Markup {
    /** How many accounts one refresh may update. */
    const refreshLimit: nat

    var coefficients: map<Currency, CoefficientInfo>
    var users: Users
    var lockedTokens: LockedTokens
    var totalLock: Totals

    ghost predicate Valid()
      reads this
    {
      TotalsRight(lockedTokens, totalLock) && CoefficientsRight(lockedTokens, users)
    }

    constructor (limit: nat)
      ensures Valid() && refreshLimit == limit && lockedTokens == map[]
    {
      refreshLimit := limit;
      coefficients, users, lockedTokens, totalLock := map[], map[], map[], map[];
    }

    /** What the next deposit of `value` would set an account's coefficient for token c to. */
    function Bonus(who: Account, c: Currency, value: nat, issuance: nat): Result<Balance>
      reads this
    {
      if c !in coefficients || value == 0 then Err(ArgumentsError)
      else
        var total :- U128(Get(totalLock, c, 0) + value);
        Coefficient(coefficients[c], SatAdd(Get(lockedTokens, (c, who), NO_TOKEN).amount, value), total, issuance)
    }

    /** An account's coefficients still fit their type if the one for token c becomes x. */
    predicate RoomFor(c: Currency, who: Account, x: nat)
      reads `users, `lockedTokens
    {
      Get(users, who, NO_INFO).coefficient - Get(lockedTokens, (c, who), NO_TOKEN).coefficient + x <= U128_MAX
    }

    /** Records an entry and the account's new coefficient. */
    method WriteInfo(c: Currency, who: Account, token: LockedToken)
      requires TotalsRight(lockedTokens, totalLock) && CoefficientsRight(lockedTokens, users)
      modifies `users, `lockedTokens
      ensures lockedTokens == old(lockedTokens)[(c, who) := token]
      ensures var from := Get(old(lockedTokens), (c, who), NO_TOKEN).coefficient;
        && users == old(users)[who := Updated(Get(old(users), who, NO_INFO), from, token.coefficient)]
        && (CoefficientsRight(lockedTokens, users) <==>
              Get(old(users), who, NO_INFO).coefficient - from + token.coefficient <= U128_MAX)
    {
      var info := Get(users, who, NO_INFO);
      var from := Get(lockedTokens, (c, who), NO_TOKEN).coefficient;
      if info.coefficient - from + token.coefficient <= U128_MAX {
        WriteEntry(lockedTokens, users, totalLock, (c, who), token);
      } else {
        SaturatedEntry(lockedTokens, users, totalLock, (c, who), token);
      }
      users := users[who := Updated(info, from, token.coefficient)];
      lockedTokens := lockedTokens[(c, who) := token];
    }

    static method NewCoefficient(info: CoefficientInfo, amount: nat, total: nat, issuance: nat)
      returns (r: Result<Balance>)
      requires amount <= total
      ensures r == Coefficient(info, amount, total, issuance)
      ensures r.Ok? ==> Measures(info, amount, total, issuance, r.value)
      ensures r.Err? ==> !Computable(info, amount, issuance)
    {
      r := Coefficient(info, amount, total, issuance);
      if r.Ok? {
        CoefficientMeasures(info, amount, total, issuance);
      } else if Computable(info, amount, issuance) {
        CoefficientComputes(info, amount, total, issuance);
      }
    }

    /** Locks more of token c. `recalc` is the outcome of bringing the account's positions up to date.
        The ledgers stay right exactly if the account's coefficients together fit their type. */
    method DepositMarkup(who: Account, c: Currency, value: nat, issuance: nat, recalc: Result<()>, now: nat)
      returns (r: Result<()>)
      requires Valid()
      modifies this
      ensures old(Bonus(who, c, value, issuance)).Err? ==> r == Err(old(Bonus(who, c, value, issuance)).error)
      ensures c !in old(coefficients) || value == 0 ==> r == Err(ArgumentsError)
      ensures c in old(coefficients) && value != 0 && Get(old(totalLock), c, 0) + value <= U128_MAX ==>
        Computable(old(coefficients)[c], Get(old(lockedTokens), (c, who), NO_TOKEN).amount + value, issuance) ==>
        r == recalc
      ensures r.Err? ==> coefficients == old(coefficients) && users == old(users)
      ensures r.Err? ==> lockedTokens == old(lockedTokens) && totalLock == old(totalLock)
      ensures r.Err? && old(Bonus(who, c, value, issuance)).Ok? ==> recalc.Err? && r.error == recalc.error
      ensures r.Ok? ==> old(Bonus(who, c, value, issuance)).Ok? && (c, who) in lockedTokens
      ensures r.Ok? ==> lockedTokens == old(lockedTokens)[(c, who) := lockedTokens[(c, who)]]
      ensures r.Ok? ==> lockedTokens[(c, who)].amount == Get(old(lockedTokens), (c, who), NO_TOKEN).amount + value
      ensures r.Ok? ==> lockedTokens[(c, who)].coefficient == old(Bonus(who, c, value, issuance)).value
      ensures r.Ok? ==> c in totalLock && lockedTokens[(c, who)].refreshBlock == now
      ensures r.Ok? ==> c in old(coefficients) && Measures(old(coefficients)[c], lockedTokens[(c, who)].amount,
        totalLock[c], issuance, lockedTokens[(c, who)].coefficient)
      ensures r.Ok? ==> coefficients == old(coefficients)[c := old(coefficients)[c].(updateBlock := now)]
      ensures r.Ok? ==> who in users && users[who].before == Get(old(users), who, NO_INFO).coefficient
      ensures r.Ok? ==> users == old(users)[who := users[who]]
      ensures r.Ok? ==> totalLock == old(totalLock)[c := Get(old(totalLock), c, 0) + value]
      ensures r.Ok? ==> (Valid() <==> old(RoomFor(c, who, Bonus(who, c, value, issuance).value)))
    {
      if c !in coefficients || value == 0 {
        return Err(ArgumentsError);
      }
      EntryCounts(lockedTokens, users, totalLock, (c, who));
      var total :- U128(Get(totalLock, c, 0) + value);
      var amount := SatAdd(Get(lockedTokens, (c, who), NO_TOKEN).amount, value);
      EntryShare(lockedTokens, users, totalLock, (c, who), value);
      var coefficient :- NewCoefficient(coefficients[c], amount, total, issuance);
      if recalc.Err? {
        return recalc;
      }
      var token := LockedToken(amount, coefficient, now);
      var totals := totalLock[c := total];
      WriteTotal(lockedTokens, totalLock, (c, who), token, totals);
      WriteInfo(c, who, token);
      totalLock := totals;
      coefficients := coefficients[c := coefficients[c].(updateBlock := now)];
      r := recalc;
    }

    /** Releases all that an account has locked of token c. No subtraction saturates or underflows. */
    method WithdrawMarkup(who: Account, c: Currency, recalc: Result<()>, now: nat) returns (r: Result<()>)
      requires Valid()
      modifies this
      ensures Valid()
      ensures c !in old(coefficients) ==> r == Err(ArgumentsError)
      ensures c in old(coefficients) && (c, who) !in old(lockedTokens) ==> r == Err(LockNotExist)
      ensures c in old(coefficients) && (c, who) in old(lockedTokens) ==> r == recalc
      ensures r.Err? ==> coefficients == old(coefficients) && users == old(users)
      ensures r.Err? ==> lockedTokens == old(lockedTokens) && totalLock == old(totalLock)
      ensures r.Ok? ==> lockedTokens == old(lockedTokens) - {(c, who)}
      ensures r.Ok? ==> Get(totalLock, c, 0) + old(lockedTokens)[(c, who)].amount == Get(old(totalLock), c, 0)
      ensures r.Ok? ==> forall d :: d != c ==> Get(totalLock, d, 0) == Get(old(totalLock), d, 0)
      ensures r.Ok? ==> coefficients == old(coefficients)[c := old(coefficients)[c].(updateBlock := now)]
      ensures r.Ok? ==> who in users && users[who].before == Get(old(users), who, NO_INFO).coefficient
      ensures r.Ok? ==> users == old(users)[who := users[who]]
    {
      if c !in coefficients {
        return Err(ArgumentsError);
      }
      if (c, who) !in lockedTokens {
        return Err(LockNotExist);
      }
      EntryCounts(lockedTokens, users, totalLock, (c, who));
      var locked := lockedTokens[(c, who)];
      if Get(totalLock, c, 0) < locked.amount {
        return Err(Overflow);
      }
      if recalc.Err? {
        return recalc;
      }
      ghost var before := lockedTokens;
      var totals := totalLock[c := Get(totalLock, c, 0) - locked.amount];
      WriteTotal(lockedTokens, totalLock, (c, who), NO_TOKEN, totals);
      WriteInfo(c, who, NO_TOKEN);
      totalLock := totals;
      DropEntry(lockedTokens, users, totalLock, (c, who));
      assert before[(c, who) := NO_TOKEN] - {(c, who)} == before - {(c, who)};
      lockedTokens := lockedTokens - {(c, who)};
      coefficients := coefficients[c := coefficients[c].(updateBlock := now)];
      r := recalc;
    }

    /** The accounts that have locked token c. */
    function HoldersOf(c: Currency): set<Account>
      reads `lockedTokens
    {
      set key | key in lockedTokens && key.0 == c :: key.1
    }

    /** A coefficient x on the entry is what it would be if it were computed now. */
    predicate Computed(c: Currency, who: Account, issuance: nat, x: Balance)
      reads `coefficients, `lockedTokens, `totalLock
    {
      (c, who) in lockedTokens && c in coefficients && lockedTokens[(c, who)].coefficient == x ==>
        Coefficient(coefficients[c], lockedTokens[(c, who)].amount, Get(totalLock, c, 0), issuance) == Ok(x)
    }

    ghost predicate UpToDate(c: Currency, who: Account, issuance: nat)
      reads `coefficients, `lockedTokens, `totalLock
    {
      forall x: Balance :: Computed(c, who, issuance, x)
    }

    /** An account's coefficients still fit their type if the one for token c becomes the cap. */
    ghost predicate CapFits(c: Currency, who: Account)
      requires c in coefficients
      reads `coefficients, `users, `lockedTokens
    {
      RoomFor(c, who, coefficients[c].hardcap)
    }

    /** An account still to be visited: its entry is as at the beginning. */
    ghost predicate Waiting(c: Currency, who: Account, locks0: LockedTokens)
      requires c in coefficients
      reads `coefficients, `users, `lockedTokens
    {
      (c, who) in locks0 && (c, who) in lockedTokens && lockedTokens[(c, who)] == locks0[(c, who)] && CapFits(c, who)
    }

    /** Brings one entry up to date. */
    method RefreshOne(c: Currency, who: Account, issuance: nat, recalc: Result<()>, now: nat,
            ghost locks0: LockedTokens)
      returns (r: Result<()>)
      requires Valid() && c in coefficients && (c, who) in lockedTokens && CapFits(c, who)
      modifies `users, `lockedTokens
      ensures Valid()
      ensures r.Err? ==> users == old(users) && lockedTokens == old(lockedTokens)
      ensures Computable(coefficients[c], old(lockedTokens)[(c, who)].amount, issuance) ==> r == recalc
      ensures r.Ok? ==> UpToDate(c, who, issuance) && (c, who) in lockedTokens
      ensures r.Ok? ==> lockedTokens[(c, who)].amount == old(lockedTokens)[(c, who)].amount
      ensures r.Ok? ==> lockedTokens[(c, who)].refreshBlock == now
      ensures r.Ok? ==> Measures(coefficients[c], lockedTokens[(c, who)].amount, Get(totalLock, c, 0), issuance,
        lockedTokens[(c, who)].coefficient)
      ensures r.Ok? ==> lockedTokens == old(lockedTokens)[(c, who) := lockedTokens[(c, who)]]
      ensures r.Ok? ==> who in users && users[who].before == Get(old(users), who, NO_INFO).coefficient
      ensures r.Ok? ==> users == old(users)[who := users[who]]
      ensures forall u :: u != who && old(UpToDate(c, u, issuance)) ==> UpToDate(c, u, issuance)
      ensures forall u :: u != who && old(Waiting(c, u, locks0)) ==> Waiting(c, u, locks0)
    {
      EntryCounts(lockedTokens, users, totalLock, (c, who));
      assert Known(lockedTokens, users, (c, who));
      if who !in users {
        return Err(LockNotExist);
      }
      var locked := lockedTokens[(c, who)];
      var coefficient :- NewCoefficient(coefficients[c], locked.amount, Get(totalLock, c, 0), issuance);
      if recalc.Err? {
        return recalc;
      }
      var token := locked.(coefficient := coefficient, refreshBlock := now);
      WriteTotal(lockedTokens, totalLock, (c, who), token, totalLock);
      WriteInfo(c, who, token);
      forall u | u != who && old(UpToDate(c, u, issuance))
        ensures UpToDate(c, u, issuance)
      {
        forall x: Balance
          ensures Computed(c, u, issuance, x)
        {
          assert old(Computed(c, u, issuance, x));
        }
      }
      r := recalc;
    }

    /** The refresh loop over the accounts with token c. */
    method RefreshLoop(c: Currency, issuance: nat, recalc: Account -> Result<()>, now: nat, holders: set<Account>,
                       ghost locks0: LockedTokens)
      returns (r: Result<()>, all: bool, ghost refreshed: set<Account>)
      requires Valid() && c in coefficients && forall who :: who in holders ==> Waiting(c, who, locks0)
      modifies `users, `lockedTokens
      ensures r.Ok? ==> Valid() && |refreshed| <= refreshLimit
      ensures r.Ok? && !all ==> |refreshed| == refreshLimit
      ensures r.Ok? ==> forall key :: AtMostRefreshed(old(lockedTokens), lockedTokens, c, refreshed, key)
      ensures (forall who :: who in holders ==> Succeeds(coefficients[c], locks0, c, who, issuance, recalc)) ==> r.Ok?
      ensures r.Ok? ==> forall who :: who in refreshed ==> UpToDate(c, who, issuance)
      ensures r.Ok? && all ==> forall who :: who in holders && who !in refreshed ==>
        Current(coefficients[c], locks0, c, who)
    {
      refreshed, all := {}, true;
      var todo, count := holders, 0;
      while todo != {}
        invariant Valid() && todo <= holders && all
        invariant forall key :: AtMostRefreshed(old(lockedTokens), lockedTokens, c, refreshed, key)
        invariant count == |refreshed| <= refreshLimit && refreshed <= holders - todo
        invariant forall who :: who in refreshed ==> UpToDate(c, who, issuance)
        invariant forall who :: who in todo ==> Waiting(c, who, locks0)
        invariant forall who :: who in holders && who !in todo && who !in refreshed ==>
          Current(coefficients[c], locks0, c, who)
        decreases todo
      {
        var who :| who in todo;
        if count >= refreshLimit {
          all := false;
          break;
        }
        if lockedTokens[(c, who)].refreshBlock <= coefficients[c].updateBlock {
          ghost var mid := lockedTokens;
          r := RefreshOne(c, who, issuance, recalc(who), now, locks0);
          if r.Err? {
            return;
          }
          RefreshedOneMore(old(lockedTokens), mid, lockedTokens, c, refreshed, who);
          refreshed := refreshed + {who};
          count := count + 1;
        }
        todo := todo - {who};
      }
      r := Ok(());
    }

    /** Brings up to date the accounts with token c that have not been refreshed since its coefficients
        last changed, as many as the limit allows. When it reports `all`, none is left. */
    method Refresh(c: Currency, issuance: nat, recalc: Account -> Result<()>, now: nat)
      returns (r: Result<()>, all: bool, ghost refreshed: set<Account>)
      requires Valid() && (c in coefficients ==> forall who :: CapFits(c, who))
      modifies `users, `lockedTokens
      ensures Valid()
      ensures r.Err? ==> users == old(users) && lockedTokens == old(lockedTokens)
      ensures c !in coefficients ==> r == Err(ArgumentsError)
      ensures r.Ok? ==> |refreshed| <= refreshLimit && c in coefficients
      ensures r.Ok? && !all ==> |refreshed| == refreshLimit
      ensures r.Ok? ==> forall key :: AtMostRefreshed(old(lockedTokens), lockedTokens, c, refreshed, key)
      ensures r.Ok? ==> forall who :: who in refreshed ==> UpToDate(c, who, issuance)
      ensures r.Ok? && all ==> forall who :: (c, who) in old(lockedTokens) && who !in refreshed ==>
        Current(coefficients[c], old(lockedTokens), c, who)
      ensures c in coefficients ==>
        (forall who :: Succeeds(coefficients[c], old(lockedTokens), c, who, issuance, recalc)) ==> r.Ok?
    {
      refreshed, all := {}, true;
      if c !in coefficients {
        return Err(ArgumentsError), all, refreshed;
      }
      var users0, locks0 := users, lockedTokens;
      r, all, refreshed := RefreshLoop(c, issuance, recalc, now, HoldersOf(c), locks0);
      if r.Err? {
        users, lockedTokens := users0, locks0;
      }
    }
  }
}
