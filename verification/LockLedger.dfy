/** The ledger of positions: who owns which lock, and the totals kept beside the locks. */
module LockLedger {
  import opened Primitives
  import opened Sums
  import opened Curve
  import opened Voting

  datatype LockBook = LockBook(
    supply: nat,
    locked: Locks,
    userLocked: map<Account, nat>,
    next: PositionId,
    userPositions: map<Account, seq<PositionId>>,
    owner: map<PositionId, Account>)

  /** What each account has locked over all its positions. */
  ghost function LockedBy(locked: Locks, owner: map<PositionId, Account>): Account -> int {
    OwnerSum(locked.Keys, OwnerOf(owner), AmountTerm(locked))
  }

  predicate Distinct<T(==)>(s: seq<T>) {
    forall i, j :: 0 <= i < j < |s| ==> s[i] != s[j]
  }

  /** An owned position is on its owner's list. */
  predicate OnItsList(b: LockBook, p: PositionId) {
    p in b.owner ==> b.owner[p] in b.userPositions && p in b.userPositions[b.owner[p]]
  }

  /** An account's list names its own positions, each once. */
  predicate ListOk(b: LockBook, maxPositions: nat, u: Account) {
    u in b.userPositions ==>
      && Distinct(b.userPositions[u]) && |b.userPositions[u]| <= maxPositions
      && (forall p :: p in b.userPositions[u] ==> p in b.owner && b.owner[p] == u)
  }

  /** `owner` and `userPositions` are two views of one partition of the positions. */
  ghost predicate SamePartition(b: LockBook, maxPositions: nat) {
    && (forall p :: OnItsList(b, p))
    && (forall u :: ListOk(b, maxPositions, u))
  }

  ghost predicate UserTotal(b: LockBook, u: Account) {
    Get(b.userLocked, u, 0) == LockedBy(b.locked, b.owner)(u)
  }

  ghost predicate UserTotals(b: LockBook) {
    forall u :: UserTotal(b, u)
  }

  ghost predicate Totals(b: LockBook) {
    b.supply == TotalAmount(b.locked) <= U128_MAX && UserTotals(b)
  }

  /** Ids are used in order, and a position without an owner holds nothing. */
  predicate IdOk(b: LockBook, p: PositionId) {
    && (p in b.locked ==> 0 <= p < b.next)
    && (p in b.owner ==> p in b.locked)
    && (p in b.locked && p !in b.owner ==> b.locked[p] == NO_LOCK)
  }

  ghost predicate Allocated(b: LockBook) {
    0 <= b.next && forall p :: IdOk(b, p)
  }

  ghost predicate Sound(b: LockBook, maxPositions: nat) {
    Totals(b) && Allocated(b) && SamePartition(b, maxPositions)
  }

  function PositionsOf(b: LockBook, who: Account): seq<PositionId> {
    Get(b.userPositions, who, [])
  }

  lemma LockedByUpdate(locked: Locks, owner: map<PositionId, Account>, locked': Locks,
                       owner': map<PositionId, Account>, p: PositionId, u: Account)
    requires locked'.Keys == locked.Keys + {p}
    requires forall q :: q in locked && q != p ==> locked'[q] == locked[q] && OwnerOf(owner')(q) == OwnerOf(owner)(q)
    ensures LockedBy(locked', owner')(u) == LockedBy(locked, owner)(u)
         - (if OwnerOf(owner)(p) == u then Get(locked, p, NO_LOCK).amount else 0)
         + (if OwnerOf(owner')(p) == u then locked'[p].amount else 0)
  {
    var f, f', own, own' := AmountTerm(locked), AmountTerm(locked'), OwnerOf(owner), OwnerOf(owner');
    forall q | q in locked.Keys && q != p
      ensures own(q) == own'(q) && f(q) == f'(q)
    {
    }
    OwnerSumUpdate(locked.Keys, own, f, locked'.Keys, own', f', p, u);
  }

  /** Taking the next id for an account, with nothing locked in it yet. */
  function AddPosition(b: LockBook, who: Account): LockBook {
    b.(locked := b.locked[b.next := NO_LOCK],
       next := b.next + 1,
       userPositions := b.userPositions[who := PositionsOf(b, who) + [b.next]],
       owner := b.owner[b.next := who])
  }

  lemma AddPositionTotals(b: LockBook, who: Account)
    requires Totals(b) && Allocated(b)
    ensures b.next !in b.owner && b.next !in b.locked
    ensures Totals(AddPosition(b, who)) && Allocated(AddPosition(b, who))
  {
    var b' := AddPosition(b, who);
    assert IdOk(b, b.next);
    ReplaceAmount(b.locked, b.next, NO_LOCK);
    assert OnlyDiffers(b, b', b.next);
    UserTotalsFollow(b, b', b.next);
    forall p
      ensures IdOk(b', p)
    {
      assert IdOk(b, p);
    }
  }

  lemma AddPositionPartition(b: LockBook, who: Account, maxPositions: nat)
    requires SamePartition(b, maxPositions) && b.next !in b.owner && |PositionsOf(b, who)| < maxPositions
    ensures SamePartition(AddPosition(b, who), maxPositions)
  {
    var b', p := AddPosition(b, who), b.next;
    forall u
      ensures ListOk(b', maxPositions, u)
    {
      assert ListOk(b, maxPositions, u);
    }
    forall q
      ensures OnItsList(b', q)
    {
      assert OnItsList(b, q);
      if q != p && q in b.owner {
        assert q in PositionsOf(b, b.owner[q]);
      }
    }
  }

  lemma AddPositionSound(b: LockBook, who: Account, maxPositions: nat)
    requires Sound(b, maxPositions) && |PositionsOf(b, who)| < maxPositions
    ensures b.next !in b.owner && Sound(AddPosition(b, who), maxPositions)
  {
    AddPositionTotals(b, who);
    AddPositionPartition(b, who, maxPositions);
  }

  /** Adding `value` to a position and possibly moving its end. */
  function Deposit(b: LockBook, p: PositionId, value: nat, end: nat): LockBook
    requires p in b.owner
  {
    b.(supply := b.supply + value,
       locked := b.locked[p := LockedBalance(Get(b.locked, p, NO_LOCK).amount + value, end)],
       userLocked := if value == 0 then b.userLocked
                     else b.userLocked[b.owner[p] := Get(b.userLocked, b.owner[p], 0) + value])
  }

  /** The end a deposit gives the lock. */
  function NewEnd(lock: LockedBalance, unlockTime: nat): nat {
    if unlockTime != 0 then unlockTime else lock.end
  }

  /** Why a deposit is refused, if it is: the totals must fit, and the owner must hold
      all he will have locked. */
  function DepositError(b: LockBook, held: nat, p: PositionId, value: nat): Option<Error>
    requires p in b.owner
  {
    if b.supply + value > U128_MAX || Get(b.locked, p, NO_LOCK).amount + value > U128_MAX then Some(Overflow)
    else if value == 0 then None
    else if Get(b.userLocked, b.owner[p], 0) + value > U128_MAX then Some(Overflow)
    else if Get(b.userLocked, b.owner[p], 0) + value > held then Some(NotEnoughBalance)
    else None
  }

  /** What a change of position p means for account u. */
  function Shift(b: LockBook, b': LockBook, p: PositionId, u: Account): int {
    (if OwnerOf(b'.owner)(p) == u then Get(b'.locked, p, NO_LOCK).amount else 0)
    - (if OwnerOf(b.owner)(p) == u then Get(b.locked, p, NO_LOCK).amount else 0)
  }

  predicate FollowsFor(b: LockBook, b': LockBook, p: PositionId, u: Account) {
    Get(b'.userLocked, u, 0) == Get(b.userLocked, u, 0) + Shift(b, b', p, u)
  }

  /** The two books differ at most in position p. */
  predicate OnlyDiffers(b: LockBook, b': LockBook, p: PositionId) {
    && b'.locked.Keys == b.locked.Keys + {p}
    && (forall q :: q in b.locked && q != p ==>
          b'.locked[q] == b.locked[q] && OwnerOf(b'.owner)(q) == OwnerOf(b.owner)(q))
  }

  /** When the lock of one position changes, the user totals follow its owners. */
  lemma UserTotalsFollow(b: LockBook, b': LockBook, p: PositionId)
    requires UserTotals(b) && OnlyDiffers(b, b', p)
    requires forall u :: FollowsFor(b, b', p, u)
    ensures UserTotals(b')
  {
    forall u
      ensures UserTotal(b', u)
    {
      assert UserTotal(b, u) && FollowsFor(b, b', p, u);
      UserTotalFollows(b, b', p, u);
    }
  }

  lemma UserTotalFollows(b: LockBook, b': LockBook, p: PositionId, u: Account)
    requires UserTotal(b, u) && OnlyDiffers(b, b', p) && FollowsFor(b, b', p, u)
    ensures UserTotal(b', u)
  {
    LockedByUpdate(b.locked, b.owner, b'.locked, b'.owner, p, u);
  }

  lemma DepositTotals(b: LockBook, p: PositionId, value: nat, end: nat)
    requires Totals(b) && Allocated(b) && p in b.owner && b.supply + value <= U128_MAX
    ensures Totals(Deposit(b, p, value, end)) && Allocated(Deposit(b, p, value, end))
  {
    var b' := Deposit(b, p, value, end);
    assert IdOk(b, p);
    assert b'.supply == TotalAmount(b'.locked) by {
      ReplaceAmount(b.locked, p, b'.locked[p]);
    }
    assert UserTotals(b') by {
      assert OnlyDiffers(b, b', p);
      UserTotalsFollow(b, b', p);
    }
    forall q
      ensures IdOk(b', q)
    {
      assert IdOk(b, q);
    }
  }

  /** The partition only depends on the owners and the lists. */
  lemma SameOwners(b: LockBook, b': LockBook, maxPositions: nat)
    requires SamePartition(b, maxPositions) && b'.owner == b.owner && b'.userPositions == b.userPositions
    ensures SamePartition(b', maxPositions)
  {
    forall p
      ensures OnItsList(b', p)
    {
      assert OnItsList(b, p);
    }
    forall u
      ensures ListOk(b', maxPositions, u)
    {
      assert ListOk(b, maxPositions, u);
    }
  }

  lemma DepositSound(b: LockBook, p: PositionId, value: nat, end: nat, maxPositions: nat)
    requires Sound(b, maxPositions) && p in b.owner && b.supply + value <= U128_MAX
    ensures Sound(Deposit(b, p, value, end), maxPositions)
  {
    DepositTotals(b, p, value, end);
    SameOwners(b, Deposit(b, p, value, end), maxPositions);
  }

  /** A list with every occurrence of p taken out. */
  function Filter(s: seq<PositionId>, p: PositionId): seq<PositionId> {
    if s == [] then [] else
      (if s[0] == p then [] else [s[0]]) + Filter(s[1..], p)
  }

  lemma {:induction false} FilterMeaning(s: seq<PositionId>, p: PositionId)
    requires Distinct(s)
    ensures var r := Filter(s, p);
            && Distinct(r) && |r| <= |s|
            && (forall q :: q in r <==> q in s && q != p)
  {
    if s != [] {
      var t, r := s[1..], Filter(s, p);
      assert forall q :: q in s <==> q == s[0] || q in t;
      assert Distinct(t) && s[0] !in t;
      FilterMeaning(t, p);
      assert s[0] !in Filter(t, p);
      assert r == if s[0] == p then Filter(t, p) else [s[0]] + Filter(t, p);
    }
  }

  /** Paying a position out: nothing is locked in it any more. */
  function Empty(b: LockBook, p: PositionId): LockBook
    requires p in b.owner
  {
    var who, amount := b.owner[p], Get(b.locked, p, NO_LOCK).amount;
    b.(supply := SatSub(b.supply, amount),
       locked := b.locked[p := NO_LOCK],
       userLocked := b.userLocked[who := SatSub(Get(b.userLocked, who, 0), amount)])
  }

  /** What is locked in one position never exceeds the totals it is counted in,
      so neither subtraction of a withdrawal can underflow. */
  lemma NoUnderflow(b: LockBook, p: PositionId)
    requires Totals(b) && Allocated(b) && p in b.owner
    ensures p in b.locked && b.locked[p].amount <= b.supply
    ensures b.locked[p].amount <= Get(b.userLocked, b.owner[p], 0)
  {
    var f, u := AmountTerm(b.locked), b.owner[p];
    assert UserTotal(b, u) && IdOk(b, p);
    var share := Share(OwnerOf(b.owner), f, u);
    forall q | q in b.locked.Keys
      ensures 0 <= f(q) && 0 <= share(q)
    {
    }
    SumTerm(b.locked.Keys, f, p);
    SumTerm(b.locked.Keys, share, p);
  }

  lemma EmptyTotals(b: LockBook, p: PositionId)
    requires Totals(b) && Allocated(b) && p in b.owner
    ensures Totals(Empty(b, p)) && Allocated(Empty(b, p))
  {
    var b' := Empty(b, p);
    NoUnderflow(b, p);
    assert b'.supply == TotalAmount(b'.locked) by {
      ReplaceAmount(b.locked, p, NO_LOCK);
    }
    assert UserTotals(b') by {
      assert OnlyDiffers(b, b', p);
      UserTotalsFollow(b, b', p);
    }
    forall q
      ensures IdOk(b', q)
    {
      assert IdOk(b, q);
    }
  }

  lemma EmptySound(b: LockBook, p: PositionId, maxPositions: nat)
    requires Sound(b, maxPositions) && p in b.owner
    ensures Sound(Empty(b, p), maxPositions)
  {
    EmptyTotals(b, p);
    SameOwners(b, Empty(b, p), maxPositions);
  }

  /** Giving up the ownership of a position. */
  function Disown(b: LockBook, p: PositionId): LockBook
    requires p in b.owner
  {
    b.(userPositions := b.userPositions[b.owner[p] := Filter(PositionsOf(b, b.owner[p]), p)],
       owner := b.owner - {p})
  }

  lemma DisownTotals(b: LockBook, p: PositionId)
    requires Totals(b) && Allocated(b) && p in b.owner && Get(b.locked, p, NO_LOCK) == NO_LOCK
    ensures Totals(Disown(b, p)) && Allocated(Disown(b, p))
  {
    var b' := Disown(b, p);
    assert IdOk(b, p);
    assert OnlyDiffers(b, b', p);
    UserTotalsFollow(b, b', p);
    forall q
      ensures IdOk(b', q)
    {
      assert IdOk(b, q);
    }
  }

  lemma DisownPartition(b: LockBook, p: PositionId, maxPositions: nat)
    requires SamePartition(b, maxPositions) && p in b.owner
    ensures SamePartition(Disown(b, p), maxPositions)
  {
    var b', who := Disown(b, p), b.owner[p];
    assert OnItsList(b, p) && ListOk(b, maxPositions, who);
    FilterMeaning(b.userPositions[who], p);
    forall u
      ensures ListOk(b', maxPositions, u)
    {
      assert ListOk(b, maxPositions, u);
    }
    forall q
      ensures OnItsList(b', q)
    {
      assert OnItsList(b, q);
    }
  }

  lemma DisownSound(b: LockBook, p: PositionId, maxPositions: nat)
    requires Sound(b, maxPositions) && p in b.owner && Get(b.locked, p, NO_LOCK) == NO_LOCK
    ensures Sound(Disown(b, p), maxPositions)
  {
    DisownTotals(b, p);
    DisownPartition(b, p, maxPositions);
  }

  function UserLockedTerm(b: LockBook): Account -> int {
    u => Get(b.userLocked, u, 0)
  }

  /** The supply is what the accounts have locked, added up. */
  lemma SupplyIsUserTotal(b: LockBook, maxPositions: nat)
    requires Sound(b, maxPositions)
    ensures b.supply == Sum(b.userPositions.Keys, UserLockedTerm(b))
  {
    var own, f, users := OwnerOf(b.owner), AmountTerm(b.locked), b.userPositions.Keys;
    forall p | p in b.locked.Keys
      ensures own(p) in users || f(p) == 0
    {
      assert IdOk(b, p) && OnItsList(b, p);
    }
    SumPartition(b.locked.Keys, users, own, f);
    forall u | u in users
      ensures UserLockedTerm(b)(u) == OwnerSum(b.locked.Keys, own, f)(u)
    {
      assert UserTotal(b, u);
    }
    SumSame(users, UserLockedTerm(b), OwnerSum(b.locked.Keys, own, f));
  }

  /** An account's share of a sum over all locks is the sum over its own positions. */
  lemma OwnPositions(b: LockBook, who: Account, f: PositionId -> int, maxPositions: nat)
    requires Sound(b, maxPositions)
    requires forall p :: p in b.locked && p !in b.owner ==> f(p) == 0
    ensures OwnerSum(b.locked.Keys, OwnerOf(b.owner), f)(who) == Sum((set p | p in PositionsOf(b, who)), f)
  {
    var mine := set p | p in PositionsOf(b, who);
    var share := Share(OwnerOf(b.owner), f, who);
    forall p | p in mine
      ensures p in b.locked && share(p) == f(p)
    {
      assert ListOk(b, maxPositions, who) && IdOk(b, p);
    }
    forall p | p in b.locked.Keys && p !in mine
      ensures share(p) == 0
    {
      assert IdOk(b, p) && OnItsList(b, p);
    }
    SumSuperset(mine, b.locked.Keys, share);
    SumSame(mine, share, f);
  }
}
