/** What the block hook does to the storage: the next reward round, and automatic withdrawal as a row of withdrawals. */
module Payouts {
  import opened Primitives
  import opened Curve
  import opened LockLedger
  import opened ExpiryIndex
  import opened Rewards
  import opened Tokens
  import opened Invariants
  import opened State
  import opened LockCalls
  import opened RewardCalls
  import opened Headroom

  /** A position that has ended and still holds something. */
  predicate IsDue(s: Store, p: PositionId) {
    p in s.book.owner && p in s.book.locked && s.book.locked[p].end <= s.now && 0 < s.book.locked[p].amount
  }

  ghost predicate PaysOne(k: Params, s: Store, s': Store, p: PositionId) {
    IsDue(s, p) && Withdrawn(k, s, s', p, 0)
  }

  /** Payments one after the other: each with the storage it finds and the position it pays. */
  datatype Row = Nothing | Then(earlier: Row, found: Store, paid: PositionId)

  function Members(row: Row): set<PositionId> {
    match row
    case Nothing => {}
    case Then(earlier, _, p) => Members(earlier) + {p}
  }

  function Length(row: Row): nat {
    match row
    case Nothing => 0
    case Then(earlier, _, _) => Length(earlier) + 1
  }

  function Joined(row: Row, more: Row): Row {
    match more
    case Nothing => row
    case Then(earlier, found, p) => Then(Joined(row, earlier), found, p)
  }

  /** From s to s' the row of payments has been made. Nothing else has changed but possibly the index. */
  ghost predicate PaidOut(k: Params, s: Store, s': Store, row: Row)
    decreases row
  {
    match row
    case Nothing => s' == Reindexed(s, s')
    case Then(earlier, found, p) => PaidOut(k, s, found, earlier) && PaysOne(k, found, s', p)
  }

  lemma PaysOneReindexed(k: Params, s: Store, s1: Store, s2: Store, p: PositionId)
    requires PaysOne(k, s, s1, p) && s2 == Reindexed(s1, s2)
    ensures PaysOne(k, s, s2, p)
  {
    forall part | part != Backing
      ensures CheckpointedPart(k, s, s2, p, NO_LOCK, part)
    {
      assert CheckpointedPart(k, s, s1, p, NO_LOCK, part);
    }
  }

  lemma PaidOutReindexed(k: Params, s: Store, s1: Store, s2: Store, row: Row)
    requires PaidOut(k, s, s1, row) && s2 == Reindexed(s1, s2)
    ensures PaidOut(k, s, s2, row)
  {
    match row
    case Nothing =>
    case Then(_, found, p) => PaysOneReindexed(k, found, s1, s2, p);
  }

  lemma {:induction false} JoinedLength(row: Row, more: Row)
    ensures Length(Joined(row, more)) == Length(row) + Length(more)
  {
    match more
    case Nothing =>
    case Then(earlier, _, _) => JoinedLength(row, earlier);
  }

  /** Two rows, one after the other. */
  lemma {:induction false} PaidOutJoined(k: Params, s: Store, mid: Store, s': Store, row: Row, more: Row)
    requires PaidOut(k, s, mid, row) && PaidOut(k, mid, s', more)
    ensures PaidOut(k, s, s', Joined(row, more))
    decreases more
  {
    match more
    case Nothing => PaidOutReindexed(k, s, mid, s', row);
    case Then(earlier, found, p) => PaidOutJoined(k, s, mid, found, row, earlier);
  }

  /** A position is the same in both. */
  predicate SamePosition(s: Store, s': Store, p: PositionId) {
    && Get(s'.book.locked, p, NO_LOCK) == Get(s.book.locked, p, NO_LOCK)
    && (p in s.book.locked <==> p in s'.book.locked)
    && (p in s.book.owner <==> p in s'.book.owner) && (p in s.book.owner ==> s'.book.owner[p] == s.book.owner[p])
  }

  lemma OnePaid(k: Params, s: Store, s': Store, p: PositionId, q: PositionId)
    requires PaysOne(k, s, s', p)
    ensures s'.free == s.free && s'.now == s.now && s'.config == s.config
    ensures if p == q then p !in s'.book.owner && Get(s'.book.locked, p, NO_LOCK) == NO_LOCK else SamePosition(s, s', q)
  {
  }

  /** What a row of payments means for a position, and for everybody's tokens: the positions paid were due at the
      start and are gone, and every other one is as it was. */
  lemma {:induction false} PaidOutMeaning(k: Params, s: Store, s': Store, row: Row, p: PositionId)
    requires PaidOut(k, s, s', row)
    ensures s'.free == s.free && s'.now == s.now && s'.config == s.config
    ensures if p in Members(row) then IsDue(s, p) && p !in s'.book.owner && Get(s'.book.locked, p, NO_LOCK) == NO_LOCK
            else SamePosition(s, s', p)
    decreases row
  {
    match row
    case Nothing =>
    case Then(earlier, found, q) =>
      PaidOutMeaning(k, s, found, earlier, p);
      OnePaid(k, found, s', q, p);
  }

  // ---- One block's list ----------------------------------------------------------------

  /** What is kept while lists are worked off. */
  datatype Aspect = Settings | Entries | Locks | Payments

  predicate SameSettings(s: Store, s': Store) {
    s'.config == s.config && s'.now == s.now && s'.nextExpiring == s.nextExpiring
  }

  ghost predicate ProgressIn(k: Params, s: Store, s1: Store, at: nat, gaugeOk: PositionId -> bool, fits: bool,
                             i: nat, done: seq<PositionId>, failed: nat, gone: seq<PositionId>, row: Row,
                             aspect: Aspect)
  {
    var list := Listed(s.expiring, at);
    match aspect
    case Settings =>
      && SameSettings(s, s1) && s1.expiring == s.expiring && IndexOk(s)
      && i <= |list| && |done| + failed == i
    case Entries =>
      && i <= |list| && AgreesExcept(s1.book.locked, s1.book.owner, s1.expiring, at, gone)
      && Handled(s1.book.locked, list, i, done, gone)
    case Locks =>
      && Explained(gaugeOk, fits, s.book.locked, list, i, done, failed)
      && i <= |list| && forall q :: q !in list[..i] ==> SameLock(s.book.locked, s1.book.locked, q)
    case Payments => PaidOut(k, s, s1, row) && Length(row) <= |done|
  }

  /** Where the work on block `at`'s list stands after its first i positions: begun in storage s, now s1. */
  ghost predicate Progress(k: Params, s: Store, s1: Store, at: nat, gaugeOk: PositionId -> bool, fits: bool,
                           i: nat, done: seq<PositionId>, failed: nat, gone: seq<PositionId>, row: Row)
  {
    forall aspect :: ProgressIn(k, s, s1, at, gaugeOk, fits, i, done, failed, gone, row, aspect)
  }

  lemma ProgressIs(k: Params, s: Store, s1: Store, at: nat, gaugeOk: PositionId -> bool, fits: bool,
                   i: nat, done: seq<PositionId>, failed: nat, gone: seq<PositionId>, row: Row)
    requires Progress(k, s, s1, at, gaugeOk, fits, i, done, failed, gone, row)
    ensures var list := Listed(s.expiring, at);
      && IndexOk(s) && SameSettings(s, s1) && s1.expiring == s.expiring
      && PaidOut(k, s, s1, row) && Length(row) <= |done|
      && i <= |list| && |done| + failed == i && Handled(s1.book.locked, list, i, done, gone) && Distinct(list)
      && AgreesExcept(s1.book.locked, s1.book.owner, s1.expiring, at, gone) && (i < |list| ==> list[i] !in gone)
  {
    assert ProgressIn(k, s, s1, at, gaugeOk, fits, i, done, failed, gone, row, Settings);
    assert ProgressIn(k, s, s1, at, gaugeOk, fits, i, done, failed, gone, row, Entries);
    assert ProgressIn(k, s, s1, at, gaugeOk, fits, i, done, failed, gone, row, Payments);
    var list := Listed(s.expiring, at);
    assert ListRight(s.expiring, at);
    if i < |list| {
      var p := list[i];
      assert p !in list[..i];
      assert p in gone ==> p in done;
    }
  }

  /** What handling one position does: it is paid, it holds nothing, or its payment does not go through. */
  ghost predicate Handles(k: Params, s: Store, s1: Store, at: nat, gaugeOk: PositionId -> bool, fits: bool,
                          p: PositionId, gone: seq<PositionId>, paid: bool, ok: bool)
  {
    && SameSettings(s, s1) && s1.expiring == s.expiring
    && AgreesExcept(s1.book.locked, s1.book.owner, s1.expiring, at, Appended(gone, p, paid))
    && (ok <==> !Refused(gaugeOk, fits, s.book.locked, p))
    && (if ok then paid || (p in s1.book.locked && s1.book.locked[p].amount == 0) else !paid)
    && (if paid then PaysOne(k, s, s1, p) else s1 == s)
    && forall q :: q != p && q in s.book.locked ==> q in s1.book.locked && s1.book.locked[q] == s.book.locked[q]
  }

  lemma ExplainedMore(gaugeOk: PositionId -> bool, fits: bool, locked: Locks, list: seq<PositionId>,
                      done: seq<PositionId>, failed: nat, i: nat, ok: bool)
    requires Explained(gaugeOk, fits, locked, list, i, done, failed) && i < |list|
    requires ok <==> !Refused(gaugeOk, fits, locked, list[i])
    ensures Explained(gaugeOk, fits, locked, list, i + 1, Appended(done, list[i], ok),
                      if ok then failed else failed + 1)
  {
    assert list[..i + 1] == list[..i] + [list[i]];
  }

  function RowAfter(row: Row, found: Store, p: PositionId, paid: bool): Row {
    if paid then Then(row, found, p) else row
  }

  /** One position more. */
  lemma ProgressMade(k: Params, s: Store, s0: Store, s1: Store, at: nat, gaugeOk: PositionId -> bool, fits: bool,
                     i: nat, done: seq<PositionId>, failed: nat, gone: seq<PositionId>, row: Row, paid: bool, ok: bool)
    requires Progress(k, s, s0, at, gaugeOk, fits, i, done, failed, gone, row) && i < |Listed(s.expiring, at)|
    requires Handles(k, s0, s1, at, gaugeOk, fits, Listed(s.expiring, at)[i], gone, paid, ok)
    ensures var p := Listed(s.expiring, at)[i];
      Progress(k, s, s1, at, gaugeOk, fits, i + 1, Appended(done, p, ok), if ok then failed else failed + 1,
               Appended(gone, p, paid), RowAfter(row, s0, p, paid))
  {
    var list := Listed(s.expiring, at);
    var p := list[i];
    ProgressIs(k, s, s0, at, gaugeOk, fits, i, done, failed, gone, row);
    assert ProgressIn(k, s, s0, at, gaugeOk, fits, i, done, failed, gone, row, Locks);
    assert p !in list[..i];
    assert EntryRight(s.book.locked, s.book.owner, s.expiring, at, p) && SameLock(s.book.locked, s0.book.locked, p);
    HandledMore(s0.book.locked, s1.book.locked, list, i, done, gone, paid, ok);
    SameLater(s.book.locked, s0.book.locked, s1.book.locked, list, i);
    ExplainedMore(gaugeOk, fits, s.book.locked, list, done, failed, i, ok);
  }

  lemma ProgressBegins(k: Params, s: Store, at: nat, gaugeOk: PositionId -> bool, fits: bool)
    requires IndexOk(s)
    ensures Progress(k, s, s, at, gaugeOk, fits, 0, [], 0, [], Nothing)
  {
    AgreesAnywhere(s.book.locked, s.book.owner, s.expiring, at);
  }

  // ---- List after list -----------------------------------------------------------------

  /** Block `at`'s list has been worked off: it is shorter by the positions handled, and the other lists and the locks
      on them are as they were. */
  ghost predicate ListDone(k: Params, s: Store, s': Store, at: nat, count: nat, gaugeOk: PositionId -> bool, fits: bool,
                           handled: nat, failed: nat, exhausted: bool, row: Row)
  {
    var limit, n := s.config.maxPerBlock, |Listed(s.expiring, at)|;
    && SameSettings(s, s') && PaidOut(k, s, s', row) && Length(row) <= handled
    && Drained(s.expiring, s'.expiring, at, handled)
    && count + handled <= limit
    && (if exhausted then count + handled == limit && handled + failed < n else handled + failed == n)
    && ((forall p :: AcceptedAt(gaugeOk, fits, s.book.locked, s.expiring, at, p)) ==> failed == 0)
    && (failed == 0 && !exhausted ==> forall p :: AcceptedAt(gaugeOk, fits, s.book.locked, s.expiring, at, p))
    && ListWorked(gaugeOk, fits, s.book.locked, s.expiring, s'.expiring, at + 1, exhausted, at)
    && forall p :: p !in Listed(s.expiring, at) ==> SameLock(s.book.locked, s'.book.locked, p)
  }

  /** The end of a list, once it has been swept. */
  lemma ListFinished(k: Params, s: Store, s1: Store, s2: Store, at: nat, count: nat, gaugeOk: PositionId -> bool,
                     fits: bool, i: nat, done: seq<PositionId>, failed: nat, gone: seq<PositionId>, exhausted: bool,
                     row: Row)
    requires Progress(k, s, s1, at, gaugeOk, fits, i, done, failed, gone, row)
    requires s2 == Reindexed(s1, s2) && s2.nextExpiring == s1.nextExpiring
    requires Drained(s1.expiring, s2.expiring, at, |done|)
    requires Listed(s2.expiring, at) == FilterOut(Listed(s.expiring, at), done)
    requires var limit, n := s.config.maxPerBlock, |Listed(s.expiring, at)|;
      count + |done| <= limit && if exhausted then count + |done| == limit && i < n else i == n
    ensures ListDone(k, s, s2, at, count, gaugeOk, fits, |done|, failed, exhausted, row)
  {
    var list := Listed(s.expiring, at);
    ProgressIs(k, s, s1, at, gaugeOk, fits, i, done, failed, gone, row);
    assert ProgressIn(k, s, s1, at, gaugeOk, fits, i, done, failed, gone, row, Locks);
    forall p | p in list[..i]
      ensures p in list
    {
    }
    ListExplained(gaugeOk, fits, s.book.locked, s.expiring, at, i, done, failed);
    SweptIsWorked(gaugeOk, fits, s.book.locked, s.expiring, s2.expiring, at, i, done, failed, exhausted);
    PaidOutReindexed(k, s, s1, s2, row);
  }

  lemma NothingListedAt(k: Params, s: Store, at: nat, count: nat, gaugeOk: PositionId -> bool, fits: bool)
    requires Listed(s.expiring, at) == [] && count <= s.config.maxPerBlock
    ensures ListDone(k, s, s, at, count, gaugeOk, fits, 0, 0, false, Nothing)
  {
  }

  ghost predicate AdvancedIn(k: Params, s: Store, s': Store, next: nat, handled: nat, failed: nat, exhausted: bool,
                             gaugeOk: PositionId -> bool, fits: bool, row: Row, aspect: Aspect)
  {
    var cursor, limit := s.nextExpiring, s.config.maxPerBlock;
    match aspect
    case Settings => SameSettings(s, s') && cursor <= next <= s.now + 1 && handled <= limit
    case Entries =>
      && DrainedTo(s.expiring, s'.expiring, cursor, next, handled)
      && if exhausted then cursor < next && handled == limit && failed < DueEntries(s'.expiring, cursor, next)
         else failed == DueEntries(s'.expiring, cursor, next)
    case Locks =>
      && SameFrom(s.book.locked, s'.book.locked, s.expiring, next)
      && Forecast(gaugeOk, fits, s.book.locked, s.expiring, cursor, next, failed, exhausted)
      && WorkedOff(gaugeOk, fits, s.book.locked, s.expiring, s'.expiring, cursor, next, exhausted)
    case Payments => PaidOut(k, s, s', row) && Length(row) <= handled
  }

  /** The lists from the cursor up to block `next` have been worked off. */
  ghost predicate Advanced(k: Params, s: Store, s': Store, next: nat, handled: nat, failed: nat, exhausted: bool,
                           gaugeOk: PositionId -> bool, fits: bool, row: Row)
  {
    forall aspect :: AdvancedIn(k, s, s', next, handled, failed, exhausted, gaugeOk, fits, row, aspect)
  }

  lemma AdvanceBegins(k: Params, s: Store, gaugeOk: PositionId -> bool, fits: bool)
    requires s.nextExpiring <= s.now
    ensures Advanced(k, s, s, s.nextExpiring, 0, 0, false, gaugeOk, fits, Nothing)
  {
  }

  lemma AdvanceIs(k: Params, s: Store, s': Store, next: nat, handled: nat, failed: nat, exhausted: bool,
                  gaugeOk: PositionId -> bool, fits: bool, row: Row)
    requires Advanced(k, s, s', next, handled, failed, exhausted, gaugeOk, fits, row)
    ensures SameSettings(s, s') && s.nextExpiring <= next <= s.now + 1 && handled <= s.config.maxPerBlock
    ensures PaidOut(k, s, s', row) && Length(row) <= handled
  {
    assert AdvancedIn(k, s, s', next, handled, failed, exhausted, gaugeOk, fits, row, Settings);
    assert AdvancedIn(k, s, s', next, handled, failed, exhausted, gaugeOk, fits, row, Payments);
  }

  lemma EntriesAdvanced(k: Params, s: Store, s1: Store, s2: Store, next: nat, handled: nat, failed: nat,
                        gaugeOk: PositionId -> bool, fits: bool, row: Row, h: nat, f: nat, exhausted: bool, more: Row)
    requires next <= s.now && Advanced(k, s, s1, next, handled, failed, false, gaugeOk, fits, row)
    requires ListDone(k, s1, s2, next, handled, gaugeOk, fits, h, f, exhausted, more)
    ensures AdvancedIn(k, s, s2, next + 1, handled + h, failed + f, exhausted, gaugeOk, fits,
                       Joined(row, more), Settings)
    ensures AdvancedIn(k, s, s2, next + 1, handled + h, failed + f, exhausted, gaugeOk, fits,
                       Joined(row, more), Entries)
    ensures AdvancedIn(k, s, s2, next + 1, handled + h, failed + f, exhausted, gaugeOk, fits,
                       Joined(row, more), Payments)
  {
    AdvanceIs(k, s, s1, next, handled, failed, false, gaugeOk, fits, row);
    assert AdvancedIn(k, s, s1, next, handled, failed, false, gaugeOk, fits, row, Entries);
    DrainedFurther(s.expiring, s1.expiring, s2.expiring, s.nextExpiring, next, handled, h);
    PaidOutJoined(k, s, s1, s2, row, more);
    JoinedLength(row, more);
  }

  lemma LocksAdvanced(k: Params, s: Store, s1: Store, s2: Store, next: nat, handled: nat, failed: nat,
                      gaugeOk: PositionId -> bool, fits: bool, row: Row, h: nat, f: nat, exhausted: bool, more: Row)
    requires IndexOk(s) && IndexOk(s1) && Advanced(k, s, s1, next, handled, failed, false, gaugeOk, fits, row)
    requires ListDone(k, s1, s2, next, handled, gaugeOk, fits, h, f, exhausted, more)
    ensures AdvancedIn(k, s, s2, next + 1, handled + h, failed + f, exhausted, gaugeOk, fits, Joined(row, more), Locks)
  {
    assert AdvancedIn(k, s, s1, next, handled, failed, false, gaugeOk, fits, row, Settings);
    assert AdvancedIn(k, s, s1, next, handled, failed, false, gaugeOk, fits, row, Entries);
    assert AdvancedIn(k, s, s1, next, handled, failed, false, gaugeOk, fits, row, Locks);
    SameFurther(s.book.locked, s1.book.locked, s2.book.locked, s1.book.owner, s.expiring, s1.expiring, next);
    ForecastFurther(gaugeOk, fits, s.book.locked, s.book.owner, s1.book.locked, s.expiring, s1.expiring, s.nextExpiring,
                    next, failed, f, exhausted);
    forall p | p in Listed(s.expiring, next)
      ensures p in s.book.locked
    {
      assert EntryRight(s.book.locked, s.book.owner, s.expiring, next, p);
    }
    WorkedFurther(gaugeOk, fits, s.book.locked, s1.book.locked, s.expiring, s1.expiring, s2.expiring, s.nextExpiring,
                  next, exhausted);
  }

  /** One list more. */
  lemma AdvancedBy(k: Params, s: Store, s1: Store, s2: Store, next: nat, handled: nat, failed: nat,
                   gaugeOk: PositionId -> bool, fits: bool, row: Row, h: nat, f: nat, exhausted: bool, more: Row)
    requires IndexOk(s) && IndexOk(s1) && next <= s.now
    requires Advanced(k, s, s1, next, handled, failed, false, gaugeOk, fits, row)
    requires ListDone(k, s1, s2, next, handled, gaugeOk, fits, h, f, exhausted, more)
    ensures Advanced(k, s, s2, next + 1, handled + h, failed + f, exhausted, gaugeOk, fits, Joined(row, more))
  {
    EntriesAdvanced(k, s, s1, s2, next, handled, failed, gaugeOk, fits, row, h, f, exhausted, more);
    LocksAdvanced(k, s, s1, s2, next, handled, failed, gaugeOk, fits, row, h, f, exhausted, more);
  }

  /** What is due fits the limit, and the payments go through for what holds something of it. */
  ghost predicate AllPayable(s: Store, gaugeOk: PositionId -> bool, fits: bool) {
    && Accepted(gaugeOk, fits, s.book.locked, s.expiring, s.nextExpiring, s.now + 1)
    && DueEntries(s.expiring, s.nextExpiring, s.now + 1) <= s.config.maxPerBlock
  }

  lemma SamePayable(s: Store, s': Store, gaugeOk: PositionId -> bool, fits: bool)
    requires s' == s.(accounts := s'.accounts, free := s'.free)
    ensures AllPayable(s', gaugeOk, fits) <==> AllPayable(s, gaugeOk, fits)
  {
  }

  lemma NothingPayable(s: Store, gaugeOk: PositionId -> bool, fits: bool)
    requires s.nextExpiring == 0 || s.now < s.nextExpiring
    ensures CursorSound(s.expiring, s.nextExpiring) ==> AllPayable(s, gaugeOk, fits)
  {
    if CursorSound(s.expiring, s.nextExpiring) {
      NothingListed(gaugeOk, fits, s.book.locked, s.expiring, s.nextExpiring, s.now + 1);
    }
  }

  // ---- What automatic withdrawal does ------------------------------------------------------

  /** What is left of the lists from the cursor on, once as many entries as the limit allows have been handled, and
      where the cursor is then. */
  ghost predicate DueWorked(s: Store, s': Store, gaugeOk: PositionId -> bool, fits: bool, handled: nat) {
    var cursor, next, limit := s.nextExpiring, s'.nextExpiring, s.config.maxPerBlock;
    && cursor < next <= s.now + 1 && handled <= limit && (handled < limit ==> next == s.now + 1)
    && DrainedTo(s.expiring, s'.expiring, cursor, next, handled)
    && WorkedOff(gaugeOk, fits, s.book.locked, s.expiring, s'.expiring, cursor, next, handled == limit)
  }

  lemma AdvanceIsWork(k: Params, s: Store, s': Store, next: nat, handled: nat, failed: nat, exhausted: bool,
                      gaugeOk: PositionId -> bool, fits: bool, row: Row)
    requires Advanced(k, s, s', next, handled, failed, exhausted, gaugeOk, fits, row)
    requires s.nextExpiring <= s.now && (exhausted || next == s.now + 1)
    ensures DueWorked(s, s'.(nextExpiring := next), gaugeOk, fits, handled)
  {
    assert AdvancedIn(k, s, s', next, handled, failed, exhausted, gaugeOk, fits, row, Settings);
    assert AdvancedIn(k, s, s', next, handled, failed, exhausted, gaugeOk, fits, row, Entries);
    assert AdvancedIn(k, s, s', next, handled, failed, exhausted, gaugeOk, fits, row, Locks);
    if !exhausted {
      WorkedAnyway(gaugeOk, fits, s.book.locked, s.expiring, s'.expiring, s.nextExpiring, next,
                   handled == s.config.maxPerBlock);
    }
  }

  lemma AdvanceIsSound(k: Params, s: Store, s': Store, next: nat, handled: nat, failed: nat, exhausted: bool,
                       gaugeOk: PositionId -> bool, fits: bool, row: Row)
    requires Advanced(k, s, s', next, handled, failed, exhausted, gaugeOk, fits, row) && 0 < s.nextExpiring <= s.now
    requires exhausted || next == s.now + 1
    ensures CursorSound(s.expiring, s.nextExpiring) ==>
      (CursorSound(s'.expiring, next) <==> AllPayable(s, gaugeOk, fits))
    ensures CursorSound(s'.expiring, next) ==> !exhausted
  {
    assert AdvancedIn(k, s, s', next, handled, failed, exhausted, gaugeOk, fits, row, Settings);
    assert AdvancedIn(k, s, s', next, handled, failed, exhausted, gaugeOk, fits, row, Entries);
    assert AdvancedIn(k, s, s', next, handled, failed, exhausted, gaugeOk, fits, row, Locks);
    DueEntriesNone(s'.expiring, s.nextExpiring, next);
    if CursorSound(s.expiring, s.nextExpiring) {
      CursorForecast(gaugeOk, fits, s.book.locked, s.expiring, s'.expiring, s.nextExpiring, next, s.now,
                     handled, failed, s.config.maxPerBlock, exhausted);
    }
  }

  /** At the end the cursor misses nothing exactly if all entries fit the limit and all payments go through. */
  lemma AdvanceEnds(k: Params, s: Store, s1: Store, s': Store, handled: nat, failed: nat, exhausted: bool,
                    gaugeOk: PositionId -> bool, fits: bool, row: Row)
    requires Advanced(k, s, s1, s'.nextExpiring, handled, failed, exhausted, gaugeOk, fits, row)
    requires 0 < s.nextExpiring <= s.now && (exhausted || s'.nextExpiring == s.now + 1)
    requires s' == s1.(nextExpiring := s'.nextExpiring)
    ensures PaidOut(k, s, s', row) && Length(row) <= handled && DueWorked(s, s', gaugeOk, fits, handled)
    ensures CursorSound(s.expiring, s.nextExpiring) ==>
      (CursorSound(s'.expiring, s'.nextExpiring) <==> AllPayable(s, gaugeOk, fits))
    ensures CursorSound(s'.expiring, s'.nextExpiring) ==> s.now < s'.nextExpiring
    ensures s'.config == s.config && s'.now == s.now
  {
    AdvanceIs(k, s, s1, s'.nextExpiring, handled, failed, exhausted, gaugeOk, fits, row);
    PaidOutReindexed(k, s, s1, s', row);
    AdvanceIsWork(k, s, s1, s'.nextExpiring, handled, failed, exhausted, gaugeOk, fits, row);
    AdvanceIsSound(k, s, s1, s'.nextExpiring, handled, failed, exhausted, gaugeOk, fits, row);
  }

  /** What that means for a position that is due: it is paid exactly if its payment goes through and the limit
      leaves room for its list. */
  lemma DuePaid(k: Params, s: Store, s': Store, gaugeOk: PositionId -> bool, fits: bool, handled: nat, row: Row,
                p: PositionId)
    requires IndexOk(s) && IndexOk(s') && PaidOut(k, s, s', row) && DueWorked(s, s', gaugeOk, fits, handled)
    requires IsDue(s, p) && s.nextExpiring <= s.book.locked[p].end
    ensures Refused(gaugeOk, fits, s.book.locked, p) ==> SamePosition(s, s', p)
    ensures s'.nextExpiring <= s.book.locked[p].end ==> SamePosition(s, s', p)
    ensures !Refused(gaugeOk, fits, s.book.locked, p) ==>
      s.book.locked[p].end + 1 < s'.nextExpiring || handled < s.config.maxPerBlock ==>
      p !in s'.book.owner && Get(s'.book.locked, p, NO_LOCK) == NO_LOCK
  {
    var b, next, exhausted := s.book.locked[p].end, s'.nextExpiring, handled == s.config.maxPerBlock;
    PaidOutMeaning(k, s, s', row, p);
    assert IsListed(s.book.locked, s.book.owner, s.expiring, p);
    assert EntryRight(s'.book.locked, s'.book.owner, s'.expiring, b, p);
    assert IsListed(s'.book.locked, s'.book.owner, s'.expiring, p);
    if s.nextExpiring <= b < next {
      assert ListWorked(gaugeOk, fits, s.book.locked, s.expiring, s'.expiring, next, exhausted, b);
      assert Worked(gaugeOk, fits, s.book.locked, s.expiring, s'.expiring, next, exhausted, b, p);
    }
  }

  // ---- The next round ------------------------------------------------------------------

  /** The round at the start of a block: if the last one ends now, its controller pays the next with the same
      currencies. A round that cannot be funded leaves the pool settled. */
  ghost predicate RoundRenewed(k: Params, s: Store, s': Store) {
    var conf := s.accounts.conf;
    if s.now != conf.periodFinish || conf.controller.None? || !Fits(k, s) then s' == s
    else if NotifyError(k, s, conf.controller.value, conf.rewardsDuration, conf.lastReward).Some?
         then s' == Updated(k, s, None)
    else RoundStarted(k, Updated(k, s, None), s', conf.controller.value, conf.lastReward)
  }
}
