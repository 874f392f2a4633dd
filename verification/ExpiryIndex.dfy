/** The index of positions by end block that drives automatic withdrawal. */
module ExpiryIndex {
  import opened Primitives
  import opened Curve
  import opened LockLedger

  type Index = map<nat, seq<PositionId>>
  type Owners = map<PositionId, Account>

  /** Room in one block's list. */
  const BLOCK_CAPACITY: nat := 100

  function Listed(index: Index, b: nat): seq<PositionId> {
    Get(index, b, [])
  }

  /** A listed position is owned and ends at the block it is listed under. */
  predicate RightPlace(locked: Locks, owner: Owners, b: nat, p: PositionId) {
    p in owner && p in locked && locked[p].end == b
  }

  predicate EntryRight(locked: Locks, owner: Owners, index: Index, b: nat, p: PositionId) {
    p in Listed(index, b) ==> RightPlace(locked, owner, b, p)
  }

  /** The same but for positions that are gone while block `at`'s list still names them. */
  predicate EntryKept(locked: Locks, owner: Owners, index: Index, at: nat, gone: seq<PositionId>,
                      b: nat, p: PositionId)
  {
    p in Listed(index, b) ==> (b == at && p in gone) || RightPlace(locked, owner, b, p)
  }

  predicate ListRight(index: Index, b: nat) {
    Distinct(Listed(index, b)) && |Listed(index, b)| <= BLOCK_CAPACITY
  }

  predicate IsListed(locked: Locks, owner: Owners, index: Index, p: PositionId) {
    p in owner && p in locked && locked[p].amount > 0 ==> p in Listed(index, locked[p].end)
  }

  /** Every listed position is owned and listed at its own end, without duplicates, and every
      position that holds something is listed. */
  ghost predicate Agrees(locked: Locks, owner: Owners, index: Index) {
    && (forall b, p :: EntryRight(locked, owner, index, b, p))
    && (forall b :: ListRight(index, b))
    && (forall p :: IsListed(locked, owner, index, p))
  }

  /** The index and the locks agree, up to the positions in `gone` that have been paid out
      but not yet taken off the list of block `at`. */
  ghost predicate AgreesExcept(locked: Locks, owner: Owners, index: Index, at: nat, gone: seq<PositionId>) {
    && (forall b, p :: EntryKept(locked, owner, index, at, gone, b, p))
    && (forall b :: ListRight(index, b))
    && (forall p :: IsListed(locked, owner, index, p))
    && (forall p :: p in gone ==> p !in owner)
  }

  function Record(index: Index, p: PositionId, b: nat): Index {
    index[b := if p in Listed(index, b) then Listed(index, b) else Listed(index, b) + [p]]
  }

  /** Where automatic withdrawal looks next once an end has been recorded; 0 is nowhere yet. */
  function CursorAfter(cursor: nat, end: nat): nat {
    if cursor == 0 || end < cursor then end else cursor
  }

  function Unrecord(index: Index, p: PositionId, b: nat): Index {
    if Listed(index, b) == [] then index else index[b := Filter(Listed(index, b), p)]
  }

  lemma UnrecordMeaning(index: Index, p: PositionId, b: nat)
    requires Distinct(Listed(index, b))
    ensures var index' := Unrecord(index, p, b);
            && (forall b' :: b' != b ==> Listed(index', b') == Listed(index, b'))
            && Distinct(Listed(index', b)) && |Listed(index', b)| <= |Listed(index, b)|
            && (forall q :: q in Listed(index', b) <==> q in Listed(index, b) && q != p)
  {
    FilterMeaning(Listed(index, b), p);
  }

  /** An agreeing index changes with one position: nowhere but on the new list may it be listed. */
  lemma ChangeAgrees(locked: Locks, owner: Owners, index: Index, locked': Locks, owner': Owners, index': Index,
          p: PositionId)
    requires Agrees(locked, owner, index)
    requires forall q :: q != p ==> (q in owner <==> q in owner') && (q in locked <==> q in locked')
    requires forall q :: q != p && q in locked ==> locked'[q] == locked[q]
    requires forall b, q :: q != p ==> (q in Listed(index', b) <==> q in Listed(index, b))
    requires forall b :: p in Listed(index', b) ==> RightPlace(locked', owner', b, p)
    requires IsListed(locked', owner', index', p)
    requires forall b :: ListRight(index', b)
    ensures Agrees(locked', owner', index')
  {
    forall b, q
      ensures EntryRight(locked', owner', index', b, q)
    {
      assert EntryRight(locked, owner, index, b, q);
    }
    forall q
      ensures IsListed(locked', owner', index', q)
    {
      assert IsListed(locked, owner, index, q);
    }
  }

  lemma RecordMeaning(index: Index, p: PositionId, b: nat)
    requires ListRight(index, b) && p !in Listed(index, b) && |Listed(index, b)| < BLOCK_CAPACITY
    ensures var index' := Record(index, p, b);
            && (forall b' :: b' != b ==> Listed(index', b') == Listed(index, b'))
            && Listed(index', b) == Listed(index, b) + [p] && ListRight(index', b)
  {
  }

  /** A new position is recorded at its end. */
  lemma CreateAgrees(locked: Locks, owner: Owners, index: Index, p: PositionId, who: Account, l: LockedBalance)
    requires Agrees(locked, owner, index) && p !in owner && |Listed(index, l.end)| < BLOCK_CAPACITY
    ensures p !in Listed(index, l.end)
    ensures Agrees(locked[p := l], owner[p := who], Record(index, p, l.end))
  {
    var index' := Record(index, p, l.end);
    forall b
      ensures p !in Listed(index, b) && ListRight(index, b)
    {
      assert EntryRight(locked, owner, index, b, p);
    }
    RecordMeaning(index, p, l.end);
    forall b
      ensures ListRight(index', b) && (p in Listed(index', b) <==> b == l.end)
    {
      assert ListRight(index, b);
    }
    ChangeAgrees(locked, owner, index, locked[p := l], owner[p := who], index', p);
  }

  /** A top-up leaves the end and so the index alone. */
  lemma TopUpAgrees(locked: Locks, owner: Owners, index: Index, p: PositionId, l: LockedBalance)
    requires Agrees(locked, owner, index) && p in locked
    requires l.end == locked[p].end && locked[p].amount > 0
    ensures Agrees(locked[p := l], owner, index)
  {
    assert IsListed(locked, owner, index, p);
    forall b
      ensures p in Listed(index, b) ==> RightPlace(locked[p := l], owner, b, p)
    {
      assert EntryRight(locked, owner, index, b, p);
    }
    ChangeAgrees(locked, owner, index, locked[p := l], owner, index, p);
  }

  /** Taking a position off the list of its end takes it off every list. */
  lemma UnrecordEverywhere(locked: Locks, owner: Owners, index: Index, p: PositionId)
    requires Agrees(locked, owner, index) && p in locked
    ensures var mid := Unrecord(index, p, locked[p].end);
            && (forall b :: p !in Listed(mid, b))
            && (forall b :: ListRight(mid, b))
            && (forall b, q :: q != p ==> (q in Listed(mid, b) <==> q in Listed(index, b)))
  {
    var mid := Unrecord(index, p, locked[p].end);
    assert ListRight(index, locked[p].end);
    UnrecordMeaning(index, p, locked[p].end);
    forall b
      ensures p !in Listed(mid, b) && ListRight(mid, b)
    {
      assert ListRight(index, b) && EntryRight(locked, owner, index, b, p);
    }
  }

  /** An extension moves the position from its old end to the new one. */
  lemma ExtendAgrees(locked: Locks, owner: Owners, index: Index, p: PositionId, l: LockedBalance)
    requires Agrees(locked, owner, index) && p in owner && p in locked
    requires |Listed(Unrecord(index, p, locked[p].end), l.end)| < BLOCK_CAPACITY
    ensures Agrees(locked[p := l], owner, Record(Unrecord(index, p, locked[p].end), p, l.end))
  {
    var mid := Unrecord(index, p, locked[p].end);
    var index' := Record(mid, p, l.end);
    UnrecordEverywhere(locked, owner, index, p);
    RecordMeaning(mid, p, l.end);
    forall b
      ensures ListRight(index', b) && (p in Listed(index', b) <==> b == l.end)
    {
      assert ListRight(mid, b);
    }
    forall b, q | q != p
      ensures q in Listed(index', b) <==> q in Listed(index, b)
    {
      assert q in Listed(mid, b) <==> q in Listed(index, b);
    }
    ChangeAgrees(locked, owner, index, locked[p := l], owner, index', p);
  }

  /** A withdrawn position leaves the list of its end. */
  lemma WithdrawAgrees(locked: Locks, owner: Owners, index: Index, p: PositionId)
    requires Agrees(locked, owner, index) && p in owner && p in locked
    ensures Agrees(locked[p := NO_LOCK], owner - {p}, Unrecord(index, p, locked[p].end))
  {
    UnrecordEverywhere(locked, owner, index, p);
    ChangeAgrees(locked, owner, index, locked[p := NO_LOCK], owner - {p}, Unrecord(index, p, locked[p].end), p);
  }

  // ---- Automatic withdrawal ------------------------------------------------------------

  lemma AgreesAnywhere(locked: Locks, owner: Owners, index: Index, at: nat)
    requires Agrees(locked, owner, index)
    ensures AgreesExcept(locked, owner, index, at, [])
  {
    forall b, p
      ensures EntryKept(locked, owner, index, at, [], b, p)
    {
      assert EntryRight(locked, owner, index, b, p);
    }
  }

  /** While a block's list is worked off, withdrawn positions stay listed for the moment. */
  lemma AutoWithdrawAgrees(locked: Locks, owner: Owners, index: Index, at: nat, gone: seq<PositionId>, p: PositionId)
    requires AgreesExcept(locked, owner, index, at, gone)
    requires p in Listed(index, at) && p in owner
    ensures p in locked && locked[p].end == at
    ensures AgreesExcept(locked[p := NO_LOCK], owner - {p}, index, at, gone + [p])
  {
    assert EntryKept(locked, owner, index, at, gone, at, p);
    var locked', owner', gone' := locked[p := NO_LOCK], owner - {p}, gone + [p];
    forall b, q
      ensures EntryKept(locked', owner', index, at, gone', b, q)
    {
      assert EntryKept(locked, owner, index, at, gone, b, q);
    }
    forall q
      ensures IsListed(locked', owner', index, q)
    {
      assert IsListed(locked, owner, index, q);
    }
  }

  /** Of the first i positions on a list, those in `done` have been handled: they are paid out, or
      hold nothing. */
  ghost predicate Handled(locked: Locks, list: seq<PositionId>, i: nat, done: seq<PositionId>, gone: seq<PositionId>) {
    && i <= |list| && Distinct(done) && (forall p :: p in gone ==> p in done)
    && (forall p :: p in done ==> p in list[..i])
    && (forall p :: p in done ==> p in gone || (p in locked && locked[p].amount == 0))
  }

  /** A list with one position more, if it is handled. */
  function Appended(list: seq<PositionId>, p: PositionId, handled: bool): seq<PositionId> {
    if handled then list + [p] else list
  }

  lemma HandledMore(locked: Locks, locked': Locks, list: seq<PositionId>, i: nat, done: seq<PositionId>,
                    gone: seq<PositionId>, paid: bool, ok: bool)
    requires Handled(locked, list, i, done, gone) && Distinct(list) && i < |list|
    requires forall q :: q != list[i] && q in locked ==> q in locked' && locked'[q] == locked[q]
    requires if ok then paid || (list[i] in locked' && locked'[list[i]].amount == 0) else !paid
    ensures Handled(locked', list, i + 1, Appended(done, list[i], ok), Appended(gone, list[i], paid))
  {
    assert list[..i + 1] == list[..i] + [list[i]];
    var p, earlier := list[i], list[..i];
    assert p !in earlier;
    assert p in done ==> p in earlier;
  }

  /** A list with the members of `gone` taken out. */
  function FilterOut(s: seq<PositionId>, gone: seq<PositionId>): seq<PositionId> {
    if s == [] then [] else
      (if s[0] in gone then [] else [s[0]]) + FilterOut(s[1..], gone)
  }

  lemma {:induction false} FilterOutMeaning(s: seq<PositionId>, gone: seq<PositionId>)
    requires Distinct(s)
    ensures var r := FilterOut(s, gone);
            && Distinct(r) && |r| <= |s|
            && (forall q :: q in r <==> q in s && q !in gone)
  {
    if s != [] {
      var t, r := s[1..], FilterOut(s, gone);
      assert forall q :: q in s <==> q == s[0] || q in t;
      assert Distinct(t) && s[0] !in t;
      FilterOutMeaning(t, gone);
      assert s[0] !in FilterOut(t, gone);
      assert r == if s[0] in gone then FilterOut(t, gone) else [s[0]] + FilterOut(t, gone);
    }
  }

  /** Taking the processed positions off the list restores full agreement. Besides the withdrawn
      ones these are positions that hold nothing. */
  lemma SweepAgrees(locked: Locks, owner: Owners, index: Index, at: nat, gone: seq<PositionId>,
                    done: seq<PositionId>, index': Index)
    requires AgreesExcept(locked, owner, index, at, gone) && forall p :: p in gone ==> p in done
    requires forall p :: p in done && p in owner && p in locked ==> locked[p].amount == 0
    requires forall b :: Listed(index', b) == if b == at then FilterOut(Listed(index, at), done) else Listed(index, b)
    ensures Agrees(locked, owner, index')
  {
    assert ListRight(index, at);
    FilterOutMeaning(Listed(index, at), done);
    forall b, p
      ensures EntryRight(locked, owner, index', b, p)
    {
      assert EntryKept(locked, owner, index, at, gone, b, p);
    }
    forall b
      ensures ListRight(index', b)
    {
      assert ListRight(index, b);
    }
    forall p
      ensures IsListed(locked, owner, index', p)
    {
      assert IsListed(locked, owner, index, p);
    }
  }

  /** How many entries are listed under blocks lo up to but not including hi. */
  function DueEntries(index: Index, lo: nat, hi: nat): nat
    decreases hi
  {
    if hi <= lo then 0 else |Listed(index, hi - 1)| + DueEntries(index, lo, hi - 1)
  }

  lemma {:induction false} DueEntriesSame(index: Index, index': Index, lo: nat, hi: nat)
    requires forall b :: lo <= b < hi ==> Listed(index, b) == Listed(index', b)
    ensures DueEntries(index, lo, hi) == DueEntries(index', lo, hi)
    decreases hi
  {
    if lo < hi {
      DueEntriesSame(index, index', lo, hi - 1);
    }
  }

  lemma {:induction false} DueEntriesSplit(index: Index, lo: nat, mid: nat, hi: nat)
    requires lo <= mid <= hi
    ensures DueEntries(index, lo, hi) == DueEntries(index, lo, mid) + DueEntries(index, mid, hi)
    decreases hi
  {
    if mid < hi {
      DueEntriesSplit(index, lo, mid, hi - 1);
    }
  }

  predicate Unlisted(index: Index, b: nat) {
    Listed(index, b) == []
  }

  /** Nothing is listed before block `cursor`. */
  ghost predicate LowerBound(index: Index, cursor: nat) {
    forall b: nat :: b < cursor ==> Unlisted(index, b)
  }

  /** Automatic withdrawal misses nothing: nothing is listed before the cursor, and nothing at all
      while the cursor is unset. */
  ghost predicate CursorSound(index: Index, cursor: nat) {
    LowerBound(index, cursor) && (cursor == 0 ==> forall b: nat :: Unlisted(index, b))
  }

  lemma RecordCursor(index: Index, p: PositionId, end: nat, cursor: nat)
    requires CursorSound(index, cursor) && 0 < end
    ensures CursorSound(Record(index, p, end), CursorAfter(cursor, end))
  {
    forall b: nat | b < CursorAfter(cursor, end)
      ensures Unlisted(Record(index, p, end), b)
    {
      assert Unlisted(index, b);
    }
  }

  lemma UnrecordCursor(index: Index, p: PositionId, end: nat, cursor: nat)
    requires CursorSound(index, cursor)
    ensures CursorSound(Unrecord(index, p, end), cursor)
  {
    forall b: nat | b < cursor || cursor == 0
      ensures Unlisted(Unrecord(index, p, end), b)
    {
      assert Unlisted(index, b);
    }
  }

  lemma {:induction false} DistinctSize(s: seq<PositionId>)
    requires Distinct(s)
    ensures |set p | p in s| == |s|
  {
    if s != [] {
      var t := s[1..];
      DistinctSize(t);
      assert Distinct(t) && s[0] !in t;
      assert (set p | p in s) == (set p | p in t) + {s[0]};
    }
  }

  lemma SizeWithout(s: set<PositionId>, gone: set<PositionId>)
    requires gone <= s
    ensures |s - gone| == |s| - |gone|
  {
    assert s == (s - gone) + gone;
  }

  /** Taking members off a list makes it shorter by as many. */
  lemma FilterOutSize(s: seq<PositionId>, gone: seq<PositionId>)
    requires Distinct(s) && Distinct(gone) && forall p :: p in gone ==> p in s
    ensures |FilterOut(s, gone)| == |s| - |gone|
  {
    var r := FilterOut(s, gone);
    FilterOutMeaning(s, gone);
    DistinctSize(s);
    DistinctSize(r);
    DistinctSize(gone);
    var all, out := set p | p in s, set p | p in gone;
    SizeWithout(all, out);
    assert (set p | p in r) == all - out;
  }

  lemma {:induction false} DueEntriesNone(index: Index, lo: nat, hi: nat)
    ensures DueEntries(index, lo, hi) == 0 <==> forall b: nat :: lo <= b < hi ==> Unlisted(index, b)
    decreases hi
  {
    if lo < hi {
      DueEntriesNone(index, lo, hi - 1);
      assert DueEntries(index, lo, hi) == 0 <==> DueEntries(index, lo, hi - 1) == 0 && Unlisted(index, hi - 1);
    }
  }

  /** Below its cursor a sound index is empty, so it stays sound up to `hi` just when nothing is
      listed from the cursor to there. */
  lemma CursorMoved(index: Index, index': Index, cursor: nat, hi: nat)
    requires CursorSound(index, cursor) && 0 < cursor <= hi
    requires forall b: nat :: b < cursor ==> Listed(index', b) == Listed(index, b)
    ensures CursorSound(index', hi) <==> DueEntries(index', cursor, hi) == 0
  {
    DueEntriesNone(index', cursor, hi);
    forall b: nat | b < cursor
      ensures Unlisted(index', b)
    {
      assert Unlisted(index, b);
    }
  }

  lemma HandledSize(locked: Locks, list: seq<PositionId>, done: seq<PositionId>, gone: seq<PositionId>)
    requires Handled(locked, list, |list|, done, gone) && Distinct(list)
    ensures |FilterOut(list, done)| == |list| - |done|
  {
    assert list[..|list|] == list;
    FilterOutSize(list, done);
  }

  /** `handled` entries have gone from block `at`'s list, and the other lists are as they were. */
  ghost predicate Drained(index: Index, index': Index, at: nat, handled: nat) {
    && |Listed(index', at)| == |Listed(index, at)| - handled
    && forall b: nat :: b != at ==> Listed(index', b) == Listed(index, b)
  }

  /** The entries from the cursor on, before and after the lists below `block` have been worked off. */
  ghost predicate DrainedTo(index: Index, index': Index, cursor: nat, block: nat, handled: nat) {
    && DueEntries(index', cursor, block) + handled == DueEntries(index, cursor, block)
    && forall b: nat :: b < cursor || block <= b ==> Listed(index', b) == Listed(index, b)
  }

  lemma DrainedFurther(index: Index, mid: Index, index': Index, cursor: nat, block: nat, handled: nat, more: nat)
    requires cursor <= block && DrainedTo(index, mid, cursor, block, handled) && Drained(mid, index', block, more)
    ensures DrainedTo(index, index', cursor, block + 1, handled + more)
    ensures DueEntries(index', cursor, block + 1) == DueEntries(mid, cursor, block) + |Listed(mid, block)| - more
  {
    assert Listed(mid, block) == Listed(index, block);
    DueEntriesSame(mid, index', cursor, block);
  }

  /** What can be said of the cursor once the lists up to `last` have been worked off: it misses
      nothing exactly when all entries fit the limit and every payment has succeeded. */
  lemma CursorVerdict(index: Index, index': Index, cursor: nat, next: nat, last: nat, handled: nat, failed: nat,
                      limit: nat, exhausted: bool)
    requires CursorSound(index, cursor) && 0 < cursor < next <= last + 1
    requires DrainedTo(index, index', cursor, next, handled) && handled <= limit
    requires if exhausted then handled == limit && failed < DueEntries(index', cursor, next)
             else failed == DueEntries(index', cursor, next) && next == last + 1
    ensures CursorSound(index', next) <==> failed == 0 && DueEntries(index, cursor, last + 1) <= limit
  {
    CursorMoved(index, index', cursor, next);
    DueEntriesSplit(index, cursor, next, last + 1);
  }

  // ---- Payments that fail --------------------------------------------------------------

  predicate SameLock(locked: Locks, locked': Locks, p: PositionId) {
    p in locked ==> p in locked' && locked'[p] == locked[p]
  }

  /** A position that holds something and whose payment does not go through. */
  predicate Refused(gaugeOk: PositionId -> bool, fits: bool, locked: Locks, p: PositionId) {
    p in locked && 0 < locked[p].amount && !(fits && gaugeOk(p))
  }

  /** Payments fail only where they do not go through, and of the first i those in `done` did. */
  ghost predicate Explained(gaugeOk: PositionId -> bool, fits: bool, locked: Locks, list: seq<PositionId>, i: nat,
                            done: seq<PositionId>, failed: nat)
  {
    && i <= |list| && (forall p :: p in done ==> !Refused(gaugeOk, fits, locked, p))
    && (forall p :: p in list[..i] && p !in done ==> Refused(gaugeOk, fits, locked, p))
    && ((forall p :: p in list ==> !Refused(gaugeOk, fits, locked, p)) ==> failed == 0)
  }

  lemma SameLater(locked: Locks, mid: Locks, after: Locks, list: seq<PositionId>, i: nat)
    requires i < |list| && (forall p :: p !in list[..i] ==> SameLock(locked, mid, p))
    requires forall p :: p != list[i] ==> SameLock(mid, after, p)
    ensures forall p :: p !in list[..i + 1] ==> SameLock(locked, after, p)
  {
    forall p | p !in list[..i + 1]
      ensures SameLock(locked, after, p)
    {
      assert p != list[i] by { assert list[..i + 1][i] == list[i]; }
      assert p !in list[..i] by { assert list[..i] <= list[..i + 1]; }
      assert SameLock(locked, mid, p) && SameLock(mid, after, p);
    }
  }

  lemma AllDone(list: seq<PositionId>, done: seq<PositionId>)
    requires Distinct(list) && Distinct(done) && |done| == |list| && forall p :: p in done ==> p in list
    ensures forall p :: p in list ==> p in done
  {
    DistinctSize(list);
    DistinctSize(done);
    var all, out := set p | p in list, set p | p in done;
    SizeWithout(all, out);
    assert |all - out| == 0;
    forall p | p in list
      ensures p in done
    {
      assert p in all;
    }
  }

  predicate AcceptedAt(gaugeOk: PositionId -> bool, fits: bool, locked: Locks, index: Index, b: nat, p: PositionId) {
    p in Listed(index, b) ==> !Refused(gaugeOk, fits, locked, p)
  }

  /** All payments of what is listed under blocks lo up to but not including hi go through. */
  ghost predicate Accepted(gaugeOk: PositionId -> bool, fits: bool, locked: Locks, index: Index, lo: nat, hi: nat) {
    forall b: nat, p :: lo <= b < hi ==> AcceptedAt(gaugeOk, fits, locked, index, b, p)
  }

  /** The locks that are listed from block `lo` on are as they were. */
  ghost predicate SameFrom(locked: Locks, locked': Locks, index: Index, lo: nat) {
    forall b: nat, p :: lo <= b && p in Listed(index, b) ==> SameLock(locked, locked', p)
  }

  /** Paying out one list leaves the locks on later lists alone: a position is listed once only. */
  lemma SameFurther(locked: Locks, mid: Locks, after: Locks, owner: Owners, index: Index, now: Index, block: nat)
    requires SameFrom(locked, mid, index, block) && Agrees(mid, owner, now)
    requires forall b: nat :: block <= b ==> Listed(now, b) == Listed(index, b)
    requires forall p :: p !in Listed(now, block) ==> SameLock(mid, after, p)
    ensures SameFrom(locked, after, index, block + 1)
  {
    forall b: nat, p | block + 1 <= b && p in Listed(index, b)
      ensures SameLock(locked, after, p)
    {
      assert Listed(now, b) == Listed(index, b);
      assert EntryRight(mid, owner, now, b, p) && EntryRight(mid, owner, now, block, p);
      assert SameLock(locked, mid, p) && SameLock(mid, after, p);
    }
  }

  /** What one more list adds to the account of failures. */
  lemma AcceptedFurther(gaugeOk: PositionId -> bool, fits: bool, locked: Locks, mid: Locks, index: Index,
                        now: Index, lo: nat, block: nat)
    requires lo <= block && SameFrom(locked, mid, index, block) && Listed(now, block) == Listed(index, block)
    requires forall p :: p in Listed(index, block) ==> p in locked && p in mid
    ensures Accepted(gaugeOk, fits, locked, index, lo, block + 1) <==>
      Accepted(gaugeOk, fits, locked, index, lo, block) && forall p :: AcceptedAt(gaugeOk, fits, mid, now, block, p)
  {
    forall p
      ensures AcceptedAt(gaugeOk, fits, locked, index, block, p) <==> AcceptedAt(gaugeOk, fits, mid, now, block, p)
    {
      if p in Listed(index, block) {
        assert SameLock(locked, mid, p);
      }
    }
    if Accepted(gaugeOk, fits, locked, index, lo, block + 1) {
      forall p
        ensures AcceptedAt(gaugeOk, fits, mid, now, block, p)
      {
        assert AcceptedAt(gaugeOk, fits, locked, index, block, p);
      }
    }
  }

  lemma ListExplained(gaugeOk: PositionId -> bool, fits: bool, locked: Locks, index: Index, at: nat, i: nat,
                      done: seq<PositionId>, failed: nat)
    requires Explained(gaugeOk, fits, locked, Listed(index, at), i, done, failed)
    requires Distinct(Listed(index, at)) && Distinct(done) && forall p :: p in done ==> p in Listed(index, at)
    ensures (forall p :: AcceptedAt(gaugeOk, fits, locked, index, at, p)) ==> failed == 0
    ensures |done| == |Listed(index, at)| ==> forall p :: AcceptedAt(gaugeOk, fits, locked, index, at, p)
  {
    if forall p :: AcceptedAt(gaugeOk, fits, locked, index, at, p) {
      forall p | p in Listed(index, at)
        ensures !Refused(gaugeOk, fits, locked, p)
      {
        assert AcceptedAt(gaugeOk, fits, locked, index, at, p);
      }
    }
    if |done| == |Listed(index, at)| {
      AllDone(Listed(index, at), done);
    }
  }

  /** What the failures up to block `next` say of the payments. */
  ghost predicate Forecast(gaugeOk: PositionId -> bool, fits: bool, locked: Locks, index: Index, cursor: nat,
                           next: nat, failed: nat, exhausted: bool)
  {
    && (Accepted(gaugeOk, fits, locked, index, cursor, next) ==> failed == 0)
    && (failed == 0 && !exhausted ==> Accepted(gaugeOk, fits, locked, index, cursor, next))
  }

  lemma ForecastFurther(gaugeOk: PositionId -> bool, fits: bool, locked: Locks, owner: Owners, mid: Locks,
                        index: Index, now: Index, cursor: nat, block: nat, failed: nat, f: nat, exhausted: bool)
    requires cursor <= block && Forecast(gaugeOk, fits, locked, index, cursor, block, failed, false)
    requires SameFrom(locked, mid, index, block) && Listed(now, block) == Listed(index, block)
    requires Agrees(locked, owner, index)
    requires (forall p :: AcceptedAt(gaugeOk, fits, mid, now, block, p)) ==> f == 0
    requires f == 0 && !exhausted ==> forall p :: AcceptedAt(gaugeOk, fits, mid, now, block, p)
    ensures Forecast(gaugeOk, fits, locked, index, cursor, block + 1, failed + f, exhausted)
  {
    forall p | p in Listed(index, block)
      ensures p in locked && p in mid
    {
      assert EntryRight(locked, owner, index, block, p) && SameLock(locked, mid, p);
    }
    AcceptedFurther(gaugeOk, fits, locked, mid, index, now, cursor, block);
  }

  /** Nothing listed means nothing due and no payment to fail. */
  lemma NothingListed(gaugeOk: PositionId -> bool, fits: bool, locked: Locks, index: Index, cursor: nat, hi: nat)
    requires CursorSound(index, cursor) && (cursor == 0 || hi <= cursor)
    ensures DueEntries(index, cursor, hi) == 0 && Accepted(gaugeOk, fits, locked, index, cursor, hi)
  {
    DueEntriesNone(index, cursor, hi);
    forall b: nat, p | cursor <= b < hi
      ensures AcceptedAt(gaugeOk, fits, locked, index, b, p)
    {
      assert Unlisted(index, b);
    }
  }

  /** What can be said of the cursor before the block: it will miss nothing exactly when all entries fit the
      limit and all payments go through. */
  lemma CursorForecast(gaugeOk: PositionId -> bool, fits: bool, locked: Locks, index: Index, index': Index,
                       cursor: nat, next: nat, last: nat, handled: nat, failed: nat, limit: nat, exhausted: bool)
    requires CursorSound(index, cursor) && 0 < cursor < next <= last + 1
    requires DrainedTo(index, index', cursor, next, handled) && handled <= limit
    requires if exhausted then handled == limit && failed < DueEntries(index', cursor, next)
             else failed == DueEntries(index', cursor, next) && next == last + 1
    requires Forecast(gaugeOk, fits, locked, index, cursor, next, failed, exhausted)
    ensures CursorSound(index', next) <==>
      Accepted(gaugeOk, fits, locked, index, cursor, last + 1) && DueEntries(index, cursor, last + 1) <= limit
  {
    CursorVerdict(index, index', cursor, next, last, handled, failed, limit, exhausted);
    CursorMoved(index, index', cursor, next);
    if Accepted(gaugeOk, fits, locked, index, cursor, last + 1) {
      assert Accepted(gaugeOk, fits, locked, index, cursor, next);
    }
  }

  // ---- Who is left -------------------------------------------------------------------------

  /** An entry of a list that has been worked off, the last of them only in part if the limit was met: it stays if
      its payment does not go through, and otherwise it is gone unless the limit came first. */
  predicate Worked(gaugeOk: PositionId -> bool, fits: bool, locked: Locks, index: Index, index': Index, next: nat,
                   exhausted: bool, b: nat, p: PositionId)
  {
    p in Listed(index, b) ==>
      if Refused(gaugeOk, fits, locked, p) then p in Listed(index', b)
      else (b + 1 < next || !exhausted ==> p !in Listed(index', b))
  }

  /** A list is worked off in order: before an entry that is gone only those stay whose payment does not go through. */
  predicate InTurn(gaugeOk: PositionId -> bool, fits: bool, locked: Locks, index: Index, index': Index, b: nat,
                   i: nat, j: nat)
  {
    var list, rest := Listed(index, b), Listed(index', b);
    i < j < |list| && list[j] !in rest ==> list[i] !in rest || Refused(gaugeOk, fits, locked, list[i])
  }

  ghost predicate ListWorked(gaugeOk: PositionId -> bool, fits: bool, locked: Locks, index: Index, index': Index,
                             next: nat, exhausted: bool, b: nat)
  {
    && (forall p :: Worked(gaugeOk, fits, locked, index, index', next, exhausted, b, p))
    && forall i: nat, j: nat :: InTurn(gaugeOk, fits, locked, index, index', b, i, j)
  }

  /** All lists from the cursor up to block `next` have been worked off. */
  ghost predicate WorkedOff(gaugeOk: PositionId -> bool, fits: bool, locked: Locks, index: Index, index': Index,
                            cursor: nat, next: nat, exhausted: bool)
  {
    forall b: nat :: cursor <= b < next ==> ListWorked(gaugeOk, fits, locked, index, index', next, exhausted, b)
  }

  lemma SweptIsWorked(gaugeOk: PositionId -> bool, fits: bool, locked: Locks, index: Index, index': Index, at: nat,
                      i: nat, done: seq<PositionId>, failed: nat, exhausted: bool)
    requires Explained(gaugeOk, fits, locked, Listed(index, at), i, done, failed) && Distinct(Listed(index, at))
    requires (forall p :: p in done ==> p in Listed(index, at)[..i]) && (exhausted || i == |Listed(index, at)|)
    requires Listed(index', at) == FilterOut(Listed(index, at), done)
    ensures ListWorked(gaugeOk, fits, locked, index, index', at + 1, exhausted, at)
  {
    var list := Listed(index, at);
    FilterOutMeaning(list, done);
    assert i == |list| ==> list[..i] == list;
    forall h: nat, j: nat | h < j < |list| && list[j] in done
      ensures list[h] in done || Refused(gaugeOk, fits, locked, list[h])
    {
      assert list[..i][h] == list[h];
    }
  }

  lemma WorkedFurther(gaugeOk: PositionId -> bool, fits: bool, locked: Locks, mid: Locks, index: Index, now: Index,
                      index': Index, cursor: nat, block: nat, exhausted: bool)
    requires WorkedOff(gaugeOk, fits, locked, index, now, cursor, block, false)
    requires ListWorked(gaugeOk, fits, mid, now, index', block + 1, exhausted, block)
    requires SameFrom(locked, mid, index, block) && Listed(now, block) == Listed(index, block)
    requires forall b: nat :: b != block ==> Listed(index', b) == Listed(now, b)
    requires forall p :: p in Listed(index, block) ==> p in locked
    ensures WorkedOff(gaugeOk, fits, locked, index, index', cursor, block + 1, exhausted)
  {
    var next := block + 1;
    forall b: nat, p | cursor <= b < next
      ensures Worked(gaugeOk, fits, locked, index, index', next, exhausted, b, p)
    {
      if b < block {
        assert ListWorked(gaugeOk, fits, locked, index, now, block, false, b);
        assert Worked(gaugeOk, fits, locked, index, now, block, false, b, p);
      } else {
        assert Worked(gaugeOk, fits, mid, now, index', next, exhausted, block, p);
        assert p in Listed(index, block) ==> SameLock(locked, mid, p);
      }
    }
    forall b: nat, i: nat, j: nat | cursor <= b < next
      ensures InTurn(gaugeOk, fits, locked, index, index', b, i, j)
    {
      if b < block {
        assert ListWorked(gaugeOk, fits, locked, index, now, block, false, b);
        assert InTurn(gaugeOk, fits, locked, index, now, b, i, j);
      } else {
        assert InTurn(gaugeOk, fits, mid, now, index', b, i, j);
        assert i < |Listed(index, b)| ==> SameLock(locked, mid, Listed(index, b)[i]);
      }
    }
  }

  /** Not to have met the limit says more. */
  lemma WorkedAnyway(gaugeOk: PositionId -> bool, fits: bool, locked: Locks, index: Index, index': Index,
                     cursor: nat, next: nat, exhausted: bool)
    requires WorkedOff(gaugeOk, fits, locked, index, index', cursor, next, false)
    ensures WorkedOff(gaugeOk, fits, locked, index, index', cursor, next, exhausted)
  {
    forall b: nat, p | cursor <= b < next
      ensures Worked(gaugeOk, fits, locked, index, index', next, exhausted, b, p)
    {
      assert ListWorked(gaugeOk, fits, locked, index, index', next, false, b);
      assert Worked(gaugeOk, fits, locked, index, index', next, false, b, p);
    }
    forall b: nat, i: nat, j: nat | cursor <= b < next
      ensures InTurn(gaugeOk, fits, locked, index, index', b, i, j)
    {
      assert ListWorked(gaugeOk, fits, locked, index, index', next, false, b);
    }
  }

  // ---- Entries that are left behind ----------------------------------------------------

  /** Block b has gone by, and automatic withdrawal looks only at later ones. */
  predicate Passed(now: nat, cursor: nat, b: nat) {
    b <= now && b < cursor
  }

  /** Time and cursor move on: back the cursor goes only to ends that lie ahead. */
  predicate Onward(now: nat, cursor: nat, now': nat, cursor': nat) {
    now <= now' && (cursor <= cursor' || now < cursor')
  }

  /** An index that misses nothing, with its cursor ahead, leaves nothing to pay out. */
  lemma NothingDue(locked: Locks, owner: Owners, index: Index, cursor: nat, now: nat, p: PositionId)
    requires Agrees(locked, owner, index) && CursorSound(index, cursor) && (cursor == 0 || now < cursor)
    requires p in owner && p in locked && 0 < locked[p].amount
    ensures now < locked[p].end
  {
    assert IsListed(locked, owner, index, p) && Unlisted(index, locked[p].end) == (Listed(index, locked[p].end) == []);
  }
}
