/** The clearing cycle of the channel-commission pallet on values: its phases and what they mean for the
    books, and the loops of its block hook. */
module ClearingCycle {
  import opened Primitives
  import opened Sums
  import opened Tokens
  import opened Clearing

  /** Where the clearing of the last period stands: done, or begun with the base books and channel
      `from` and arrived at channel i. A pass begins with channel 0; another one over the channels that
      are left begins when a channel is registered too late. */
  datatype Phase = Idle | Pass(base: Books, from: nat, i: nat)

  // ---- Invariants ----------------------------------------------------------------------

  function CurrentMintBy(b: Books, ch: ChannelId, v: Currency): nat {
    Get(b.channelMint, (ch, v), NOTHING).current
  }

  function CurrentMintsOf(b: Books, v: Currency): int -> int {
    ch => if ch < 0 then 0 else CurrentMintBy(b, ch, v)
  }

  /** What registered channels have minted is part of what has been minted, in both periods. */
  predicate MintsAdd(b: Books, v: Currency) {
    MintsFit(b, v) && SumTo(b.nextId, CurrentMintsOf(b, v)) <= Get(b.totalMint, v, NOTHING).current
  }

  predicate Registered(b: Books, ch: ChannelId, v: Currency) {
    && (ch in b.channels ==> ch < b.nextId)
    && ((ch, v) in b.shares || (ch, v) in b.channelMint ==> ch in b.channels)
  }

  ghost predicate Sound(b: Books) {
    && RatesFit(b) && (forall v :: MintsAdd(b, v)) && forall ch: ChannelId, v :: Registered(b, ch, v)
  }

  ghost predicate AllShared(b: Books) {
    forall v :: SharesFit(b, v)
  }

  predicate NothingCleared(cleared: Cleared, c: Currency) {
    Get(cleared, c, 0) == 0
  }

  ghost predicate Settled(cleared: Cleared) {
    forall c :: NothingCleared(cleared, c)
  }

  ghost predicate AllGrow(b: Books) {
    forall v :: IssuanceGrows(b, v)
  }

  ghost predicate PhaseOk(b: Books, cleared: Cleared, phase: Phase) {
    match phase
    case Idle => AllShared(b) && AllGrow(b) && Settled(cleared)
    case Pass(base, from, i) =>
      && InPass(base, b, cleared, from, i) && i <= base.nextId && (from == 0 || NewFrom(base, from))
      && Sound(base) && AllShared(base) && AllGrow(base)
  }

  /** The books, what has been cleared, the last block and the phase fit each other. */
  ghost predicate Consistent(d: pos, b: Books, cleared: Cleared, last: nat, phase: Phase) {
    Sound(b) && PhaseOk(b, cleared, phase) && OnTime(d, b.nextId, last, phase)
  }

  /** The phase that belongs to the last block, in a clearing period of d blocks. */
  predicate OnTime(d: pos, nextId: nat, last: nat, phase: Phase) {
    && nextId + 1 < d
    && match phase
       case Idle => nextId + 1 <= last % d
       case Pass(_, _, i) => last % d == i <= nextId
  }

  lemma NextInPeriod(d: pos, last: nat)
    ensures (last + 1) % d == if last % d + 1 == d then 0 else last % d + 1
  {
    var q, r := last / d, last % d;
    Euclid(last, d);
    if r + 1 == d {
      Distribute(d, q, 1);
      DivUnique(last + 1, d, q + 1, 0);
    } else {
      DivUnique(last + 1, d, q, r + 1);
    }
  }

  // ---- Rollover ------------------------------------------------------------------------

  /** The period under way becomes the one being cleared. */
  function Shifted<K>(m: map<K, Pair>): map<K, Pair> {
    map key | key in m :: Pair(m[key].current, 0)
  }

  method ShiftAll<K(==)>(m: map<K, Pair>) returns (r: map<K, Pair>)
    ensures r == Shifted(m)
  {
    r := m;
    var todo := m.Keys;
    while todo != {}
      invariant todo <= m.Keys && r.Keys == m.Keys
      invariant forall key :: key in m ==> r[key] == if key in todo then m[key] else Pair(m[key].current, 0)
      decreases todo
    {
      var key :| key in todo;
      r := r[key := Pair(r[key].current, 0)];
      todo := todo - {key};
    }
  }

  /** The issuance on record becomes the old one; the new one is what is issued now. */
  function Reissued(m: map<Currency, Pair>, issued: Currency -> Balance): map<Currency, Pair> {
    map v | v in m :: Pair(m[v].current, issued(v))
  }

  method ReissueAll(m: map<Currency, Pair>, issued: Currency -> Balance) returns (r: map<Currency, Pair>)
    ensures r == Reissued(m, issued)
  {
    r := m;
    var todo := m.Keys;
    while todo != {}
      invariant todo <= m.Keys && r.Keys == m.Keys
      invariant forall v :: v in m ==> r[v] == if v in todo then m[v] else Pair(m[v].current, issued(v))
      decreases todo
    {
      var v :| v in todo;
      r := r[v := Pair(r[v].current, issued(v))];
      todo := todo - {v};
    }
  }

  function RolledOver(b: Books, issued: Currency -> Balance): Books {
    b.(issuance := Reissued(b.issuance, issued), totalMint := Shifted(b.totalMint),
       totalRedeem := Shifted(b.totalRedeem),
       channelMint := Shifted(b.channelMint), commissions := Shifted(b.commissions))
  }

  lemma ShiftedAt<K>(m: map<K, Pair>, key: K)
    ensures Get(Shifted(m), key, NOTHING) == Pair(Get(m, key, NOTHING).current, 0)
  {
  }

  /** Every amount of the period under way becomes one of the period being cleared, and starts anew; of a vtoken with
      an issuance on record the new one is taken down. Channels, rates and shares stay. */
  lemma RollsOver(b: Books, issued: Currency -> Balance, ch: ChannelId, v: Currency, c: Currency)
    ensures var b' := RolledOver(b, issued);
      && Get(b'.totalMint, v, NOTHING) == Pair(Get(b.totalMint, v, NOTHING).current, 0)
      && Get(b'.totalRedeem, v, NOTHING) == Pair(Get(b.totalRedeem, v, NOTHING).current, 0)
      && Get(b'.channelMint, (ch, v), NOTHING) == Pair(Get(b.channelMint, (ch, v), NOTHING).current, 0)
      && Get(b'.commissions, c, NOTHING) == Pair(Get(b.commissions, c, NOTHING).current, 0)
      && (v in b'.issuance <==> v in b.issuance)
      && (v in b.issuance ==> b'.issuance[v] == Pair(b.issuance[v].current, issued(v)))
      && b'.nextId == b.nextId && b'.channels == b.channels && b'.tokens == b.tokens
      && b'.rates == b.rates && b'.shares == b.shares
  {
    ShiftedAt(b.totalMint, v);
    ShiftedAt(b.totalRedeem, v);
    ShiftedAt(b.channelMint, (ch, v));
    ShiftedAt(b.commissions, c);
  }

  lemma RolledOverMints(b: Books, issued: Currency -> Balance, v: Currency)
    requires MintsAdd(b, v)
    ensures MintsAdd(RolledOver(b, issued), v)
  {
    var b' := RolledOver(b, issued);
    ShiftedAt(b.totalMint, v);
    forall ch | 0 <= ch < b.nextId
      ensures SameAt(CurrentMintsOf(b, v), MintsOf(b', v), ch) && SameAt(CurrentMintsOf(b', v), Zero(), ch)
    {
      ShiftedAt(b.channelMint, (ch, v));
    }
    SumToSame(b.nextId, CurrentMintsOf(b, v), MintsOf(b', v));
    SumToSame(b.nextId, CurrentMintsOf(b', v), Zero());
    ZeroSum(b.nextId);
  }

  // Sums that do not change.

  lemma SameShares(b: Books, b': Books, v: Currency)
    requires b'.nextId == b.nextId && SharesFit(b, v)
    requires forall ch: ChannelId :: b'.ShareOf(ch, v) == b.ShareOf(ch, v)
    ensures SharesFit(b', v)
  {
    forall ch | 0 <= ch < b.nextId
      ensures SameAt(SharesOf(b, v), SharesOf(b', v), ch)
    {
    }
    SumToSame(b.nextId, SharesOf(b, v), SharesOf(b', v));
  }

  /** Channels that have minted less still add up. */
  lemma FewerMints(b: Books, b': Books, v: Currency)
    requires MintsAdd(b, v) && b'.nextId == b.nextId && b'.totalMint == b.totalMint
    requires forall ch: ChannelId ::
      b'.MintedBy(ch, v) <= b.MintedBy(ch, v) && CurrentMintBy(b', ch, v) <= CurrentMintBy(b, ch, v)
    ensures MintsAdd(b', v)
  {
    forall ch | 0 <= ch < b.nextId
      ensures AtMostAt(MintsOf(b', v), MintsOf(b, v), ch) && AtMostAt(CurrentMintsOf(b', v), CurrentMintsOf(b, v), ch)
    {
    }
    SumToLe(b.nextId, MintsOf(b', v), MintsOf(b, v));
    SumToLe(b.nextId, CurrentMintsOf(b', v), CurrentMintsOf(b, v));
  }

  /** Rollover keeps the books sound and the shares as they are. */
  lemma RolledOverSound(b: Books, issued: Currency -> Balance)
    requires Sound(b) && AllShared(b)
    ensures Sound(RolledOver(b, issued)) && AllShared(RolledOver(b, issued))
  {
    var b' := RolledOver(b, issued);
    forall ch: ChannelId, v
      ensures Registered(b', ch, v) && RateFits(b', ch, v)
    {
      assert Registered(b, ch, v) && RateFits(b, ch, v);
    }
    forall v
      ensures MintsAdd(b', v) && SharesFit(b', v)
    {
      assert MintsAdd(b, v) && SharesFit(b, v);
      RolledOverMints(b, issued, v);
      SameShares(b, b', v);
    }
  }

  // ---- The beginning of a pass ---------------------------------------------------------

  lemma Begin(b: Books, cleared: Cleared, from: nat)
    requires Sound(b) && AllShared(b) && AllGrow(b) && Settled(cleared)
    requires from <= b.nextId && (from == 0 || NewFrom(b, from))
    ensures PhaseOk(b, cleared, Pass(b, from, from))
  {
    forall c
      ensures Get(cleared, c, 0) == 0
    {
      assert NothingCleared(cleared, c);
    }
    PassStarts(b, cleared, from);
  }

  // ---- Clearing one channel ------------------------------------------------------------

  /** The claims of channel ch in token c have grown by x. */
  predicate ClaimRaised(claimable: Claimable, claimable': Claimable, ch: ChannelId, c: Currency, x: int) {
    Get(claimable', (ch, c), 0) == Min(Get(claimable, (ch, c), 0) + Max0(x), U128_MAX)
  }

  predicate ClearedRaised(cleared: Cleared, cleared': Cleared, c: Currency, x: int) {
    Get(cleared', c, 0) == Min(Get(cleared, c, 0) + Max0(x), U128_MAX)
  }

  lemma DoneMore(b: Books, ch: ChannelId, done: set<Currency>, v: Currency, c: Currency)
    requires v !in done
    ensures 0 <= Sum(done, CreditTo(b, ch, c))
    ensures Sum(done + {v}, CreditTo(b, ch, c)) == Sum(done, CreditTo(b, ch, c)) + CreditTo(b, ch, c)(v)
  {
    SumNonNeg(done, CreditTo(b, ch, c));
    SumAdd(done, CreditTo(b, ch, c), v);
  }

  /** The vtokens in `done` have been credited to channel ch, as far as token c is concerned. */
  ghost predicate CreditedSoFar(b: Books, ch: ChannelId, done: set<Currency>, cleared: Cleared, cleared': Cleared,
                                claimable: Claimable, claimable': Claimable, c: Currency)
  {
    && ClearedRaised(cleared, cleared', c, Sum(done, CreditTo(b, ch, c)))
    && ClaimRaised(claimable, claimable', ch, c, Sum(done, CreditTo(b, ch, c)))
    && forall d: ChannelId :: d != ch ==> Get(claimable', (d, c), 0) == Get(claimable, (d, c), 0)
  }

  /** Crediting vtoken v as well, which concerns only its own commission token. */
  lemma CreditedMore(b: Books, ch: ChannelId, done: set<Currency>, v: Currency, cleared: Cleared, cl: Cleared,
                     cl': Cleared, claimable: Claimable, cm: Claimable, cm': Claimable, c: Currency)
    requires v !in done && CreditedSoFar(b, ch, done, cleared, cl, claimable, cm, c)
    requires var x := CreditTo(b, ch, c)(v);
      0 <= x && Get(cl', c, 0) == SatAdd(Get(cl, c, 0), x) && Get(cm', (ch, c), 0) == SatAdd(Get(cm, (ch, c), 0), x)
    requires forall d: ChannelId :: d != ch ==> Get(cm', (d, c), 0) == Get(cm, (d, c), 0)
    ensures CreditedSoFar(b, ch, done + {v}, cleared, cl', claimable, cm', c)
  {
    DoneMore(b, ch, done, v, c);
  }

  /** Credits a channel its commission for each of its vtokens. */
  method ClearChannelCommissions(b: Books, ch: ChannelId, cleared: Cleared, claimable: Claimable)
    returns (cleared': Cleared, claimable': Claimable)
    ensures forall c :: CreditedSoFar(b, ch, b.VtokensOf(ch), cleared, cleared', claimable, claimable', c)
  {
    cleared', claimable' := cleared, claimable;
    if ch !in b.channels {
      forall c
        ensures CreditedSoFar(b, ch, b.VtokensOf(ch), cleared, cleared', claimable, claimable', c)
      {
        SumZero(b.VtokensOf(ch), CreditTo(b, ch, c));
      }
      return;
    }
    var all := b.VtokensOf(ch);
    var todo := all;
    while todo != {}
      invariant todo <= all
      invariant forall c :: CreditedSoFar(b, ch, all - todo, cleared, cleared', claimable, claimable', c)
      decreases todo
    {
      var v :| v in todo;
      ghost var done, cl, cm := all - todo, cleared', claimable';
      VtokenOf(b, ch, v);
      if v in b.tokens && b.Issued(v).past != 0 {
        var c := b.tokens[v];
        var raw := MulDiv(b.Total(c), b.ShareOf(ch, v), MILLION);
        var credit := MulDiv(raw, b.RateOf(ch, v), HUNDRED);
        claimable' := claimable'[(ch, c) := SatAdd(Get(claimable', (ch, c), 0), credit)];
        cleared' := cleared'[c := SatAdd(Get(cleared', c, 0), credit)];
      }
      todo := todo - {v};
      assert all - todo == done + {v};
      forall c
        ensures CreditedSoFar(b, ch, all - todo, cleared, cleared', claimable, claimable', c)
      {
        assert CreditedSoFar(b, ch, done, cleared, cl, claimable, cm, c);
        CreditedMore(b, ch, done, v, cleared, cl, cleared', claimable, cm, claimable', c);
      }
    }
    assert all - todo == all;
  }

  /** Gives a channel its new shares. */
  method UpdateChannelVtokenShares(b: Books, ch: ChannelId) returns (shares: map<(ChannelId, Currency), nat>)
    ensures shares.Keys == b.shares.Keys
    ensures forall d: ChannelId, v :: (d, v) in b.shares ==>
      shares[(d, v)] == if d == ch then NewShare(b, d, v) else b.shares[(d, v)]
  {
    shares := b.shares;
    var all := b.VtokensOf(ch);
    var todo := all;
    while todo != {}
      invariant todo <= all && shares.Keys == b.shares.Keys
      invariant forall d: ChannelId, v :: (d, v) in b.shares ==>
        shares[(d, v)] == if d == ch && v in all - todo then NewShare(b, d, v) else b.shares[(d, v)]
      decreases todo
    {
      var v :| v in todo;
      VtokenOf(b, ch, v);
      if b.Redeemed(v) < b.Minted(v) {
        var share := FromRational(Holding(b, ch, v), b.Issued(v).current);
        shares := shares[(ch, v) := if share.Some? then share.value else 0];
      }
      todo := todo - {v};
    }
    forall v | (ch, v) in b.shares
      ensures v in all - todo
    {
      VtokenOf(b, ch, v);
    }
  }

  lemma ClearedStep(base: Books, b: Books, cl: Cleared, cm: Claimable, b': Books,
                    cl': Cleared, cm': Claimable, from: nat, ch: ChannelId)
    requires InPass(base, b, cl, from, ch)
    requires forall c :: CreditedSoFar(b, ch, b.VtokensOf(ch), cl, cl', cm, cm', c)
    requires b' == b.(shares := b'.shares) && b'.shares.Keys == b.shares.Keys
    requires forall d: ChannelId, v :: (d, v) in b.shares ==>
      b'.shares[(d, v)] == if d == ch then NewShare(b, d, v) else b.shares[(d, v)]
    ensures ChannelCleared(b, cl, b', cl', ch)
    ensures forall c :: ClaimRaised(cm, cm', ch, c, CreditFor(base, ch, c))
    ensures forall d: ChannelId, c :: d != ch ==> Get(cm', (d, c), 0) == Get(cm, (d, c), 0)
  {
    forall c
      ensures ClearedRaised(cl, cl', c, CreditFor(b, ch, c)) && ClaimRaised(cm, cm', ch, c, CreditFor(base, ch, c))
    {
      assert CreditedSoFar(b, ch, b.VtokensOf(ch), cl, cl', cm, cm', c);
      StepReads(base, b, cl, from, ch, c);
    }
    forall c
      ensures Get(cl', c, 0) == Min(Get(cl, c, 0) + Max0(CreditFor(b, ch, c)), U128_MAX)
    {
      assert ClearedRaised(cl, cl', c, CreditFor(b, ch, c));
    }
    forall d: ChannelId, c | d != ch
      ensures Get(cm', (d, c), 0) == Get(cm, (d, c), 0)
    {
      assert CreditedSoFar(b, ch, b.VtokensOf(ch), cl, cl', cm, cm', c);
    }
  }

  // ---- Bifrost -------------------------------------------------------------------------

  /** What the vtokens visited so far have had paid to Bifrost in token c. */
  ghost function DueSoFar(b: Books, cleared: Cleared, c: Currency, done: set<Currency>): int {
    BifrostDue(b.Total(c), Get(cleared, c, 0), Uses(b, c, done))
  }

  /** The pot can pay what is due in token c, and the receiver can take it. */
  ghost predicate Funded(b: Books, cleared: Cleared, free: Holdings, pot: Account, receiver: Account, c: Currency) {
    var due := DueSoFar(b, cleared, c, b.tokens.Keys);
    due <= Held(free, c, pot) && Held(free, c, receiver) + due <= U128_MAX
  }

  /** Never more than what is due leaves the pot, and exactly that if the pot is funded. */
  ghost predicate PaidSoFar(b: Books, cleared: Cleared, free: Holdings, free': Holdings, pot: Account,
                            receiver: Account, c: Currency, done: set<Currency>)
  {
    var due := DueSoFar(b, cleared, c, done);
    && 0 <= due && Held(free, c, pot) <= Held(free', c, pot) + due
    && (Funded(b, cleared, free, pot, receiver, c) ==> Moved(free, free', pot, receiver, due, c))
  }

  /** A token that has been visited is reset. */
  ghost predicate ResetSoFar(b: Books, cleared: Cleared, cleared': Cleared, c: Currency, done: set<Currency>) {
    Get(cleared', c, 0) == if 0 < Uses(b, c, done) then 0 else Get(cleared, c, 0)
  }

  lemma UsesMore(b: Books, c: Currency, done: set<Currency>, v: Currency)
    requires v !in done && v in b.tokens && done <= b.tokens.Keys
    ensures 0 <= Uses(b, c, done)
    ensures Uses(b, c, done + {v}) == Uses(b, c, done) + (if b.tokens[v] == c then 1 else 0)
    ensures Uses(b, c, done + {v}) <= Uses(b, c, b.tokens.Keys)
  {
    var f := UseTerm(b, c);
    SumNonNeg(done, f);
    SumAdd(done, f, v);
    var more := done + {v};
    var all := b.tokens.Keys;
    var g := (u: Currency) => if u in more then f(u) else 0;
    SumSuperset(more, all, g);
    SumSame(more, g, f);
    SumLe(all, g, f);
  }

  lemma DueGrows(total: nat, claimed: nat, uses: int, more: int)
    requires 0 <= uses <= more
    ensures 0 <= BifrostDue(total, claimed, uses) <= BifrostDue(total, claimed, more)
    ensures BifrostDue(total, claimed, uses + 1) == BifrostDue(total, claimed, uses)
         + (if uses == 0 then SatSub(total, claimed) else total)
  {
    if 0 < uses {
      MulMono(0, uses - 1, total);
      MulMono(uses - 1, more - 1, total);
      Distribute(total, uses - 1, 1);
    } else if 0 < more {
      MulMono(0, more - 1, total);
    }
  }

  /** One payment more in token c, which the sender can make if it is in `limit` altogether. */
  lemma TransferMore(free: Holdings, mid: Holdings, pot: Account, receiver: Account, x: int, c: Currency,
          due: nat, limit: int)
    requires pot != receiver && 0 <= x && x + due <= limit && Moved(free, mid, pot, receiver, x, c)
    requires limit <= Held(free, c, pot) && Held(free, c, receiver) + limit <= U128_MAX
    ensures var r := TryTransfer(mid, c, pot, receiver, due);
      r.Ok? && Moved(free, r.value, pot, receiver, x + due, c)
  {
  }

  lemma TransferElsewhere(free: Holdings, mid: Holdings, pot: Account, receiver: Account, x: nat, c: Currency,
          due: nat, d: Currency)
    requires d != c && Moved(free, mid, pot, receiver, x, d)
    ensures var r := TryTransfer(mid, c, pot, receiver, due);
      r.Ok? ==> Moved(free, r.value, pot, receiver, x, d)
  {
  }

  /** What visiting one vtoken more adds to what is due. */
  lemma DueMore(b: Books, cleared: Cleared, cl: Cleared, done: set<Currency>, v: Currency)
    requires v !in done && v in b.tokens && done <= b.tokens.Keys && ResetSoFar(b, cleared, cl, b.tokens[v], done)
    ensures var c := b.tokens[v];
      var due := SatSub(b.Total(c), Get(cl, c, 0));
      && 0 <= DueSoFar(b, cleared, c, done)
      && DueSoFar(b, cleared, c, done + {v}) == DueSoFar(b, cleared, c, done) + due
           <= DueSoFar(b, cleared, c, b.tokens.Keys)
  {
    var c := b.tokens[v];
    UsesMore(b, c, done, v);
    DueGrows(b.Total(c), Get(cleared, c, 0), Uses(b, c, done), Uses(b, c, b.tokens.Keys));
    DueGrows(b.Total(c), Get(cleared, c, 0), Uses(b, c, done) + 1, Uses(b, c, b.tokens.Keys));
  }

  lemma ResetMore(b: Books, cleared: Cleared, cl: Cleared, done: set<Currency>, v: Currency, d: Currency)
    requires v !in done && v in b.tokens && done <= b.tokens.Keys && ResetSoFar(b, cleared, cl, d, done)
    ensures ResetSoFar(b, cleared, cl[b.tokens[v] := 0], d, done + {v})
  {
    UsesMore(b, d, done, v);
  }

  /** What visiting vtoken v does to the balances. */
  ghost predicate Visited(b: Books, cl: Cleared, mid: Holdings, free': Holdings, pot: Account, receiver: Account,
                          v: Currency)
    requires v in b.tokens
  {
    var due := SatSub(b.Total(b.tokens[v]), Get(cl, b.tokens[v], 0));
    var r := TryTransfer(mid, b.tokens[v], pot, receiver, due);
    free' == if due != 0 && r.Ok? then r.value else mid
  }

  lemma PaidHere(b: Books, cleared: Cleared, cl: Cleared, free: Holdings, mid: Holdings, free': Holdings,
                 pot: Account, receiver: Account, done: set<Currency>, v: Currency)
    requires v !in done && v in b.tokens && done <= b.tokens.Keys && pot != receiver
    requires PaidSoFar(b, cleared, free, mid, pot, receiver, b.tokens[v], done)
    requires ResetSoFar(b, cleared, cl, b.tokens[v], done) && Visited(b, cl, mid, free', pot, receiver, v)
    ensures PaidSoFar(b, cleared, free, free', pot, receiver, b.tokens[v], done + {v})
  {
    var c := b.tokens[v];
    var due := SatSub(b.Total(c), Get(cl, c, 0));
    DueMore(b, cleared, cl, done, v);
    if Funded(b, cleared, free, pot, receiver, c) {
      TransferMore(free, mid, pot, receiver, DueSoFar(b, cleared, c, done), c, due,
                   DueSoFar(b, cleared, c, b.tokens.Keys));
    }
  }

  lemma PaidElsewhere(b: Books, cleared: Cleared, cl: Cleared, free: Holdings, mid: Holdings, free': Holdings,
                      pot: Account, receiver: Account, done: set<Currency>, v: Currency, d: Currency)
    requires v !in done && v in b.tokens && done <= b.tokens.Keys && pot != receiver && d != b.tokens[v]
    requires PaidSoFar(b, cleared, free, mid, pot, receiver, d, done) && Visited(b, cl, mid, free', pot, receiver, v)
    ensures PaidSoFar(b, cleared, free, free', pot, receiver, d, done + {v})
  {
    UsesMore(b, d, done, v);
    if Funded(b, cleared, free, pot, receiver, d) {
      TransferElsewhere(free, mid, pot, receiver, DueSoFar(b, cleared, d, done), b.tokens[v],
                        SatSub(b.Total(b.tokens[v]), Get(cl, b.tokens[v], 0)), d);
    }
  }

  /** Pays Bifrost what the channels have not been credited. A payment that fails is only logged. */
  method ClearBifrostCommissions(b: Books, cleared: Cleared, free: Holdings, pot: Account, receiver: Account)
    returns (cleared': Cleared, free': Holdings)
    requires pot != receiver
    ensures forall c :: PaidSoFar(b, cleared, free, free', pot, receiver, c, b.tokens.Keys)
    ensures forall c :: ResetSoFar(b, cleared, cleared', c, b.tokens.Keys)
  {
    cleared', free' := cleared, free;
    var todo := b.tokens.Keys;
    forall c
      ensures PaidSoFar(b, cleared, free, free', pot, receiver, c, {}) && ResetSoFar(b, cleared, cleared', c, {})
    {
      assert Uses(b, c, {}) == 0;
    }
    assert b.tokens.Keys - todo == {};
    while todo != {}
      invariant todo <= b.tokens.Keys
      invariant forall c :: PaidSoFar(b, cleared, free, free', pot, receiver, c, b.tokens.Keys - todo)
      invariant forall c :: ResetSoFar(b, cleared, cleared', c, b.tokens.Keys - todo)
      decreases todo
    {
      var v :| v in todo;
      ghost var done, cl, mid := b.tokens.Keys - todo, cleared', free';
      var c := b.tokens[v];
      var due := SatSub(b.Total(c), Get(cleared', c, 0));
      cleared' := cleared'[c := 0];
      if due != 0 {
        var r := TryTransfer(free', c, pot, receiver, due);
        if r.Ok? {
          free' := r.value;
        }
      }
      todo := todo - {v};
      assert b.tokens.Keys - todo == done + {v};
      forall d
        ensures PaidSoFar(b, cleared, free, free', pot, receiver, d, b.tokens.Keys - todo)
        ensures ResetSoFar(b, cleared, cleared', d, b.tokens.Keys - todo)
      {
        assert PaidSoFar(b, cleared, free, mid, pot, receiver, d, done) && ResetSoFar(b, cleared, cl, d, done);
        if d == c {
          PaidHere(b, cleared, cl, free, mid, free', pot, receiver, done, v);
        } else {
          PaidElsewhere(b, cleared, cl, free, mid, free', pot, receiver, done, v, d);
        }
        ResetMore(b, cleared, cl, done, v, d);
      }
    }
    assert b.tokens.Keys - todo == b.tokens.Keys;
  }

  // ---- The end of a pass ---------------------------------------------------------------

  /** A token that is in use, or never was credited, has nothing cleared afterwards. */
  lemma ResetSettles(base: Books, b: Books, cleared: Cleared, cleared': Cleared, from: nat)
    requires InPass(base, b, cleared, from, base.nextId)
    requires forall c :: ResetSoFar(b, cleared, cleared', c, b.tokens.Keys)
    ensures Settled(cleared')
  {
    forall c
      ensures NothingCleared(cleared', c)
    {
      assert ResetSoFar(b, cleared, cleared', c, b.tokens.Keys) && ClearedRight(base, cleared, from, base.nextId, c);
      SomeUse(b, c);
      if Uses(b, c, b.tokens.Keys) == 0 {
        NoCredit(base, from, base.nextId, c);
      }
    }
  }

  /** What the pass has credited to the channels and what Bifrost is due come to the commission of the
      period, exactly for the tokens that one vtoken uses or that there is nothing of. */
  ghost predicate Conserved(base: Books, cleared: Cleared, from: nat, c: Currency) {
    var whole := Claims(base, from, base.nextId, c) + DueSoFar(base, cleared, c, base.tokens.Keys) == base.Total(c);
    whole <==> Uses(base, c, base.tokens.Keys) == 1 || base.Total(c) == 0
  }

  lemma PassConserved(base: Books, b: Books, cleared: Cleared, from: nat, c: Currency)
    requires InPass(base, b, cleared, from, base.nextId) && Sound(base) && AllShared(base)
    ensures Conserved(base, cleared, from, c)
    ensures DueSoFar(b, cleared, c, b.tokens.Keys) == DueSoFar(base, cleared, c, base.tokens.Keys)
  {
    assert SameClosed(base, b, c) && ClearedRight(base, cleared, from, base.nextId, c);
    forall v | v in base.tokens
      ensures SharesFit(base, v)
    {
    }
    PassConserves(base, from, c);
    SumSame(b.tokens.Keys, UseTerm(b, c), UseTerm(base, c));
  }

  /** After a pass the books are at rest again. */
  lemma PassEnds(base: Books, b: Books, cleared: Cleared, cleared': Cleared, from: nat)
    requires PhaseOk(b, cleared, Pass(base, from, base.nextId))
    requires forall c :: ResetSoFar(b, cleared, cleared', c, b.tokens.Keys)
    ensures PhaseOk(b, cleared', Idle)
  {
    ResetSettles(base, b, cleared, cleared', from);
    forall v
      ensures SharesFit(b, v) && IssuanceGrows(b, v)
    {
      assert MintsAdd(base, v) && SharesFit(base, v) && IssuanceGrows(base, v) && SameClosed(base, b, v);
      PassEndsFit(base, b, cleared, from, v);
    }
  }

  lemma PassGoesOn(base: Books, b: Books, cleared: Cleared, b': Books, cleared': Cleared, from: nat, i: nat)
    requires PhaseOk(b, cleared, Pass(base, from, i)) && i < base.nextId && Sound(b)
    requires ChannelCleared(b, cleared, b', cleared', i)
    ensures PhaseOk(b', cleared', Pass(base, from, i + 1)) && Sound(b')
  {
    PassSteps(base, b, cleared, b', cleared', from, i);
    forall ch: ChannelId, v
      ensures Registered(b', ch, v) && RateFits(b', ch, v)
    {
      assert Registered(b, ch, v) && RateFits(b, ch, v);
    }
    forall v
      ensures MintsAdd(b', v)
    {
      assert MintsAdd(b, v);
      FewerMints(b, b', v);
    }
  }

  // ---- What the steps of a pass do to claims and balances ------------------------------

  /** Channel ch has been credited for the pass, and no other. */
  ghost predicate Credited(base: Books, claimable: Claimable, claimable': Claimable, ch: ChannelId) {
    && (forall c :: ClaimRaised(claimable, claimable', ch, c, CreditFor(base, ch, c)))
    && (forall d: ChannelId, c :: d != ch ==> Get(claimable', (d, c), 0) == Get(claimable, (d, c), 0))
  }

  /** Bifrost has been paid what the pass has not credited, and with that all is accounted for. */
  ghost predicate BifrostPaid(base: Books, cleared: Cleared, from: nat, free: Holdings, free': Holdings, pot: Account,
                              receiver: Account)
  {
    && (forall c :: Conserved(base, cleared, from, c))
    && (forall c :: PaidSoFar(base, cleared, free, free', pot, receiver, c, base.tokens.Keys))
  }

  /** The pot has what Bifrost is due. */
  ghost predicate PotHas(base: Books, cleared: Cleared, free: Holdings, pot: Account) {
    forall c :: DueSoFar(base, cleared, c, base.tokens.Keys) <= Held(free, c, pot)
  }
}
