/** Solvency of the account that holds commission: it covers what channels have to claim, what a pass
    has not given out yet, and the commission of the period under way. */
module CommissionPot {
  import opened Primitives
  import opened Sums
  import opened Tokens
  import opened Clearing
  import opened ClearingCycle
  import opened ChannelCalls

  function ClaimTerm(claimable: Claimable, c: Currency): int -> int {
    ch => if ch < 0 then 0 else Get(claimable, (ch, c), 0)
  }

  /** What a pass has not given out yet. */
  function StillOpen(b: Books, cleared: Cleared, phase: Phase, c: Currency): int {
    if phase.Idle? then 0 else b.Total(c) - Get(cleared, c, 0)
  }

  /** The commission recorded in the period under way. */
  function Fees(b: Books, c: Currency): nat {
    Get(b.commissions, c, NOTHING).current
  }

  function Liabilities(b: Books, claimable: Claimable, cleared: Cleared, phase: Phase, c: Currency): int {
    SumTo(b.nextId, ClaimTerm(claimable, c)) + StillOpen(b, cleared, phase, c) + Fees(b, c)
  }

  predicate NoStray(b: Books, claimable: Claimable, ch: ChannelId, c: Currency) {
    b.nextId <= ch ==> Get(claimable, (ch, c), 0) == 0
  }

  ghost predicate UsedOnceAtMost(b: Books, c: Currency) {
    Uses(b, c, b.tokens.Keys) <= 1
  }

  /** No two vtokens pay their commission in the same token. */
  ghost predicate OneEach(b: Books) {
    forall c :: UsedOnceAtMost(b, c)
  }

  predicate Covered(b: Books, claimable: Claimable, cleared: Cleared, phase: Phase, free: Holdings, pot: Account,
                    c: Currency)
  {
    Liabilities(b, claimable, cleared, phase, c) <= Held(free, c, pot)
  }

  ghost predicate PotCovers(b: Books, claimable: Claimable, cleared: Cleared, phase: Phase, free: Holdings,
                            pot: Account)
  {
    && OneEach(b)
    && (forall ch: ChannelId, c :: NoStray(b, claimable, ch, c))
    && (forall c :: Covered(b, claimable, cleared, phase, free, pot, c))
  }

  lemma ClaimsSumNonNeg(claimable: Claimable, n: nat, c: Currency)
    ensures 0 <= SumTo(n, ClaimTerm(claimable, c))
    ensures forall ch: nat :: ch < n ==> Get(claimable, (ch, c), 0) <= SumTo(n, ClaimTerm(claimable, c))
  {
    var f := ClaimTerm(claimable, c);
    forall ch | 0 <= ch < n
      ensures AtMostAt(Zero(), f, ch)
    {
    }
    SumToNonNeg(n, f);
    forall ch: nat | ch < n
      ensures Get(claimable, (ch, c), 0) <= SumTo(n, f)
    {
      TermWithin(n, f, ch);
    }
  }

  /** Books with the same tokens, and what concerns commission unchanged. */
  predicate SameCommission(b: Books, b': Books) {
    b'.nextId == b.nextId && b'.tokens == b.tokens && b'.commissions == b.commissions
  }

  /** Steps that concern no commission keep the pot covered. */
  lemma OtherCovers(b: Books, b': Books, claimable: Claimable, cleared: Cleared, phase: Phase, phase': Phase,
                    free: Holdings, free': Holdings, pot: Account)
    requires PotCovers(b, claimable, cleared, phase, free, pot) && SameCommission(b, b')
    requires phase'.Idle? == phase.Idle? && forall c :: Held(free, c, pot) <= Held(free', c, pot)
    ensures PotCovers(b', claimable, cleared, phase', free', pot)
  {
    forall c
      ensures UsedOnceAtMost(b', c) && Covered(b', claimable, cleared, phase', free', pot, c)
    {
      assert UsedOnceAtMost(b, c) && Covered(b, claimable, cleared, phase, free, pot, c);
      SumSame(b.tokens.Keys, UseTerm(b', c), UseTerm(b, c));
    }
    forall ch: ChannelId, c
      ensures NoStray(b', claimable, ch, c)
    {
      assert NoStray(b, claimable, ch, c);
    }
  }

  /** At rollover the commission of the period under way becomes the one to give out. */
  lemma RolloverCovers(b: Books, issued: Currency -> Balance, claimable: Claimable, cleared: Cleared,
                       free: Holdings, pot: Account)
    requires PotCovers(b, claimable, cleared, Idle, free, pot) && Settled(cleared)
    ensures var b' := RolledOver(b, issued); PotCovers(b', claimable, cleared, Pass(b', 0, 0), free, pot)
  {
    var b' := RolledOver(b, issued);
    forall c
      ensures UsedOnceAtMost(b', c) && Covered(b', claimable, cleared, Pass(b', 0, 0), free, pot, c)
    {
      assert UsedOnceAtMost(b, c) && Covered(b, claimable, cleared, Idle, free, pot, c) && NothingCleared(cleared, c);
      SumSame(b.tokens.Keys, UseTerm(b', c), UseTerm(b, c));
      ShiftedAt(b.commissions, c);
    }
    forall ch: ChannelId, c
      ensures NoStray(b', claimable, ch, c)
    {
      assert NoStray(b, claimable, ch, c);
    }
  }

  /** A pass never credits more than there is to give out. */
  lemma ClaimsBound(base: Books, from: nat, i: nat, c: Currency)
    requires UsedOnceAtMost(base, c) && RatesFit(base) && AllShared(base) && from <= i <= base.nextId
    ensures 0 <= Claims(base, from, i, c) <= base.Total(c)
  {
    SomeUse(base, c);
    ClaimsNonNeg(base, from, i, c);
    ClaimsNonNeg(base, i, base.nextId, c);
    if Uses(base, c, base.tokens.Keys) == 1 {
      forall v | v in base.tokens
        ensures SharesFit(base, v)
      {
      }
      ClaimsWithin(base, from, c);
    } else {
      NoCredit(base, from, i, c);
    }
  }

  /** What a pass has cleared is exactly what it has credited. */
  lemma ClearedIsClaims(base: Books, b: Books, cleared: Cleared, from: nat, i: nat, c: Currency)
    requires PhaseOk(b, cleared, Pass(base, from, i)) && UsedOnceAtMost(b, c)
    ensures b.Total(c) == base.Total(c) && Get(cleared, c, 0) == Claims(base, from, i, c) <= base.Total(c)
  {
    SumSame(b.tokens.Keys, UseTerm(b, c), UseTerm(base, c));
    assert SameClosed(base, b, c) && ClearedRight(base, cleared, from, i, c);
    ClaimsBound(base, from, i, c);
  }

  lemma ClearCoversToken(base: Books, b: Books, b': Books, claimable: Claimable, claimable': Claimable,
                         cleared: Cleared, cleared': Cleared, from: nat, i: nat, free: Holdings,
                         pot: Account, c: Currency)
    requires PhaseOk(b, cleared, Pass(base, from, i)) && PhaseOk(b', cleared', Pass(base, from, i + 1))
    requires UsedOnceAtMost(b, c) && Covered(b, claimable, cleared, Pass(base, from, i), free, pot, c)
    requires SameCommission(b, b') && ClaimRaised(claimable, claimable', i, c, CreditFor(base, i, c))
    requires forall d: ChannelId :: d != i ==> Get(claimable', (d, c), 0) == Get(claimable, (d, c), 0)
    ensures UsedOnceAtMost(b', c) && Covered(b', claimable', cleared', Pass(base, from, i + 1), free, pot, c)
  {
    SumSame(b.tokens.Keys, UseTerm(b', c), UseTerm(b, c));
    ClearedIsClaims(base, b, cleared, from, i, c);
    ClearedIsClaims(base, b', cleared', from, i + 1, c);
    CreditForNonNeg(base, i, c);
    ClaimMoved(claimable, claimable', b.nextId, i, c, CreditFor(base, i, c));
    assert Claims(base, from, i + 1, c) == Claims(base, from, i, c) + CreditFor(base, i, c);
  }

  /** Crediting a channel moves what there is to give out to the channel's claims. */
  lemma ClearCovers(base: Books, b: Books, b': Books, claimable: Claimable, claimable': Claimable, cleared: Cleared,
                    cleared': Cleared, from: nat, i: nat, free: Holdings, pot: Account)
    requires PhaseOk(b, cleared, Pass(base, from, i)) && PhaseOk(b', cleared', Pass(base, from, i + 1))
    requires PotCovers(b, claimable, cleared, Pass(base, from, i), free, pot) && SameCommission(b, b')
    requires forall c :: ClaimRaised(claimable, claimable', i, c, CreditFor(base, i, c))
    requires forall d: ChannelId, c :: d != i ==> Get(claimable', (d, c), 0) == Get(claimable, (d, c), 0)
    ensures PotCovers(b', claimable', cleared', Pass(base, from, i + 1), free, pot)
  {
    var phase' := Pass(base, from, i + 1);
    forall c
      ensures UsedOnceAtMost(b', c) && Covered(b', claimable', cleared', phase', free, pot, c)
    {
      assert UsedOnceAtMost(b, c) && Covered(b, claimable, cleared, Pass(base, from, i), free, pot, c);
      ClearCoversToken(base, b, b', claimable, claimable', cleared, cleared', from, i, free, pot, c);
    }
    forall ch: ChannelId, c
      ensures NoStray(b', claimable', ch, c)
    {
      assert NoStray(b, claimable, ch, c);
    }
  }

  lemma ClaimMoved(claimable: Claimable, claimable': Claimable, n: nat, i: nat, c: Currency, x: int)
    requires i < n && 0 <= x && ClaimRaised(claimable, claimable', i, c, x)
    requires forall d: ChannelId :: d != i ==> Get(claimable', (d, c), 0) == Get(claimable, (d, c), 0)
    ensures SumTo(n, ClaimTerm(claimable', c)) <= SumTo(n, ClaimTerm(claimable, c)) + x
  {
    forall d | 0 <= d < n && d != i
      ensures SameAt(ClaimTerm(claimable, c), ClaimTerm(claimable', c), d)
    {
    }
    SumToUpdate(n, ClaimTerm(claimable, c), ClaimTerm(claimable', c), i);
  }

  /** The pot has what Bifrost is due, and is still covered when no more than that has left it. */
  lemma BifrostCovers(base: Books, b: Books, claimable: Claimable, cleared: Cleared, cleared': Cleared, from: nat,
                      free: Holdings, free': Holdings, pot: Account)
    requires PhaseOk(b, cleared, Pass(base, from, base.nextId))
    requires PotCovers(b, claimable, cleared, Pass(base, from, base.nextId), free, pot)
    ensures forall c :: DueSoFar(b, cleared, c, b.tokens.Keys) <= Held(free, c, pot)
    ensures (forall c :: Held(free, c, pot) <= Held(free', c, pot) + Max0(DueSoFar(b, cleared, c, b.tokens.Keys))) ==>
      PotCovers(b, claimable, cleared', Idle, free', pot)
  {
    forall c
      ensures var due := DueSoFar(b, cleared, c, b.tokens.Keys);
        due <= Held(free, c, pot)
        && (Held(free, c, pot) <= Held(free', c, pot) + Max0(due) ==>
            Covered(b, claimable, cleared', Idle, free', pot, c))
    {
      assert UsedOnceAtMost(b, c) && Covered(b, claimable, cleared, Pass(base, from, base.nextId), free, pot, c);
      ClearedIsClaims(base, b, cleared, from, base.nextId, c);
      SomeUse(b, c);
      ClaimsSumNonNeg(claimable, b.nextId, c);
      assert 0 * b.Total(c) == 0;
    }
  }

  /** The pot has what a channel has to claim, and is covered without it. */
  lemma ClaimCovers(b: Books, claimable: Claimable, cleared: Cleared, phase: Phase, free: Holdings, free': Holdings,
                    pot: Account, receiver: Account, ch: ChannelId)
    requires PotCovers(b, claimable, cleared, phase, free, pot) && ch < b.nextId
    requires forall c :: 0 <= StillOpen(b, cleared, phase, c)
    ensures forall c :: Get(claimable, (ch, c), 0) <= Held(free, c, pot)
    ensures PaidTo(claimable, WithoutChannel(claimable, ch), free, free', ch, pot, receiver) ==>
      PotCovers(b, WithoutChannel(claimable, ch), cleared, phase, free', pot)
  {
    var claimable' := WithoutChannel(claimable, ch);
    forall c
      ensures Get(claimable, (ch, c), 0) <= Held(free, c, pot)
      ensures Moved(free, free', pot, receiver, Get(claimable, (ch, c), 0), c) ==>
        Covered(b, claimable', cleared, phase, free', pot, c)
    {
      assert Covered(b, claimable, cleared, phase, free, pot, c);
      ClaimsSumNonNeg(claimable, b.nextId, c);
      forall d | 0 <= d < b.nextId && d != ch
        ensures SameAt(ClaimTerm(claimable, c), ClaimTerm(claimable', c), d)
      {
      }
      SumToUpdate(b.nextId, ClaimTerm(claimable, c), ClaimTerm(claimable', c), ch);
    }
    forall d: ChannelId, c
      ensures NoStray(b, claimable', d, c)
    {
      assert NoStray(b, claimable, d, c);
    }
  }

  /** In a covered pass nothing is given out that is not there. */
  lemma OpenNonNeg(b: Books, cleared: Cleared, phase: Phase)
    requires OneEach(b) && PhaseOk(b, cleared, phase)
    ensures forall c :: 0 <= StillOpen(b, cleared, phase, c)
  {
    forall c
      ensures 0 <= StillOpen(b, cleared, phase, c)
    {
      assert UsedOnceAtMost(b, c);
      if phase.Pass? {
        ClearedIsClaims(phase.base, b, cleared, phase.from, phase.i, c);
      }
    }
  }

  /** A claim never fails for lack of funds in the pot, and leaves the pot covered. */
  lemma ClaimKeeps(b: Books, claimable: Claimable, cleared: Cleared, phase: Phase, free: Holdings, free': Holdings,
                   pot: Account, receiver: Account, ch: ChannelId)
    requires Sound(b) && PhaseOk(b, cleared, phase) && ch in b.channels
    requires PotCovers(b, claimable, cleared, phase, free, pot)
    ensures forall c :: Unpayable(free, DueTo(claimable, ch), pot, receiver, c) ==>
      U128_MAX < Held(free, c, receiver) + Get(claimable, (ch, c), 0)
    ensures PaidTo(claimable, WithoutChannel(claimable, ch), free, free', ch, pot, receiver) ==>
      PotCovers(b, WithoutChannel(claimable, ch), cleared, phase, free', pot)
  {
    assert Registered(b, ch, Currency(0));
    OpenNonNeg(b, cleared, phase);
    ClaimCovers(b, claimable, cleared, phase, free, free', pot, receiver, ch);
    forall c | Unpayable(free, DueTo(claimable, ch), pot, receiver, c)
      ensures U128_MAX < Held(free, c, receiver) + Get(claimable, (ch, c), 0)
    {
      DueToAt(claimable, ch, c);
    }
  }

  /** A new channel has nothing to claim. Only when it makes another pass begin is there more to give out. */
  lemma RegisterCovers(b: Books, b': Books, claimable: Claimable, cleared: Cleared, phase: Phase, phase': Phase,
                       free: Holdings, pot: Account)
    requires PotCovers(b, claimable, cleared, phase, free, pot) && phase'.Idle? == phase.Idle?
    requires b'.nextId == b.nextId + 1 && b'.tokens == b.tokens && b'.commissions == b.commissions
    ensures PotCovers(b', claimable, cleared, phase', free, pot)
  {
    forall c
      ensures UsedOnceAtMost(b', c) && Covered(b', claimable, cleared, phase', free, pot, c)
    {
      assert UsedOnceAtMost(b, c) && Covered(b, claimable, cleared, phase, free, pot, c);
      assert NoStray(b, claimable, b.nextId, c);
      SumSame(b.tokens.Keys, UseTerm(b', c), UseTerm(b, c));
    }
    forall ch: ChannelId, c
      ensures NoStray(b', claimable, ch, c)
    {
      assert NoStray(b, claimable, ch, c);
    }
  }

  /** The pot holds the commission of the last period once more, on top of what it covers. */
  predicate HoldsAgain(b: Books, claimable: Claimable, cleared: Cleared, phase: Phase, free: Holdings, pot: Account,
                       c: Currency)
  {
    Liabilities(b, claimable, cleared, phase, c) + b.Total(c) <= Held(free, c, pot)
  }

  /** A channel that makes another pass begin makes the pot owe the commission of the last period again. It still
      covers everything exactly if it holds that much more. */
  lemma RegisterAgainCovers(b: Books, b': Books, claimable: Claimable, cleared: Cleared, phase: Phase, phase': Phase,
                            free: Holdings, pot: Account)
    requires PotCovers(b, claimable, cleared, phase, free, pot) && phase.Idle? && phase'.Pass? && Settled(cleared)
    requires b'.nextId == b.nextId + 1 && b'.tokens == b.tokens && b'.commissions == b.commissions
    ensures PotCovers(b', claimable, cleared, phase', free, pot) <==>
      forall c :: HoldsAgain(b, claimable, cleared, phase, free, pot, c)
  {
    forall c
      ensures UsedOnceAtMost(b', c)
      ensures Covered(b', claimable, cleared, phase', free, pot, c) <==>
        HoldsAgain(b, claimable, cleared, phase, free, pot, c)
    {
      assert UsedOnceAtMost(b, c) && NothingCleared(cleared, c) && NoStray(b, claimable, b.nextId, c);
      SumSame(b.tokens.Keys, UseTerm(b', c), UseTerm(b, c));
    }
    forall ch: ChannelId, c
      ensures NoStray(b', claimable, ch, c)
    {
      assert NoStray(b, claimable, ch, c);
    }
  }

  /** Both cases together: what a registration after block `last` does to the pot. */
  lemma RegisterSolvent(d: pos, last: nat, b: Books, claimable: Claimable, cleared: Cleared, phase: Phase,
                        free: Holdings, pot: Account, receiver: Account)
    requires PotCovers(b, claimable, cleared, phase, free, pot) && (phase.Idle? ==> Settled(cleared))
    ensures var b', phase' := Registering(b, receiver), PhaseWith(d, last, phase, b, receiver);
      if phase'.Idle? == phase.Idle? then PotCovers(b', claimable, cleared, phase', free, pot)
      else PotCovers(b', claimable, cleared, phase', free, pot) <==>
        forall c :: HoldsAgain(b, claimable, cleared, phase, free, pot, c)
  {
    var b', phase' := Registering(b, receiver), PhaseWith(d, last, phase, b, receiver);
    if phase'.Idle? == phase.Idle? {
      RegisterCovers(b, b', claimable, cleared, phase, phase', free, pot);
    } else {
      RegisterAgainCovers(b, b', claimable, cleared, phase, phase', free, pot);
    }
  }

  /** A recorded fee that is in the pot on top of what it covers. */
  lemma FeeCovers(b: Books, b': Books, claimable: Claimable, cleared: Cleared, phase: Phase, before: Holdings,
                  free: Holdings, pot: Account, token: Currency, fee: nat)
    requires PotCovers(b, claimable, cleared, phase, before, pot)
    requires forall c :: Held(before, c, pot) + (if c == token then fee else 0) <= Held(free, c, pot)
    requires Added(b.commissions, token, fee).Ok? && b' == b.(commissions := Added(b.commissions, token, fee).value)
    ensures PotCovers(b', claimable, cleared, phase, free, pot)
  {
    forall c
      ensures UsedOnceAtMost(b', c) && Covered(b', claimable, cleared, phase, free, pot, c)
    {
      assert UsedOnceAtMost(b, c) && Covered(b, claimable, cleared, phase, before, pot, c);
      SumSame(b.tokens.Keys, UseTerm(b', c), UseTerm(b, c));
    }
    forall ch: ChannelId, c
      ensures NoStray(b', claimable, ch, c)
    {
      assert NoStray(b, claimable, ch, c);
    }
  }
}
