/** What the calls of the channel-commission pallet do to its books and to a pass that is under way. */
module ChannelCalls {
  import opened Primitives
  import opened Sums
  import opened Tokens
  import opened Clearing
  import opened ClearingCycle

  // ---- Recording -----------------------------------------------------------------------

  function Added(m: map<Currency, Pair>, v: Currency, amount: nat): Result<map<Currency, Pair>> {
    var p := Get(m, v, NOTHING);
    var sum :- U128(p.current + amount);
    Ok(m[v := Pair(p.past, sum)])
  }

  /** An amount is added to the period under way exactly if the sum fits. */
  lemma AddedIs(m: map<Currency, Pair>, v: Currency, amount: nat)
    ensures var p, r := Get(m, v, NOTHING), Added(m, v, amount);
      && (r.Ok? <==> p.current + amount <= U128_MAX) && (r.Err? ==> r.error == Overflow)
      && (r.Ok? ==> r.value == m[v := Pair(p.past, p.current + amount)])
  {
  }

  function Minted(b: Books, ch: ChannelId, v: Currency, amount: nat): Result<map<(ChannelId, Currency), Pair>> {
    var p := Get(b.channelMint, (ch, v), NOTHING);
    var sum :- U128(p.current + amount);
    Ok(b.channelMint[(ch, v) := Pair(p.past, sum)])
  }

  /** The books after a mint, which a registered channel may have brought. */
  function AfterMint(b: Books, channel: Option<ChannelId>, v: Currency, amount: nat): Result<Books> {
    var totals :- Added(b.totalMint, v, amount);
    if channel.None? then Ok(b.(totalMint := totals)) else
      var mints :- Minted(b, channel.value, v, amount);
      Ok(b.(totalMint := totals, channelMint := mints))
  }

  /** A mint of vtoken v adds its amount to the total and, if a channel has brought it, to that
      channel's; everything else stays. */
  predicate MintEffect(b: Books, b': Books, channel: Option<ChannelId>, v: Currency, amount: nat,
          ch: ChannelId, u: Currency)
  {
    && b'.Minted(u) == b.Minted(u) && b'.MintedBy(ch, u) == b.MintedBy(ch, u)
    && Get(b'.totalMint, u, NOTHING).current == Get(b.totalMint, u, NOTHING).current + (if u == v then amount else 0)
    && Get(b'.channelMint, (ch, u), NOTHING).current
         == Get(b.channelMint, (ch, u), NOTHING).current + (if u == v && channel == Some(ch) then amount else 0)
    && Registered(b', ch, u) && RateFits(b', ch, u)
  }

  lemma MintHas(b: Books, channel: Option<ChannelId>, v: Currency, amount: nat, ch: ChannelId, u: Currency)
    requires Sound(b) && AfterMint(b, channel, v, amount).Ok? && (channel.Some? ==> channel.value in b.channels)
    ensures MintEffect(b, AfterMint(b, channel, v, amount).value, channel, v, amount, ch, u)
  {
    assert Registered(b, ch, u) && RateFits(b, ch, u);
  }

  /** A mint is recorded exactly if the total fits and, if a channel has brought it, the channel's sum does. It touches
      nothing else. */
  lemma MintRecorded(b: Books, channel: Option<ChannelId>, v: Currency, amount: nat)
    ensures var r, totals := AfterMint(b, channel, v, amount), Get(b.totalMint, v, NOTHING);
      && (r.Ok? <==>
          && totals.current + amount <= U128_MAX
          && (channel.Some? ==> Get(b.channelMint, (channel.value, v), NOTHING).current + amount <= U128_MAX))
      && (r.Err? ==> r.error == Overflow)
      && (r.Ok? ==>
          && r.value == b.(totalMint := r.value.totalMint, channelMint := r.value.channelMint)
          && r.value.totalMint == b.totalMint[v := Pair(totals.past, totals.current + amount)]
          && (channel.None? ==> r.value.channelMint == b.channelMint)
          && (channel.Some? ==>
              var mints := Get(b.channelMint, (channel.value, v), NOTHING);
              r.value.channelMint
                == b.channelMint[(channel.value, v) := Pair(mints.past, mints.current + amount)]))
  {
  }

  lemma MintAdds(b: Books, b': Books, channel: Option<ChannelId>, v: Currency, amount: nat, u: Currency)
    requires MintsAdd(b, u) && b'.nextId == b.nextId && (channel.Some? ==> channel.value < b.nextId)
    requires forall ch: ChannelId :: MintEffect(b, b', channel, v, amount, ch, u)
    ensures MintsAdd(b', u)
  {
    var n, at := b.nextId, if channel.Some? then channel.value else 0;
    forall ch | 0 <= ch < n
      ensures SameAt(MintsOf(b, u), MintsOf(b', u), ch)
      ensures ch != at ==> SameAt(CurrentMintsOf(b, u), CurrentMintsOf(b', u), ch)
    {
      assert MintEffect(b, b', channel, v, amount, ch, u);
    }
    assert MintEffect(b, b', channel, v, amount, at, u);
    SumToSame(n, MintsOf(b, u), MintsOf(b', u));
    SumToUpdate(n, CurrentMintsOf(b, u), CurrentMintsOf(b', u), at);
  }

  lemma MintSound(b: Books, channel: Option<ChannelId>, v: Currency, amount: nat)
    requires Sound(b) && AfterMint(b, channel, v, amount).Ok? && (channel.Some? ==> channel.value in b.channels)
    ensures Sound(AfterMint(b, channel, v, amount).value)
  {
    var b' := AfterMint(b, channel, v, amount).value;
    forall ch: ChannelId, u
      ensures MintEffect(b, b', channel, v, amount, ch, u)
    {
      MintHas(b, channel, v, amount, ch, u);
    }
    forall ch: ChannelId, u
      ensures Registered(b', ch, u) && RateFits(b', ch, u)
    {
      assert MintEffect(b, b', channel, v, amount, ch, u);
    }
    assert channel.Some? ==> Registered(b, channel.value, v);
    forall u
      ensures MintsAdd(b', u)
    {
      assert MintsAdd(b, u);
      MintAdds(b, b', channel, v, amount, u);
    }
  }

  /** Recording something for the period under way does not disturb the phase. */
  lemma PhaseUndisturbed(b: Books, b': Books, cleared: Cleared, phase: Phase)
    requires PhaseOk(b, cleared, phase)
    requires b' == b.(totalMint := b'.totalMint, totalRedeem := b'.totalRedeem, channelMint := b'.channelMint,
                      commissions := b'.commissions)
    requires forall v :: SameClosed(b, b', v)
    requires forall ch: ChannelId, v :: SameMint(b, b', ch, v)
    ensures PhaseOk(b', cleared, phase)
  {
    match phase
    case Idle =>
      forall v
        ensures SharesFit(b', v) && IssuanceGrows(b', v)
      {
        assert SharesFit(b, v) && IssuanceGrows(b, v) && SameClosed(b, b', v);
        SameShares(b, b', v);
      }
    case Pass(base, from, i) => PassUndisturbed(base, b, b', cleared, from, i);
  }

  lemma MintUndisturbed(b: Books, channel: Option<ChannelId>, v: Currency, amount: nat,
          cleared: Cleared, phase: Phase)
    requires Sound(b) && PhaseOk(b, cleared, phase) && AfterMint(b, channel, v, amount).Ok?
    requires channel.Some? ==> channel.value in b.channels
    ensures PhaseOk(AfterMint(b, channel, v, amount).value, cleared, phase)
  {
    var b' := AfterMint(b, channel, v, amount).value;
    forall ch: ChannelId, u
      ensures SameMint(b, b', ch, u) && SameClosed(b, b', u)
    {
      MintHas(b, channel, v, amount, ch, u);
    }
    forall u
      ensures SameClosed(b, b', u)
    {
      MintHas(b, channel, v, amount, 0, u);
    }
    PhaseUndisturbed(b, b', cleared, phase);
  }

  /** Recorded redemptions and hosting fees leave mints, shares and rates alone. */
  lemma OtherSound(b: Books, b': Books)
    requires Sound(b) && b' == b.(totalRedeem := b'.totalRedeem, commissions := b'.commissions)
    ensures Sound(b')
  {
    forall ch: ChannelId, u
      ensures Registered(b', ch, u) && RateFits(b', ch, u)
    {
      assert Registered(b, ch, u) && RateFits(b, ch, u);
    }
    forall u
      ensures MintsAdd(b', u)
    {
      assert MintsAdd(b, u);
      FewerMints(b, b', u);
    }
  }

  // ---- Settling a channel --------------------------------------------------------------

  /** What channel ch has to claim, by token. */
  function DueTo(claimable: Claimable, ch: ChannelId): map<Currency, Balance> {
    map key | key in claimable && key.0 == ch :: key.1 := claimable[key]
  }

  lemma DueToAt(claimable: Claimable, ch: ChannelId, c: Currency)
    ensures Get(DueTo(claimable, ch), c, 0) == Get(claimable, (ch, c), 0)
  {
    if (ch, c) in claimable {
      assert (ch, c).1 in DueTo(claimable, ch);
    }
  }

  /** Pays everything a channel has to claim, or fails. */
  method PayClaims(free: Holdings, due: map<Currency, Balance>, pot: Account, receiver: Account)
    returns (r: Result<Holdings>)
    requires pot != receiver
    ensures r.Ok? ==> forall c :: Moved(free, r.value, pot, receiver, Get(due, c, 0), c)
    ensures r.Err? ==> r.error == TransferError && exists c :: Unpayable(free, due, pot, receiver, c)
  {
    var now := free;
    var todo := due.Keys;
    while todo != {}
      invariant todo <= due.Keys
      invariant forall c :: Moved(free, now, pot, receiver, Without(due, todo)(c), c)
      decreases todo
    {
      var c :| c in todo;
      ghost var mid, x, x' := now, Without(due, todo), Without(due, todo - {c});
      assert Moved(free, mid, pot, receiver, x(c), c);
      var sent := TryTransfer(now, c, pot, receiver, due[c]);
      if sent.Err? {
        assert Unpayable(free, due, pot, receiver, c);
        return Err(TransferError);
      }
      now := sent.value;
      NextMoved(free, mid, now, pot, receiver, x, x', c);
      todo := todo - {c};
    }
    forall c
      ensures Moved(free, now, pot, receiver, Get(due, c, 0), c)
    {
      assert Moved(free, now, pot, receiver, Without(due, todo)(c), c);
    }
    r := Ok(now);
  }

  /** The pot lacks what is due in token c, or the receiver cannot take it. */
  predicate Unpayable(free: Holdings, due: map<Currency, Balance>, pot: Account, receiver: Account, c: Currency) {
    Held(free, c, pot) < Get(due, c, 0) || U128_MAX < Held(free, c, receiver) + Get(due, c, 0)
  }

  // ---- Channels ------------------------------------------------------------------------

  /** The entries of channel ch for the given vtokens. */
  function Row(ch: ChannelId, vtokens: set<Currency>): set<(ChannelId, Currency)> {
    set v | v in vtokens :: (ch, v)
  }

  function WithEntries(m: map<(ChannelId, Currency), nat>, ch: ChannelId, vtokens: set<Currency>,
          x: nat): map<(ChannelId, Currency), nat>
  {
    map key | key in m.Keys + Row(ch, vtokens) :: if key.0 == ch && key.1 in vtokens then x else m[key]
  }

  /** A new channel starts with the default rate and no share of any vtoken. */
  function Registering(b: Books, receiver: Account): Books {
    var id := b.nextId;
    b.(nextId := id + 1,
       channels := b.channels[id := receiver],
       rates := WithEntries(b.rates, id, b.tokens.Keys, DEFAULT_RATE),
       shares := WithEntries(b.shares, id, b.tokens.Keys, 0))
  }

  /** A new channel has the next id, a rate of twenty percent and no share for each vtoken with a commission token; what
      is on record for the other channels stays. */
  lemma RegisteringIs(b: Books, receiver: Account, ch: ChannelId, v: Currency)
    ensures var b', id := Registering(b, receiver), b.nextId;
      && b'.nextId == id + 1 && b'.channels == b.channels[id := receiver]
      && (v in b.tokens ==> (id, v) in b'.rates && b'.rates[(id, v)] == 20)
      && (v in b.tokens ==> (id, v) in b'.shares && b'.shares[(id, v)] == 0)
      && (ch != id ==> ((ch, v) in b'.rates <==> (ch, v) in b.rates) && ((ch, v) in b'.shares <==> (ch, v) in b.shares))
      && (ch != id ==> Get(b'.rates, (ch, v), 0) == Get(b.rates, (ch, v), 0))
      && (ch != id ==> Get(b'.shares, (ch, v), 0) == Get(b.shares, (ch, v), 0))
      && b' == b.(nextId := b'.nextId, channels := b'.channels, rates := b'.rates, shares := b'.shares)
  {
  }

  lemma RegisteringAt(b: Books, receiver: Account, ch: ChannelId, v: Currency)
    requires Registered(b, ch, v) && RateFits(b, ch, v) && Registered(b, b.nextId, v)
    ensures var b' := Registering(b, receiver);
      && Registered(b', ch, v) && RateFits(b', ch, v)
      && b'.ShareOf(ch, v) == (if ch == b.nextId then 0 else b.ShareOf(ch, v))
      && (b.nextId, v) !in b'.channelMint
  {
  }

  lemma NewTerm(n: nat, f: int -> int, g: int -> int)
    requires Same(n, f, g) && g(n) == 0
    ensures SumTo(n + 1, g) == SumTo(n, f)
  {
    SumToSame(n, f, g);
  }

  /** One channel more, without mints, leaves the sums as they are. */
  lemma OneMoreMint(b: Books, b': Books, v: Currency)
    requires MintsAdd(b, v) && b'.nextId == b.nextId + 1
    requires b'.totalMint == b.totalMint && b'.channelMint == b.channelMint && (b.nextId, v) !in b.channelMint
    ensures MintsAdd(b', v)
  {
    forall ch | 0 <= ch < b.nextId
      ensures SameAt(MintsOf(b, v), MintsOf(b', v), ch) && SameAt(CurrentMintsOf(b, v), CurrentMintsOf(b', v), ch)
    {
    }
    NewTerm(b.nextId, MintsOf(b, v), MintsOf(b', v));
    NewTerm(b.nextId, CurrentMintsOf(b, v), CurrentMintsOf(b', v));
  }

  lemma OneMoreShare(b: Books, b': Books, v: Currency)
    requires SharesFit(b, v) && b'.nextId == b.nextId + 1
    requires forall ch: ChannelId :: b'.ShareOf(ch, v) == if ch == b.nextId then 0 else b.ShareOf(ch, v)
    ensures SharesFit(b', v)
  {
    forall ch | 0 <= ch < b.nextId
      ensures SameAt(SharesOf(b, v), SharesOf(b', v), ch)
    {
    }
    NewTerm(b.nextId, SharesOf(b, v), SharesOf(b', v));
  }

  lemma RegisteringSound(b: Books, receiver: Account)
    requires Sound(b)
    ensures Sound(Registering(b, receiver))
  {
    var b', id := Registering(b, receiver), b.nextId;
    forall ch: ChannelId, v
      ensures Registered(b', ch, v) && RateFits(b', ch, v)
    {
      assert Registered(b, ch, v) && RateFits(b, ch, v) && Registered(b, id, v);
      RegisteringAt(b, receiver, ch, v);
    }
    forall v
      ensures MintsAdd(b', v)
    {
      assert MintsAdd(b, v) && Registered(b, id, v);
      OneMoreMint(b, b', v);
    }
  }

  lemma RegisteringShared(b: Books, receiver: Account)
    requires Sound(b) && AllShared(b)
    ensures AllShared(Registering(b, receiver))
  {
    var b', id := Registering(b, receiver), b.nextId;
    forall v
      ensures SharesFit(b', v)
    {
      assert SharesFit(b, v);
      forall ch: ChannelId
        ensures b'.ShareOf(ch, v) == if ch == id then 0 else b.ShareOf(ch, v)
      {
        assert Registered(b, ch, v) && RateFits(b, ch, v) && Registered(b, id, v);
        RegisteringAt(b, receiver, ch, v);
      }
      OneMoreShare(b, b', v);
    }
  }

  lemma RegisteringGrows(b: Books, receiver: Account)
    requires AllGrow(b)
    ensures AllGrow(Registering(b, receiver))
  {
    forall v
      ensures IssuanceGrows(Registering(b, receiver), v)
    {
      assert IssuanceGrows(b, v);
    }
  }

  /** One entry before and after a channel is registered. */
  predicate EntryAdded(b: Books, b': Books, ch: ChannelId, v: Currency) {
    var added := ch == b.nextId && v in b.tokens;
    && ((ch, v) in b'.shares <==> (ch, v) in b.shares || added)
    && b'.ShareOf(ch, v) == (if added then 0 else b.ShareOf(ch, v))
    && (ch != b.nextId ==> b'.RateOf(ch, v) == b.RateOf(ch, v) && (ch in b'.channels <==> ch in b.channels))
  }

  ghost predicate ChannelAdded(b: Books, b': Books) {
    && b' == b.(nextId := b.nextId + 1, channels := b'.channels, rates := b'.rates, shares := b'.shares)
    && forall ch: ChannelId, v :: EntryAdded(b, b', ch, v)
  }

  lemma RegisteringAdds(b: Books, receiver: Account)
    ensures ChannelAdded(b, Registering(b, receiver))
  {
    forall ch: ChannelId, v
      ensures EntryAdded(b, Registering(b, receiver), ch, v)
    {
    }
  }

  /** The channels there were are credited as before. */
  lemma AddedCredit(b: Books, b': Books, ch: ChannelId, c: Currency)
    requires ChannelAdded(b, b') && ch < b.nextId
    ensures CreditFor(b', ch, c) == CreditFor(b, ch, c)
  {
    forall v
      ensures v in b'.VtokensOf(ch) <==> v in b.VtokensOf(ch)
      ensures CreditTo(b', ch, c)(v) == CreditTo(b, ch, c)(v)
    {
      assert EntryAdded(b, b', ch, v);
      VtokenOf(b, ch, v);
      VtokenOf(b', ch, v);
    }
    assert b'.VtokensOf(ch) == b.VtokensOf(ch);
    SumSame(b.VtokensOf(ch), CreditTo(b', ch, c), CreditTo(b, ch, c));
  }

  lemma AddedClaims(b: Books, b': Books, from: nat, i: nat, c: Currency)
    requires ChannelAdded(b, b') && from <= i <= b.nextId
    ensures Claims(b', from, i, c) == Claims(b, from, i, c)
  {
    forall ch | 0 <= ch < i
      ensures SameAt(CreditTerm(b', c), CreditTerm(b, c), ch)
    {
      AddedCredit(b, b', ch, c);
    }
    SumToSame(from, CreditTerm(b', c), CreditTerm(b, c));
    SumToSame(i, CreditTerm(b', c), CreditTerm(b, c));
  }

  lemma AddedStep(base: Books, b: Books, base': Books, b': Books, from: nat, i: nat, ch: ChannelId, v: Currency)
    requires ChannelAdded(base, base') && ChannelAdded(b, b')
    requires ShareStep(base, b, from, i, ch, v) && i <= base.nextId == b.nextId && b.tokens == base.tokens
    ensures ShareStep(base', b', from, i, ch, v)
  {
    assert EntryAdded(base, base', ch, v) && EntryAdded(b, b', ch, v);
    if ch != base.nextId {
      assert NewShare(base', ch, v) == NewShare(base, ch, v);
    }
  }

  lemma AddedInPass(base: Books, b: Books, base': Books, b': Books, cleared: Cleared, from: nat, i: nat)
    requires InPass(base, b, cleared, from, i) && i <= base.nextId
    requires ChannelAdded(base, base') && ChannelAdded(b, b')
    requires b'.channels == base'.channels && b'.rates == base'.rates
    ensures InPass(base', b', cleared, from, i)
  {
    forall v
      ensures SameClosed(base', b', v)
    {
      assert SameClosed(base, b, v);
    }
    forall ch: ChannelId, v
      ensures SameMint(base', b', ch, v) && ShareStep(base', b', from, i, ch, v)
    {
      assert SameMint(base, b, ch, v) && ShareStep(base, b, from, i, ch, v);
      AddedStep(base, b, base', b', from, i, ch, v);
    }
    forall c
      ensures ClearedRight(base', cleared, from, i, c)
    {
      assert ClearedRight(base, cleared, from, i, c);
      AddedClaims(base, base', from, i, c);
    }
  }

  /** A channel registered while a pass is under way is cleared with the others, as its last one. */
  lemma RegisteringInPass(base: Books, b: Books, cleared: Cleared, from: nat, i: nat, receiver: Account)
    requires PhaseOk(b, cleared, Pass(base, from, i))
    ensures PhaseOk(Registering(b, receiver), cleared, Pass(Registering(base, receiver), from, i))
  {
    var base', b' := Registering(base, receiver), Registering(b, receiver);
    RegisteringSound(base, receiver);
    RegisteringShared(base, receiver);
    RegisteringGrows(base, receiver);
    RegisteringAdds(base, receiver);
    RegisteringAdds(b, receiver);
    AddedInPass(base, b, base', b', cleared, from, i);
    if from != 0 {
      StillNewFrom(base, base', from);
    }
  }

  lemma StillNewFrom(b: Books, b': Books, from: nat)
    requires NewFrom(b, from) && b'.channelMint == b.channelMint
    ensures NewFrom(b', from)
  {
    forall ch: ChannelId, v | from <= ch
      ensures NotMinted(b', ch, v)
    {
      assert NotMinted(b, ch, v);
    }
  }

  /** Where the clearing stands once a channel has been registered after block `last`. If Bifrost has
      been paid, and the number of channels has caught up with the block, another pass begins. */
  function PhaseWith(d: pos, last: nat, phase: Phase, b: Books, receiver: Account): Phase {
    match phase
    case Pass(base, from, i) => Pass(Registering(base, receiver), from, i)
    case Idle =>
      if last % d < b.nextId + 2 then Pass(Registering(b, receiver), last % d, last % d) else Idle
  }

  lemma RegisteringPhase(d: pos, last: nat, b: Books, cleared: Cleared, phase: Phase, receiver: Account)
    requires Consistent(d, b, cleared, last, phase) && b.nextId + 2 < d
    ensures Consistent(d, Registering(b, receiver), cleared, last, PhaseWith(d, last, phase, b, receiver))
  {
    var b' := Registering(b, receiver);
    RegisteringSound(b, receiver);
    match phase
    case Pass(base, from, i) => RegisteringInPass(base, b, cleared, from, i, receiver);
    case Idle =>
      RegisteringShared(b, receiver);
      RegisteringGrows(b, receiver);
      if last % d < b.nextId + 2 {
        forall ch: ChannelId, v | last % d <= ch
          ensures NotMinted(b', ch, v)
        {
          assert Registered(b', ch, v);
        }
        Begin(b', cleared, last % d);
      }
  }

  /** Whether the hook comes to pay Bifrost once more before the period is over, when a channel has
      been registered after block `last`. */
  lemma PaysAgain(d: pos, nextId: nat, last: nat)
    requires nextId + 2 < d
    ensures (exists n: nat :: last < n && n / d == last / d && n % d == nextId + 2) <==> last % d < nextId + 2
  {
    if last % d < nextId + 2 {
      var n := last - last % d + nextId + 2;
      Euclid(last, d);
      DivUnique(n, d, last / d, nextId + 2);
      assert last < n && n / d == last / d && n % d == nextId + 2;
    }
    forall n: nat | last < n && n / d == last / d && n % d == nextId + 2
      ensures last % d < nextId + 2
    {
      Euclid(last, d);
      Euclid(n, d);
    }
  }

  function WithoutChannel<V>(m: map<(ChannelId, Currency), V>, ch: ChannelId): map<(ChannelId, Currency), V> {
    map key | key in m && key.0 != ch :: m[key]
  }

  function Removing(b: Books, ch: ChannelId): Books {
    b.(channels := b.channels - {ch}, rates := WithoutChannel(b.rates, ch), shares := WithoutChannel(b.shares, ch),
       channelMint := WithoutChannel(b.channelMint, ch))
  }

  /** Nothing is left on record of a channel that has been taken off, and nothing else has changed. */
  lemma RemovingIs(b: Books, ch: ChannelId, d: ChannelId, v: Currency)
    ensures var b' := Removing(b, ch);
      && b'.channels == b.channels - {ch}
      && (ch, v) !in b'.rates && (ch, v) !in b'.shares && (ch, v) !in b'.channelMint
      && (d != ch ==> ((d, v) in b'.rates <==> (d, v) in b.rates) && ((d, v) in b'.shares <==> (d, v) in b.shares))
      && (d != ch ==> Get(b'.rates, (d, v), 0) == Get(b.rates, (d, v), 0))
      && (d != ch ==> Get(b'.shares, (d, v), 0) == Get(b.shares, (d, v), 0))
      && (d != ch ==> Get(b'.channelMint, (d, v), NOTHING) == Get(b.channelMint, (d, v), NOTHING))
      && b' == b.(channels := b'.channels, rates := b'.rates, shares := b'.shares, channelMint := b'.channelMint)
  {
  }

  lemma FewerShares(b: Books, b': Books, v: Currency)
    requires SharesFit(b, v) && b'.nextId == b.nextId
    requires forall ch: ChannelId :: b'.ShareOf(ch, v) <= b.ShareOf(ch, v)
    ensures SharesFit(b', v)
  {
    forall ch | 0 <= ch < b.nextId
      ensures AtMostAt(SharesOf(b', v), SharesOf(b, v), ch)
    {
    }
    SumToLe(b.nextId, SharesOf(b', v), SharesOf(b, v));
  }

  lemma RemovingOk(b: Books, ch: ChannelId)
    requires Sound(b) && AllShared(b) && AllGrow(b)
    ensures var b' := Removing(b, ch); Sound(b') && AllShared(b') && AllGrow(b')
    ensures forall from: nat :: NewFrom(b, from) ==> NewFrom(Removing(b, ch), from)
  {
    var b' := Removing(b, ch);
    forall d: ChannelId, v
      ensures Registered(b', d, v) && RateFits(b', d, v) && (NotMinted(b, d, v) ==> NotMinted(b', d, v))
    {
      assert Registered(b, d, v) && RateFits(b, d, v);
    }
    forall v
      ensures MintsAdd(b', v) && SharesFit(b', v) && IssuanceGrows(b', v)
    {
      assert MintsAdd(b, v) && SharesFit(b, v) && IssuanceGrows(b, v);
      FewerMints(b, b', v);
      FewerShares(b, b', v);
    }
  }

  // ---- Before a pass has cleared anything ----------------------------------------------

  /** No pass is under way, or none of its channels has been cleared. */
  predicate Unbegun(phase: Phase) {
    phase.Idle? || phase.i == phase.from
  }

  /** The same phase, over the books as they are. */
  function Rebased(phase: Phase, b: Books): Phase {
    if phase.Idle? then Idle else Pass(b, phase.from, phase.i)
  }

  /** What the books must be for a phase that has not cleared anything. */
  ghost predicate AtStart(b: Books, cleared: Cleared, phase: Phase) {
    && AllShared(b) && AllGrow(b) && Settled(cleared)
    && (phase.Pass? ==> phase.i <= b.nextId && (phase.from == 0 || NewFrom(b, phase.from)))
  }

  lemma UnbegunStart(b: Books, cleared: Cleared, phase: Phase)
    requires Sound(b) && PhaseOk(b, cleared, phase) && Unbegun(phase)
    ensures AtStart(b, cleared, phase)
  {
    if phase.Pass? {
      var base, from := phase.base, phase.from;
      forall v
        ensures SharesFit(b, v) && IssuanceGrows(b, v)
      {
        assert SharesFit(base, v) && IssuanceGrows(base, v) && SameClosed(base, b, v);
        forall ch: ChannelId
          ensures b.ShareOf(ch, v) == base.ShareOf(ch, v)
        {
          assert ShareStep(base, b, from, from, ch, v);
        }
        SameShares(base, b, v);
      }
      forall c
        ensures NothingCleared(cleared, c)
      {
        assert ClearedRight(base, cleared, from, from, c);
      }
      forall ch: ChannelId, v | from != 0 && from <= ch
        ensures NotMinted(b, ch, v)
      {
        assert NotMinted(base, ch, v) && SameMint(base, b, ch, v);
      }
    }
  }

  lemma StartRebased(b: Books, cleared: Cleared, phase: Phase)
    requires Sound(b) && AtStart(b, cleared, phase) && Unbegun(phase)
    ensures PhaseOk(b, cleared, Rebased(phase, b))
  {
    if phase.Pass? {
      Begin(b, cleared, phase.from);
    }
  }

  lemma RemovingPhase(b: Books, cleared: Cleared, phase: Phase, ch: ChannelId)
    requires Sound(b) && PhaseOk(b, cleared, phase) && Unbegun(phase)
    ensures var b' := Removing(b, ch); Sound(b') && PhaseOk(b', cleared, Rebased(phase, b'))
  {
    UnbegunStart(b, cleared, phase);
    RemovingOk(b, ch);
    StartRebased(Removing(b, ch), cleared, phase);
  }

  // ---- Setting a share -----------------------------------------------------------------

  /** The shares of vtoken v with channel ch's replaced. */
  function Proposed(b: Books, ch: ChannelId, v: Currency, share: nat): int -> int {
    d => if d < 0 || d !in b.channels then 0 else if d == ch then share else b.ShareOf(d, v)
  }

  ghost function ProposedTotal(b: Books, ch: ChannelId, v: Currency, share: nat): int {
    SumTo(b.nextId, Proposed(b, ch, v, share))
  }

  /** A channel's share can be set just when all shares together still make up at most the whole. */
  method CheckShares(b: Books, ch: ChannelId, v: Currency, share: nat) returns (ok: bool)
    requires Sound(b)
    ensures ok <==> ProposedTotal(b, ch, v, share) <= MILLION
  {
    var total := 0;
    ghost var f := Proposed(b, ch, v, share);
    var i := 0;
    while i < b.nextId
      invariant i <= b.nextId && total == SumTo(i, f) <= MILLION
    {
      if i in b.channels {
        total := total + if i == ch then share else b.ShareOf(i, v);
        if total > MILLION {
          assert forall d :: 0 <= d < b.nextId ==> AtMostAt(Zero(), f, d);
          PrefixWithin(i + 1, b.nextId, f);
          return false;
        }
      }
      i := i + 1;
    }
    ok := true;
  }

  /** What is checked is the sum of the shares of all channels with the new one in place of the old. */
  lemma ProposedIs(b: Books, ch: ChannelId, v: Currency, share: nat)
    requires Sound(b) && ch in b.channels
    ensures ProposedTotal(b, ch, v, share) == SumTo(b.nextId, SharesOf(b, v)) - Get(b.shares, (ch, v), 0) + share
  {
    var f := Proposed(b, ch, v, share);
    assert Registered(b, ch, v);
    forall d | 0 <= d < b.nextId && d != ch
      ensures SameAt(SharesOf(b, v), f, d)
    {
      assert Registered(b, d, v);
    }
    SumToUpdate(b.nextId, SharesOf(b, v), f, ch);
  }

  function WithShare(b: Books, ch: ChannelId, v: Currency, share: nat): Books {
    b.(shares := b.shares[(ch, v) := share])
  }

  lemma SetShareFits(b: Books, ch: ChannelId, v: Currency, share: nat, u: Currency)
    requires SharesFit(b, u) && ch in b.channels && ProposedTotal(b, ch, v, share) <= MILLION
    requires forall d: ChannelId :: Registered(b, d, v)
    ensures SharesFit(WithShare(b, ch, v, share), u)
  {
    var b' := WithShare(b, ch, v, share);
    if u == v {
      forall d | 0 <= d < b.nextId
        ensures SameAt(Proposed(b, ch, v, share), SharesOf(b', u), d)
      {
        assert Registered(b, d, v);
      }
      SumToSame(b.nextId, Proposed(b, ch, v, share), SharesOf(b', u));
    } else {
      SameShares(b, b', u);
    }
  }

  lemma SetShareOk(b: Books, ch: ChannelId, v: Currency, share: nat)
    requires Sound(b) && AllShared(b) && AllGrow(b) && ch in b.channels && ProposedTotal(b, ch, v, share) <= MILLION
    ensures var b' := WithShare(b, ch, v, share); Sound(b') && AllShared(b') && AllGrow(b')
  {
    var b' := WithShare(b, ch, v, share);
    forall d: ChannelId, u
      ensures Registered(b', d, u) && RateFits(b', d, u)
    {
      assert Registered(b, d, u) && RateFits(b, d, u);
    }
    forall u
      ensures MintsAdd(b', u) && SharesFit(b', u) && IssuanceGrows(b', u)
    {
      assert MintsAdd(b, u) && SharesFit(b, u) && IssuanceGrows(b, u);
      FewerMints(b, b', u);
      SetShareFits(b, ch, v, share, u);
    }
  }

  lemma SetSharePhase(b: Books, cleared: Cleared, phase: Phase, ch: ChannelId, v: Currency, share: nat)
    requires Sound(b) && PhaseOk(b, cleared, phase) && Unbegun(phase)
    requires ch in b.channels && ProposedTotal(b, ch, v, share) <= MILLION
    ensures var b' := WithShare(b, ch, v, share); Sound(b') && PhaseOk(b', cleared, Rebased(phase, b'))
  {
    var b' := WithShare(b, ch, v, share);
    UnbegunStart(b, cleared, phase);
    SetShareOk(b, ch, v, share);
    forall d: ChannelId, u
      ensures NotMinted(b, d, u) ==> NotMinted(b', d, u)
    {
    }
    StartRebased(b', cleared, phase);
  }

  // ---- A channel registered too late ---------------------------------------------------

  lemma SamePeriod(d: pos, last: nat, more: nat)
    requires last % d + more < d
    ensures (last + more) / d == last / d
  {
    Euclid(last, d);
    DivUnique(last + more, d, last / d, last % d + more);
  }

  /** The pot can pay what is due in token c and x more, and the receiver can take it. */
  ghost predicate FundedFor(b: Books, cleared: Cleared, x: nat, free: Holdings, pot: Account,
                            receiver: Account, c: Currency)
  {
    var due := DueSoFar(b, cleared, c, b.tokens.Keys);
    due + x <= Held(free, c, pot) && Held(free, c, receiver) + due + x <= U128_MAX
  }

  /** A pass that has credited nobody pays Bifrost the whole commission. */
  lemma PaidInFull(b: Books, cleared: Cleared, free: Holdings, free': Holdings, pot: Account,
                   receiver: Account, c: Currency)
    requires Get(cleared, c, 0) == 0 && Uses(b, c, b.tokens.Keys) == 1
    requires PaidSoFar(b, cleared, free, free', pot, receiver, c, b.tokens.Keys)
    requires b.Total(c) <= Held(free, c, pot) && Held(free, c, receiver) + b.Total(c) <= U128_MAX
    ensures Moved(free, free', pot, receiver, b.Total(c), c)
  {
    assert DueSoFar(b, cleared, c, b.tokens.Keys) == b.Total(c) + 0 * b.Total(c);
  }

  /** Two payments to Bifrost, with a channel registered in the block of the first one. For a token of
      one vtoken the channels' claims and the two payments come to twice the commission. */
  lemma TwicePaid(base: Books, b: Books, cleared: Cleared, cleared': Cleared, from: nat,
                  free: Holdings, mid: Holdings, free': Holdings, pot: Account, receiver: Account, c: Currency)
    requires pot != receiver && Uses(base, c, base.tokens.Keys) == 1 && b.tokens == base.tokens
    requires b.Total(c) == base.Total(c) && Get(cleared', c, 0) == 0
    requires Conserved(base, cleared, from, c)
    requires FundedFor(base, cleared, base.Total(c), free, pot, receiver, c)
    requires PaidSoFar(base, cleared, free, mid, pot, receiver, c, base.tokens.Keys)
    requires PaidSoFar(b, cleared', mid, free', pot, receiver, c, b.tokens.Keys)
    ensures Claims(base, from, base.nextId, c) + (Held(free', c, receiver) - Held(free, c, receiver))
      == 2 * base.Total(c)
  {
    SumSame(b.tokens.Keys, UseTerm(b, c), UseTerm(base, c));
    PaidInFull(b, cleared', mid, free', pot, receiver, c);
  }

  // ---- Taking a channel off ------------------------------------------------------------

  /** Entries per channel that a removal can take off at once. */
  const REMOVE_TOKEN_LIMIT: nat := 100

  /** A channel's entries can be taken off at once. */
  predicate RemovalFits(b: Books, ch: ChannelId) {
    && |set key | key in b.rates && key.0 == ch| <= REMOVE_TOKEN_LIMIT
    && |set key | key in b.shares && key.0 == ch| <= REMOVE_TOKEN_LIMIT
    && |set key | key in b.channelMint && key.0 == ch| <= REMOVE_TOKEN_LIMIT
  }

  /** A channel's claims have been paid from the pot and struck off; the others stand. */
  ghost predicate PaidTo(claims: Claimable, claims': Claimable, free: Holdings, free': Holdings, ch: ChannelId,
                         pot: Account, receiver: Account)
  {
    && (forall c :: Moved(free, free', pot, receiver, Get(claims, (ch, c), 0), c))
    && claims' == WithoutChannel(claims, ch)
  }

  lemma ClaimsPaid(claims: Claimable, free: Holdings, free': Holdings, ch: ChannelId, pot: Account, receiver: Account)
    requires forall c :: Moved(free, free', pot, receiver, Get(DueTo(claims, ch), c, 0), c)
    ensures PaidTo(claims, WithoutChannel(claims, ch), free, free', ch, pot, receiver)
  {
    forall c
      ensures Moved(free, free', pot, receiver, Get(claims, (ch, c), 0), c)
    {
      DueToAt(claims, ch, c);
      assert Moved(free, free', pot, receiver, Get(DueTo(claims, ch), c, 0), c);
    }
  }

  /** A channel has been paid and its entries are gone. */
  ghost predicate Removed(b: Books, b': Books, claims: Claimable, claims': Claimable, free: Holdings, free': Holdings,
                          ch: ChannelId, pot: Account)
  {
    && ch in b.channels && RemovalFits(b, ch) && b' == Removing(b, ch)
    && PaidTo(claims, claims', free, free', ch, pot, b.channels[ch])
  }
}
