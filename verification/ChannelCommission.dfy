/** The channel-commission pallet: commission of a period is cleared channel by channel over the first
    blocks of the next one, and the rest goes to Bifrost. */
module ChannelCommissionPallet {
  import opened Primitives
  import opened Tokens
  import opened Clearing
  import opened ClearingCycle
  import opened ChannelCalls
  import opened CommissionPot

  /** The answer of a call that records something. */
  function Recorded<T>(r: Result<T>): Result<()> {
    if r.Ok? then Ok(()) else Err(r.error)
  }

  class ChannelCommission {
    const clearingDuration: pos
    /** The account that holds commission until it is claimed. */
    const pot: Account
    const bifrostReceiver: Account

    var channelNextId: ChannelId
    var channels: map<ChannelId, Account>
    var commissionTokens: map<Currency, Currency>
    var rates: map<(ChannelId, Currency), nat>
    var shares: map<(ChannelId, Currency), nat>
    var issuanceSnapshots: map<Currency, Pair>
    var periodTotalMint: map<Currency, Pair>
    var periodTotalRedeem: map<Currency, Pair>
    var periodChannelMint: map<(ChannelId, Currency), Pair>
    var periodTotalCommissions: map<Currency, Pair>
    var periodCleared: Cleared
    var claimable: Claimable
    var free: Holdings

    ghost var last: nat
    ghost var phase: Phase

    function Books(): Clearing.Books
      reads this
    {
      Clearing.Books(channelNextId, channels, commissionTokens, rates, shares, issuanceSnapshots, periodTotalMint,
                     periodTotalRedeem, periodChannelMint, periodTotalCommissions)
    }

    ghost predicate Valid()
      reads this
    {
      Consistent(clearingDuration, Books(), periodCleared, last, phase) && pot != bifrostReceiver
    }

    /** The pot covers all claims, what a pass has still to give out, and the commission of the period
        under way. */
    ghost predicate Solvent()
      reads this
    {
      PotCovers(Books(), claimable, periodCleared, phase, free, pot)
    }

    /** Besides, the pot holds the commission of the last period once more. */
    ghost predicate HoldsAll()
      reads this
    {
      forall c :: HoldsAgain(Books(), claimable, periodCleared, phase, free, pot, c)
    }

    /** The same, if x of currency c were not in the pot. */
    ghost predicate SolventWithout(c: Currency, x: nat)
      reads this
    {
      x <= Held(free, c, pot)
      && PotCovers(Books(), claimable, periodCleared, phase, free[(c, pot) := Held(free, c, pot) - x], pot)
    }

    constructor (duration: pos, potAccount: Account, receiver: Account, tokens: map<Currency, Currency>,
                 issued: Currency -> Balance, endowment: Holdings, start: nat)
      requires 1 < duration && 1 <= start % duration && potAccount != receiver
      ensures Valid() && phase == Idle && last == start && free == endowment && claimable == map[]
      ensures Books() == Clearing.Books(0, map[], tokens, map[], map[], map v | v in tokens :: Pair(0, issued(v)),
                                        map[], map[], map[], map[])
      ensures OneEach(Books()) ==> Solvent()
    {
      clearingDuration, pot, bifrostReceiver := duration, potAccount, receiver;
      channelNextId, channels, commissionTokens := 0, map[], tokens;
      rates, shares := map[], map[];
      issuanceSnapshots := map v | v in tokens :: Pair(0, issued(v));
      periodTotalMint, periodTotalRedeem, periodChannelMint, periodTotalCommissions := map[], map[], map[], map[];
      periodCleared, claimable, free := map v | v in tokens :: 0, map[], endowment;
      last, phase := start, Idle;
    }

    // ---- Recording ---------------------------------------------------------------------

    /** A mint of vtoken, brought by a registered channel or by Bifrost itself. */
    method RecordMintAmount(channel: Option<ChannelId>, vtoken: Currency, amount: nat) returns (r: Result<()>)
      requires Valid() && (channel.Some? ==> channel.value in channels)
      modifies `periodTotalMint, `periodChannelMint
      ensures Valid()
      ensures r.Ok? && amount != 0 ==> AfterMint(old(Books()), channel, vtoken, amount) == Ok(Books())
      ensures r.Err? ==> r.error == Overflow && amount != 0 && AfterMint(old(Books()), channel, vtoken, amount).Err?
      ensures r.Err? || amount == 0 ==> Books() == old(Books())
      ensures old(Solvent()) ==> Solvent()
    {
      if amount == 0 {
        return Ok(());
      }
      ghost var b := Books();
      var after :- AfterMint(Books(), channel, vtoken, amount);
      MintSound(b, channel, vtoken, amount);
      MintUndisturbed(b, channel, vtoken, amount, periodCleared, phase);
      periodTotalMint, periodChannelMint := after.totalMint, after.channelMint;
      assert Books() == after;
      KeepsSolvent(b);
      r := Ok(());
    }

    method RecordRedeemAmount(vtoken: Currency, amount: nat) returns (r: Result<()>)
      requires Valid()
      modifies `periodTotalRedeem
      ensures Valid()
      ensures r.Ok? && amount != 0 ==> Ok(periodTotalRedeem) == Added(old(periodTotalRedeem), vtoken, amount)
      ensures r.Err? ==> amount != 0 && r.error == Overflow && Added(old(periodTotalRedeem), vtoken, amount).Err?
      ensures r.Err? || amount == 0 ==> periodTotalRedeem == old(periodTotalRedeem)
      ensures old(Solvent()) ==> Solvent()
    {
      if amount == 0 {
        return Ok(());
      }
      ghost var b := Books();
      var redeemed :- Added(periodTotalRedeem, vtoken, amount);
      periodTotalRedeem := redeemed;
      OtherSound(b, Books());
      PhaseUndisturbed(b, Books(), periodCleared, phase);
      KeepsSolvent(b);
      r := Ok(());
    }

    /** A hosting fee: the staking token's vtoken and the fee in it, as far as there are conversions. A
        vtoken without commission token is ignored. A fee that is in the pot keeps the pot solvent. */
    method RecordHostingFee(amount: nat, vtoken: Option<Currency>, fee: Option<nat>) returns (r: Result<()>)
      requires Valid()
      modifies `periodTotalCommissions
      ensures Valid()
      ensures amount != 0 && vtoken.None? ==> r == Err(ConversionFailed)
      ensures amount != 0 && vtoken.Some? && fee.None? ==> r == Err(AmountConversionFailed)
      ensures amount == 0 ==> r == Ok(())
      ensures amount != 0 && vtoken.Some? && fee.Some? ==>
        r == if vtoken.value !in commissionTokens then Ok(()) else
               Recorded(Added(old(periodTotalCommissions), commissionTokens[vtoken.value], fee.value))
      ensures r.Ok? && amount != 0 && vtoken.value in commissionTokens ==>
        Ok(periodTotalCommissions) == Added(old(periodTotalCommissions), commissionTokens[vtoken.value], fee.value)
      ensures r.Err? || amount == 0 || vtoken.value !in commissionTokens ==>
        periodTotalCommissions == old(periodTotalCommissions)
      ensures r.Ok? && amount != 0 && vtoken.value in commissionTokens ==>
        old(SolventWithout(commissionTokens[vtoken.value], fee.value)) ==> Solvent()
    {
      if amount == 0 {
        return Ok(());
      }
      if vtoken.None? {
        return Err(ConversionFailed);
      }
      if fee.None? {
        return Err(AmountConversionFailed);
      }
      if vtoken.value in commissionTokens {
        r := AddFee(commissionTokens[vtoken.value], fee.value, Books());
        return;
      }
      r := Ok(());
    }

    method AddFee(token: Currency, fee: nat, ghost b: Clearing.Books) returns (r: Result<()>)
      requires Valid() && b == Books()
      modifies `periodTotalCommissions
      ensures Valid()
      ensures if r.Ok? then Ok(periodTotalCommissions) == Added(b.commissions, token, fee) else Books() == b
      ensures r == Recorded(Added(b.commissions, token, fee))
      ensures r.Ok? && old(SolventWithout(token, fee)) ==> Solvent()
    {
      var fees :- Added(periodTotalCommissions, token, fee);
      periodTotalCommissions := fees;
      OtherSound(b, Books());
      PhaseUndisturbed(b, Books(), periodCleared, phase);
      if old(SolventWithout(token, fee)) {
        ghost var before := free[(token, pot) := Held(free, token, pot) - fee];
        FeeCovers(b, Books(), claimable, periodCleared, phase, before, free, pot, token, fee);
      }
      r := Ok(());
    }

    /** A transfer that has nothing to do with the pallet, or puts a fee into the pot. */
    method SendTokens(c: Currency, from: Account, to: Account, amount: nat) returns (r: Result<()>)
      requires Valid() && from != pot
      modifies `free
      ensures Valid()
      ensures r.Ok? ==>
        (amount <= Held(old(free), c, from) || from == to) && free == Sent(old(free), c, from, to, amount)
      ensures r.Err? ==> free == old(free)
      ensures old(Solvent()) ==> Solvent()
      ensures old(Solvent()) && r.Ok? && to == pot ==> SolventWithout(c, amount)
    {
      ghost var before, b := free, Books();
      var sent :- TryTransfer(free, c, from, to, amount);
      free := sent;
      if old(Solvent()) {
        OtherCovers(b, b, claimable, periodCleared, phase, phase, before, free, pot);
        if to == pot {
          OtherCovers(b, b, claimable, periodCleared, phase, phase, before,
                      free[(c, pot) := Held(free, c, pot) - amount], pot);
        }
      }
      r := Ok(());
    }

    /** Recording mints and redemptions concerns no commission. */
    twostate lemma KeepsSolvent(b: Clearing.Books)
      requires b == old(Books()) && SameCommission(b, Books()) && claimable == old(claimable) && free == old(free)
      requires periodCleared == old(periodCleared) && phase.Idle? == old(phase.Idle?)
      ensures old(Solvent()) ==> Solvent()
    {
      if old(Solvent()) {
        OtherCovers(b, Books(), claimable, periodCleared, old(phase), phase, free, free, pot);
      }
    }

    // ---- The block hook ----------------------------------------------------------------

    /** The period under way becomes the one to be cleared. */
    method ShiftPeriod(issued: Currency -> Balance)
      modifies `issuanceSnapshots, `periodTotalMint, `periodTotalRedeem, `periodChannelMint, `periodTotalCommissions
      ensures Books() == RolledOver(old(Books()), issued)
    {
      var snapshots := ReissueAll(issuanceSnapshots, issued);
      var mints := ShiftAll(periodTotalMint);
      var redeems := ShiftAll(periodTotalRedeem);
      var channelMints := ShiftAll(periodChannelMint);
      var commissions := ShiftAll(periodTotalCommissions);
      issuanceSnapshots, periodTotalMint, periodTotalRedeem := snapshots, mints, redeems;
      periodChannelMint, periodTotalCommissions := channelMints, commissions;
    }

    /** Opens a pass. */
    method SetClearingEnvironment(issued: Currency -> Balance)
      requires Sound(Books()) && PhaseOk(Books(), periodCleared, Idle) && AllGrow(RolledOver(Books(), issued))
      modifies `issuanceSnapshots, `periodTotalMint, `periodTotalRedeem, `periodChannelMint, `periodTotalCommissions
      ensures Books() == RolledOver(old(Books()), issued)
      ensures Sound(Books()) && PhaseOk(Books(), periodCleared, Pass(Books(), 0, 0))
      ensures old(PotCovers(Books(), claimable, periodCleared, Idle, free, pot)) ==>
        PotCovers(Books(), claimable, periodCleared, Pass(Books(), 0, 0), free, pot)
    {
      ghost var b := Books();
      RolledOverSound(b, issued);
      Begin(RolledOver(b, issued), periodCleared, 0);
      if PotCovers(b, claimable, periodCleared, Idle, free, pot) {
        RolloverCovers(b, issued, claimable, periodCleared, free, pot);
      }
      ShiftPeriod(issued);
    }

    /** Clears channel ch and gives it its new shares. */
    method ClearChannel(ch: ChannelId, ghost base: Clearing.Books, ghost from: nat)
      requires Sound(Books()) && PhaseOk(Books(), periodCleared, Pass(base, from, ch)) && ch < base.nextId
      modifies `periodCleared, `claimable, `shares
      ensures Sound(Books()) && PhaseOk(Books(), periodCleared, Pass(base, from, ch + 1))
      ensures Credited(base, old(claimable), claimable, ch)
      ensures old(PotCovers(Books(), claimable, periodCleared, Pass(base, from, ch), free, pot)) ==>
        PotCovers(Books(), claimable, periodCleared, Pass(base, from, ch + 1), free, pot)
    {
      ghost var b, cl, cm := Books(), periodCleared, claimable;
      periodCleared, claimable := ClearChannelCommissions(Books(), ch, periodCleared, claimable);
      var updated := UpdateChannelVtokenShares(Books(), ch);
      shares := updated;
      ClearedStep(base, b, cl, cm, Books(), periodCleared, claimable, from, ch);
      PassGoesOn(base, b, cl, Books(), periodCleared, from, ch);
      if PotCovers(b, cm, cl, Pass(base, from, ch), free, pot) {
        ClearCovers(base, b, Books(), cm, claimable, cl, periodCleared, from, ch, free, pot);
      }
    }

    /** Ends a pass: what has not been credited to a channel goes to Bifrost. */
    method ClearBifrost(ghost base: Clearing.Books, ghost from: nat)
      requires Sound(Books()) && PhaseOk(Books(), periodCleared, Pass(base, from, base.nextId))
      requires pot != bifrostReceiver
      modifies `periodCleared, `free
      ensures PhaseOk(Books(), periodCleared, Idle)
      ensures BifrostPaid(base, old(periodCleared), from, old(free), free, pot, bifrostReceiver)
      ensures old(PotCovers(Books(), claimable, periodCleared, Pass(base, from, base.nextId), free, pot)) ==>
        PotCovers(Books(), claimable, periodCleared, Idle, free, pot)
        && PotHas(base, old(periodCleared), old(free), pot)
    {
      ghost var b, cl, before := Books(), periodCleared, free;
      periodCleared, free := ClearBifrostCommissions(Books(), periodCleared, free, pot, bifrostReceiver);
      PassEnds(base, b, cl, periodCleared, from);
      forall c
        ensures Conserved(base, cl, from, c)
        ensures PaidSoFar(base, cl, before, free, pot, bifrostReceiver, c, base.tokens.Keys)
      {
        PassConserved(base, b, cl, from, c);
        assert PaidSoFar(b, cl, before, free, pot, bifrostReceiver, c, b.tokens.Keys);
        assert b.tokens == base.tokens;
      }
      BifrostKeepsSolvent(base, b, cl, from, before);
    }

    lemma BifrostKeepsSolvent(base: Clearing.Books, b: Clearing.Books, cl: Cleared, from: nat, before: Holdings)
      requires Books() == b && PhaseOk(b, cl, Pass(base, from, base.nextId)) && Sound(base) && AllShared(base)
      requires forall c :: PaidSoFar(b, cl, before, free, pot, bifrostReceiver, c, b.tokens.Keys)
      ensures PotCovers(b, claimable, cl, Pass(base, from, base.nextId), before, pot) ==>
        PotCovers(Books(), claimable, periodCleared, Idle, free, pot) && PotHas(base, cl, before, pot)
    {
      if PotCovers(b, claimable, cl, Pass(base, from, base.nextId), before, pot) {
        BifrostCovers(base, b, claimable, cl, periodCleared, from, before, free, pot);
        forall c
          ensures Held(before, c, pot) <= Held(free, c, pot) + Max0(DueSoFar(b, cl, c, b.tokens.Keys))
          ensures DueSoFar(base, cl, c, base.tokens.Keys) <= Held(before, c, pot)
        {
          assert PaidSoFar(b, cl, before, free, pot, bifrostReceiver, c, b.tokens.Keys);
          PassConserved(base, b, cl, from, c);
        }
      }
    }

    /** The idle hook of the block after the last one. It opens a pass at the start of a period, clears
        one channel in each of the next blocks, pays Bifrost in the block after, and rests. */
    method OnIdle(now: nat, issued: Currency -> Balance)
      requires Valid() && now == last + 1
      requires now % clearingDuration == 0 ==> AllGrow(RolledOver(Books(), issued))
      modifies this
      ensures Valid() && last == now && channels == old(channels) && channelNextId == old(channelNextId)
      ensures now % clearingDuration == 0 ==>
        old(phase) == Idle && phase == Pass(RolledOver(old(Books()), issued), 0, 0)
      ensures old(phase).Pass? && old(phase).i < channelNextId ==>
        && phase == Pass(old(phase).base, old(phase).from, old(phase).i + 1)
        && Credited(old(phase).base, old(claimable), claimable, old(phase).i)
      ensures old(phase).Pass? && old(phase).i == channelNextId ==>
        && phase == Idle && Books() == old(Books()) && claimable == old(claimable)
        && BifrostPaid(old(phase).base, old(periodCleared), old(phase).from, old(free), free, pot, bifrostReceiver)
      ensures old(phase).Idle? && now % clearingDuration != 0 ==>
        phase == Idle && Books() == old(Books()) && claimable == old(claimable) && free == old(free)
      ensures old(Solvent()) ==> Solvent()
      ensures old(Solvent()) && old(phase).Pass? && old(phase).i == channelNextId ==>
        PotHas(old(phase).base, old(periodCleared), old(free), pot)
    {
      NextInPeriod(clearingDuration, last);
      var at := now % clearingDuration;
      if at == 0 {
        SetClearingEnvironment(issued);
        phase := Pass(Books(), 0, 0);
      } else if at < channelNextId + 1 {
        ClearChannel(at - 1, phase.base, phase.from);
        phase := Pass(phase.base, phase.from, at);
      } else if at == channelNextId + 1 {
        ClearBifrost(phase.base, phase.from);
        phase := Idle;
      }
      last := now;
    }

    // ---- Calls -------------------------------------------------------------------------

    /** Pays a channel everything it has to claim. */
    method ClaimCommissions(ch: ChannelId) returns (r: Result<()>)
      requires Valid() && (ch in channels ==> channels[ch] != pot)
      modifies `claimable, `free
      ensures Valid()
      ensures ch !in channels ==> r == Err(ChannelNotExist)
      ensures r.Ok? ==> ch in channels && PaidTo(old(claimable), claimable, old(free), free, ch, pot, channels[ch])
      ensures r.Err? ==> claimable == old(claimable) && free == old(free)
      ensures r.Err? && ch in channels ==>
        r.error == TransferError && exists c :: Unpayable(free, DueTo(claimable, ch), pot, channels[ch], c)
      ensures old(Solvent()) ==> Solvent()
      ensures old(Solvent()) && r.Err? && ch in channels ==>
        exists c :: U128_MAX < Held(free, c, channels[ch]) + Get(claimable, (ch, c), 0)
    {
      if ch !in channels {
        return Err(ChannelNotExist);
      }
      var paid := PayClaims(free, DueTo(claimable, ch), pot, channels[ch]);
      if Solvent() {
        ClaimKeeps(Books(), claimable, periodCleared, phase, free, if paid.Ok? then paid.value else free, pot,
                   channels[ch], ch);
      }
      if paid.Err? {
        return Err(paid.error);
      }
      ClaimsPaid(claimable, free, paid.value, ch, pot, channels[ch]);
      free := paid.value;
      claimable := WithoutChannel(claimable, ch);
      r := Ok(());
    }

    method AddChannel(receiver: Account, ghost b: Clearing.Books)
      requires b == Books()
      modifies `channelNextId, `channels, `rates, `shares
      ensures Books() == Registering(b, receiver)
    {
      var id := channelNextId;
      rates := WithEntries(rates, id, commissionTokens.Keys, DEFAULT_RATE);
      shares := WithEntries(shares, id, commissionTokens.Keys, 0);
      assert rates == Registering(b, receiver).rates && shares == Registering(b, receiver).shares;
      channels := channels[id := receiver];
      channelNextId := id + 1;
    }

    /** A new channel. During a pass it is cleared with the others. After it, if the hook has not yet run
        in the block of the period that is the number of the channels there were and two, it makes
        another pass begin. */
    method RegisterChannel(receiver: Account) returns (id: ChannelId)
      requires Valid() && channelNextId + 2 < clearingDuration
      modifies `channelNextId, `channels, `rates, `shares, `phase
      ensures Valid() && id == old(channelNextId) && Books() == Registering(old(Books()), receiver)
      ensures phase == PhaseWith(clearingDuration, last, old(phase), old(Books()), receiver)
      ensures old(Solvent()) && phase.Idle? == old(phase).Idle? ==> Solvent()
      ensures old(Solvent()) && phase.Idle? != old(phase).Idle? ==> (Solvent() <==> old(HoldsAll()))
    {
      id := channelNextId;
      ghost var b := Books();
      ghost var b', phase' := Registering(b, receiver), PhaseWith(clearingDuration, last, phase, b, receiver);
      AddChannel(receiver, b);
      phase := phase';
      assert Books() == b';
      assert Valid() by {
        RegisteringPhase(clearingDuration, last, b, periodCleared, old(phase), receiver);
      }
      if old(Solvent()) {
        RegisterSolvent(clearingDuration, last, b, claimable, periodCleared, old(phase), free, pot, receiver);
      }
    }

    /** Takes a channel's entries off, if they can be taken off at once. */
    method EraseChannel(ch: ChannelId, ghost b: Clearing.Books) returns (ok: bool)
      requires b == Books() && Valid() && Unbegun(phase)
      modifies `channels, `rates, `shares, `periodChannelMint, `phase
      ensures Valid() && ok == RemovalFits(b, ch)
      ensures ok ==> Books() == Removing(b, ch) && phase == Rebased(old(phase), Books())
      ensures !ok ==> Books() == b && phase == old(phase)
      ensures old(Solvent()) ==> Solvent()
    {
      ok := RemovalFits(Books(), ch);
      if !ok {
        return;
      }
      RemovingPhase(b, periodCleared, phase, ch);
      channels := channels - {ch};
      rates, shares := WithoutChannel(rates, ch), WithoutChannel(shares, ch);
      periodChannelMint := WithoutChannel(periodChannelMint, ch);
      assert Books() == Removing(b, ch);
      phase := Rebased(phase, Removing(b, ch));
      KeepsSolvent(b);
    }

    /** Pays a channel and takes it off. When its entries cannot be taken off the payment has been made. */
    method SettleAndErase(ch: ChannelId) returns (r: Result<()>)
      requires Valid() && Unbegun(phase) && (ch in channels ==> channels[ch] != pot)
      modifies `channels, `rates, `shares, `periodChannelMint, `claimable, `free, `phase
      ensures r.Ok? ==> Valid() && phase == Rebased(old(phase), Books())
      ensures r.Ok? ==> Removed(old(Books()), Books(), old(claimable), claimable, old(free), free, ch, pot)
      ensures r.Ok? && old(Solvent()) ==> Solvent()
      ensures r.Err? ==> Books() == old(Books()) && phase == old(phase)
      ensures ch !in old(channels) ==> r == Err(ChannelNotExist)
      ensures r.Err? && ch in old(channels) ==>
        || (r.error == RemovalNotComplete && !RemovalFits(old(Books()), ch))
        || (r.error == TransferError
            && exists c :: Unpayable(old(free), DueTo(old(claimable), ch), pot, old(channels)[ch], c))
    {
      ghost var b := Books();
      var _ :- ClaimCommissions(ch);
      var erased := EraseChannel(ch, b);
      if !erased {
        return Err(RemovalNotComplete);
      }
      r := Ok(());
    }

    /** Takes a channel off, after paying it, or does nothing. */
    method RemoveChannel(ch: ChannelId) returns (r: Result<()>)
      requires Valid() && Unbegun(phase) && (ch in channels ==> channels[ch] != pot)
      modifies `channels, `rates, `shares, `periodChannelMint, `claimable, `free, `phase
      ensures Valid() && phase == if r.Ok? then Rebased(old(phase), Books()) else old(phase)
      ensures r.Ok? ==> Removed(old(Books()), Books(), old(claimable), claimable, old(free), free, ch, pot)
      ensures r.Err? ==> Books() == old(Books()) && claimable == old(claimable) && free == old(free)
      ensures ch !in old(channels) ==> r == Err(ChannelNotExist)
      ensures r.Err? && ch in old(channels) ==>
        || (r.error == RemovalNotComplete && !RemovalFits(old(Books()), ch))
        || (r.error == TransferError
            && exists c :: Unpayable(old(free), DueTo(old(claimable), ch), pot, old(channels)[ch], c))
      ensures r.Ok? ==> |set key | key in old(rates) && key.0 == ch| <= 100
      ensures r.Ok? ==> |set key | key in old(shares) && key.0 == ch| <= 100
      ensures r.Ok? ==> |set key | key in old(periodChannelMint) && key.0 == ch| <= 100
      ensures old(Solvent()) ==> Solvent()
    {
      var claims, held := claimable, free;
      r := SettleAndErase(ch);
      if r.Err? {
        claimable, free := claims, held;
      }
    }

    method WriteShare(ch: ChannelId, vtoken: Currency, share: nat)
      requires Valid() && Unbegun(phase) && ch in channels && ProposedTotal(Books(), ch, vtoken, share) <= MILLION
      modifies `shares, `phase
      ensures Valid() && phase == Rebased(old(phase), Books()) && shares == old(shares)[(ch, vtoken) := share]
      ensures old(Solvent()) ==> Solvent()
    {
      SetSharePhase(Books(), periodCleared, phase, ch, vtoken, share);
      ghost var b' := WithShare(Books(), ch, vtoken, share);
      shares := shares[(ch, vtoken) := share];
      assert Books() == b';
      phase := Rebased(phase, b');
      KeepsSolvent(old(Books()));
    }

    /** Sets a channel's share of a vtoken, while no channel of a pass has been cleared. */
    method SetChannelVtokenShares(ch: ChannelId, vtoken: Currency, share: nat) returns (r: Result<()>)
      requires Valid() && Unbegun(phase)
      modifies `shares, `phase
      ensures Valid() && phase == if r.Ok? then Rebased(old(phase), Books()) else old(phase)
      ensures r == if ch !in channels then Err(ChannelNotExist)
                   else if vtoken !in commissionTokens then Err(VtokenNotConfigured)
                   else if MILLION < old(ProposedTotal(Books(), ch, vtoken, share)) then Err(InvalidCommissionRate)
                   else Ok(())
      ensures shares == if r.Ok? then old(shares)[(ch, vtoken) := share] else old(shares)
      ensures old(Solvent()) ==> Solvent()
    {
      if ch !in channels {
        return Err(ChannelNotExist);
      }
      if vtoken !in commissionTokens {
        return Err(VtokenNotConfigured);
      }
      var ok := CheckShares(Books(), ch, vtoken, share);
      if !ok {
        return Err(InvalidCommissionRate);
      }
      WriteShare(ch, vtoken, share);
      r := Ok(());
    }
  }

  // ---- A channel registered too late ---------------------------------------------------

  /** The hook that pays Bifrost and ends the pass. */
  method PayBifrost(pallet: ChannelCommission, block: nat, issued: Currency -> Balance)
    requires pallet.Valid() && pallet.phase.Pass? && pallet.phase.i == pallet.channelNextId
    requires block == pallet.last + 1
    modifies pallet
    ensures pallet.Valid() && pallet.last == block && pallet.phase == Idle && pallet.Books() == old(pallet.Books())
    ensures Settled(pallet.periodCleared)
    ensures BifrostPaid(old(pallet.phase).base, old(pallet.periodCleared), old(pallet.phase).from, old(pallet.free),
                        pallet.free, pallet.pot, pallet.bifrostReceiver)
  {
    NextInPeriod(pallet.clearingDuration, pallet.last);
    pallet.OnIdle(block, issued);
  }

  /** The hook that pays Bifrost, and a channel registered in the block after: its hook is about to pay again. */
  method PayThenRegister(pallet: ChannelCommission, block: nat, receiver: Account, issued: Currency -> Balance,
                         ghost base: Clearing.Books)
    requires pallet.Valid() && pallet.phase.Pass? && pallet.phase.i == pallet.channelNextId
    requires pallet.channelNextId + 2 < pallet.clearingDuration && block == pallet.last + 1 && base == pallet.phase.base
    modifies pallet
    ensures pallet.Valid() && pallet.last == block && pallet.phase.Pass? && pallet.phase.i == pallet.channelNextId
    ensures pallet.channelNextId == old(pallet.channelNextId) + 1
    ensures pallet.phase.base == pallet.Books() && pallet.commissionTokens == base.tokens
    ensures Settled(pallet.periodCleared)
    ensures forall c :: pallet.Books().Total(c) == base.Total(c)
    ensures BifrostPaid(base, old(pallet.periodCleared), old(pallet.phase).from, old(pallet.free),
                        pallet.free, pallet.pot, pallet.bifrostReceiver)
  {
    ghost var b := pallet.Books();
    forall c
      ensures b.Total(c) == base.Total(c)
    {
      assert SameClosed(base, b, c);
    }
    NextInPeriod(pallet.clearingDuration, pallet.last);
    PayBifrost(pallet, block, issued);
    var _ := pallet.RegisterChannel(receiver);
  }

  /** A channel registered in the block after the one that pays Bifrost makes the hook of that block pay
      it once more, and for the same commission. */
  method RegisterLate(pallet: ChannelCommission, block: nat, receiver: Account, issued: Currency -> Balance)
    requires pallet.Valid() && pallet.phase.Pass? && pallet.phase.i == pallet.channelNextId
    requires pallet.channelNextId + 2 < pallet.clearingDuration && block == pallet.last + 1
    modifies pallet
    ensures pallet.Valid() && pallet.phase == Idle && pallet.last == block + 1
    ensures pallet.last / pallet.clearingDuration == old(pallet.last) / pallet.clearingDuration
    ensures forall c ::
      var base, cleared, free := old(pallet.phase).base, old(pallet.periodCleared), old(pallet.free);
      Uses(base, c, base.tokens.Keys) == 1
      && FundedFor(base, cleared, base.Total(c), free, pallet.pot, pallet.bifrostReceiver, c) ==>
        Claims(base, old(pallet.phase).from, base.nextId, c)
        + (Held(pallet.free, c, pallet.bifrostReceiver) - Held(free, c, pallet.bifrostReceiver)) == 2 * base.Total(c)
  {
    ghost var base, from, cleared, free := pallet.phase.base, pallet.phase.from, pallet.periodCleared, pallet.free;
    SamePeriod(pallet.clearingDuration, pallet.last, 2);
    PayThenRegister(pallet, block, receiver, issued, base);
    ghost var b, mid, cleared' := pallet.Books(), pallet.free, pallet.periodCleared;
    NextInPeriod(pallet.clearingDuration, block);
    pallet.OnIdle(block + 1, issued);
    forall c | Uses(base, c, base.tokens.Keys) == 1
      && FundedFor(base, cleared, base.Total(c), free, pallet.pot, pallet.bifrostReceiver, c)
      ensures Claims(base, from, base.nextId, c)
              + (Held(pallet.free, c, pallet.bifrostReceiver) - Held(free, c, pallet.bifrostReceiver))
              == 2 * base.Total(c)
    {
      assert NothingCleared(cleared', c) && Conserved(base, cleared, from, c);
      assert PaidSoFar(b, cleared', mid, pallet.free, pallet.pot, pallet.bifrostReceiver, c, b.tokens.Keys);
      TwicePaid(base, b, cleared, cleared', from, free, mid, pallet.free, pallet.pot, pallet.bifrostReceiver, c);
    }
  }
}
