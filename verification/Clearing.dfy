/** The arithmetic of a clearing period of the channel-commission pallet: what one pass credits,
    pays and sets as shares, for fixed books. */
module Clearing {
  import opened Primitives
  import opened Sums

  type ChannelId = nat
  /** An amount of the period being cleared and one of the period under way. */
  datatype Pair = Pair(past: Balance, current: Balance)

  const NOTHING := Pair(0, 0)
  const MILLION: pos := 1_000_000
  const HUNDRED: pos := 100
  const DEFAULT_RATE: nat := 20

  datatype Books = Books(
    nextId: ChannelId,
    channels: map<ChannelId, Account>,
    tokens: map<Currency, Currency>,
    rates: map<(ChannelId, Currency), nat>,
    shares: map<(ChannelId, Currency), nat>,
    issuance: map<Currency, Pair>,
    totalMint: map<Currency, Pair>,
    totalRedeem: map<Currency, Pair>,
    channelMint: map<(ChannelId, Currency), Pair>,
    commissions: map<Currency, Pair>)
  {
    /** The commission of the period being cleared, for commission token c. */
    function Total(c: Currency): nat {
      Get(commissions, c, NOTHING).past
    }

    function Minted(v: Currency): nat {
      Get(totalMint, v, NOTHING).past
    }

    function Redeemed(v: Currency): nat {
      Get(totalRedeem, v, NOTHING).past
    }

    function MintedBy(ch: ChannelId, v: Currency): nat {
      Get(channelMint, (ch, v), NOTHING).past
    }

    function Issued(v: Currency): Pair {
      Get(issuance, v, NOTHING)
    }

    /** A channel's share of vtoken v, in parts per million. */
    function ShareOf(ch: ChannelId, v: Currency): nat {
      Get(shares, (ch, v), 0)
    }

    /** A channel's rate in percent; none or zero stands for the default. */
    function RateOf(ch: ChannelId, v: Currency): nat {
      if Get(rates, (ch, v), 0) == 0 then DEFAULT_RATE else rates[(ch, v)]
    }

    /** The vtokens a channel has a share of. */
    function VtokensOf(ch: ChannelId): set<Currency> {
      set key | key in shares && key.0 == ch :: key.1
    }
  }

  // ---- Commission of one channel -------------------------------------------------------

  /** What channel ch is credited for vtoken v. */
  function CreditOf(b: Books, ch: ChannelId, v: Currency): nat {
    if ch in b.channels && (ch, v) in b.shares && v in b.tokens && b.Issued(v).past != 0
    then MulDiv(MulDiv(b.Total(b.tokens[v]), b.ShareOf(ch, v), MILLION), b.RateOf(ch, v), HUNDRED)
    else 0
  }

  /** The part of it that is in commission token c. */
  function CreditTo(b: Books, ch: ChannelId, c: Currency): Currency -> int {
    v => if v in b.tokens && b.tokens[v] == c then CreditOf(b, ch, v) else 0
  }

  /** What channel ch is credited in commission token c, over all vtokens. */
  ghost function CreditFor(b: Books, ch: ChannelId, c: Currency): int {
    Sum(b.VtokensOf(ch), CreditTo(b, ch, c))
  }

  /** The terms f(0) up to f(n - 1) added up. */
  function SumTo(n: nat, f: int -> int): int {
    if n == 0 then 0 else SumTo(n - 1, f) + f(n - 1)
  }

  ghost function CreditTerm(b: Books, c: Currency): int -> int {
    ch => if ch < 0 then 0 else CreditFor(b, ch, c)
  }

  /** What the channels from `from` up to n are credited in commission token c. */
  ghost function Claims(b: Books, from: nat, n: nat, c: Currency): int {
    SumTo(n, CreditTerm(b, c)) - SumTo(from, CreditTerm(b, c))
  }

  /** How many vtokens among vs pay their commission in token c. */
  function UseTerm(b: Books, c: Currency): Currency -> int {
    v => if v in b.tokens && b.tokens[v] == c then 1 else 0
  }

  ghost function Uses(b: Books, c: Currency, vs: set<Currency>): int {
    Sum(vs, UseTerm(b, c))
  }

  /** What Bifrost is paid out of `total` when it is visited `uses` times and `claimed` has been
      cleared: the rest the first time, and everything again each further time. */
  function BifrostDue(total: nat, claimed: nat, uses: int): int {
    if uses <= 0 then 0 else SatSub(total, claimed) + (uses - 1) * total
  }

  // ---- Shares --------------------------------------------------------------------------

  /** A fraction in parts per million, rounded down; an improper one is refused. */
  function FromRational(p: nat, q: nat): Option<nat> {
    if q == 0 || q < p then None else Some(MulDiv(MILLION, p, q))
  }

  /** A channel's part of the net mint of the period. */
  function NetMintOf(b: Books, ch: ChannelId, v: Currency): nat {
    var minted, net := b.Minted(v), SatSub(b.Minted(v), b.Redeemed(v));
    if minted == 0 then 0 else
      var x := MulDiv(b.MintedBy(ch, v), net, minted);
      if U128_MAX < x then 0 else x
  }

  /** A channel's vtokens by the end of the period: its share of the old issuance and its net mint. */
  function Holding(b: Books, ch: ChannelId, v: Currency): nat {
    MulDiv(b.Issued(v).past, b.ShareOf(ch, v), MILLION) + NetMintOf(b, ch, v)
  }

  /** The share after the pass. */
  function NewShare(b: Books, ch: ChannelId, v: Currency): nat {
    if b.Redeemed(v) < b.Minted(v) then
      var r := FromRational(Holding(b, ch, v), b.Issued(v).current);
      if r.Some? then r.value else 0
    else b.ShareOf(ch, v)
  }

  // ---- Sums over channels --------------------------------------------------------------

  predicate AtMostAt(f: int -> int, g: int -> int, i: int) {
    f(i) <= g(i)
  }

  /** Below n, each term of f is at most that of g. */
  ghost predicate AtMost(n: nat, f: int -> int, g: int -> int) {
    forall i :: 0 <= i < n ==> AtMostAt(f, g, i)
  }

  predicate SameAt(f: int -> int, g: int -> int, i: int) {
    f(i) == g(i)
  }

  /** Below n, the terms of f are those of g. */
  ghost predicate Same(n: nat, f: int -> int, g: int -> int) {
    forall i :: 0 <= i < n ==> SameAt(f, g, i)
  }

  function Zero(): int -> int {
    i => 0
  }

  lemma {:induction false} SumToLe(n: nat, f: int -> int, g: int -> int)
    requires AtMost(n, f, g)
    ensures SumTo(n, f) <= SumTo(n, g)
  {
    if n != 0 {
      assert AtMostAt(f, g, n - 1);
      SumToLe(n - 1, f, g);
    }
  }

  lemma {:induction false} SumToSame(n: nat, f: int -> int, g: int -> int)
    requires Same(n, f, g)
    ensures SumTo(n, f) == SumTo(n, g)
  {
    if n != 0 {
      assert SameAt(f, g, n - 1);
      SumToSame(n - 1, f, g);
    }
  }

  lemma {:induction false} SumToNonNeg(n: nat, f: int -> int)
    requires AtMost(n, Zero(), f)
    ensures 0 <= SumTo(n, f)
  {
    if n != 0 {
      assert AtMostAt(Zero(), f, n - 1);
      SumToNonNeg(n - 1, f);
    }
  }

  /** No term is more than the sum. */
  lemma {:induction false} TermWithin(n: nat, f: int -> int, i: nat)
    requires AtMost(n, Zero(), f) && i < n
    ensures f(i) <= SumTo(n, f)
  {
    assert AtMostAt(Zero(), f, n - 1);
    if i == n - 1 {
      SumToNonNeg(n - 1, f);
    } else {
      TermWithin(n - 1, f, i);
    }
  }

  lemma {:induction false} PrefixWithin(i: nat, n: nat, f: int -> int)
    requires i <= n && AtMost(n, Zero(), f)
    ensures SumTo(i, f) <= SumTo(n, f)
    decreases n
  {
    if i < n {
      assert AtMostAt(Zero(), f, n - 1);
      PrefixWithin(i, n - 1, f);
    }
  }

  predicate AddsAt(f: int -> int, g: int -> int, h: int -> int, i: int) {
    h(i) == f(i) + g(i)
  }

  lemma {:induction false} SumToAdd(n: nat, f: int -> int, g: int -> int, h: int -> int)
    requires forall i :: 0 <= i < n ==> AddsAt(f, g, h, i)
    ensures SumTo(n, h) == SumTo(n, f) + SumTo(n, g)
  {
    if n != 0 {
      assert AddsAt(f, g, h, n - 1);
      SumToAdd(n - 1, f, g, h);
    }
  }

  /** Changing one term moves the sum by the difference. */
  lemma {:induction false} SumToUpdate(n: nat, f: int -> int, g: int -> int, k: int)
    requires forall i :: 0 <= i < n && i != k ==> SameAt(f, g, i)
    ensures SumTo(n, g) == SumTo(n, f) + (if 0 <= k < n then g(k) - f(k) else 0)
  {
    if n != 0 {
      assert n - 1 != k ==> SameAt(f, g, n - 1);
      SumToUpdate(n - 1, f, g, k);
    }
  }

  /** The parts of x by `parts`, out of d, each rounded down. */
  function Parts(x: nat, parts: int -> int, d: pos): int -> int {
    i => x * parts(i) / d
  }

  lemma PartsStep(x: nat, s: int, p: int, d: pos, t: int)
    requires t <= x * s / d
    ensures t + x * p / d <= x * (s + p) / d
  {
    Distribute(x, s, p);
    QuotientSum(x * s, x * p, d);
  }

  /** Rounded parts add up to at most the part of the sum, and so to at most x when the parts make
      up at most the whole. */
  lemma {:induction false} PartsFit(n: nat, x: nat, parts: int -> int, d: pos)
    ensures SumTo(n, Parts(x, parts, d)) <= x * SumTo(n, parts) / d
  {
    if n == 0 {
      assert x * 0 == 0;
      DivExact(0, d);
    } else {
      PartsFit(n - 1, x, parts, d);
      PartsStep(x, SumTo(n - 1, parts), parts(n - 1), d, SumTo(n - 1, Parts(x, parts, d)));
    }
  }

  lemma PartsWithin(n: nat, x: nat, parts: int -> int, d: pos)
    requires SumTo(n, parts) <= d
    ensures SumTo(n, Parts(x, parts, d)) <= x
  {
    PartsFit(n, x, parts, d);
    MulMono(SumTo(n, parts), d, x);
    DivMono(x * SumTo(n, parts), d * x, d);
    DivExact(x, d);
  }

  // ---- Conservation --------------------------------------------------------------------

  function SharesOf(b: Books, v: Currency): int -> int {
    ch => if ch < 0 then 0 else b.ShareOf(ch, v)
  }

  /** The shares of vtoken v come to at most the whole. */
  predicate SharesFit(b: Books, v: Currency) {
    SumTo(b.nextId, SharesOf(b, v)) <= MILLION
  }

  predicate RateFits(b: Books, ch: ChannelId, v: Currency) {
    Get(b.rates, (ch, v), 0) <= HUNDRED
  }

  ghost predicate RatesFit(b: Books) {
    forall ch: ChannelId, v :: RateFits(b, ch, v)
  }

  function CreditsOf(b: Books, v: Currency): int -> int {
    ch => if ch < 0 then 0 else CreditOf(b, ch, v)
  }

  /** For one vtoken, the channels together are credited at most the whole commission. */
  lemma CreditsWithin(b: Books, v: Currency)
    requires v in b.tokens && SharesFit(b, v) && RatesFit(b)
    ensures 0 <= SumTo(b.nextId, CreditsOf(b, v)) <= b.Total(b.tokens[v])
  {
    var t := b.Total(b.tokens[v]);
    forall ch | 0 <= ch < b.nextId
      ensures AtMostAt(Zero(), CreditsOf(b, v), ch)
      ensures AtMostAt(CreditsOf(b, v), Parts(t, SharesOf(b, v), MILLION), ch)
    {
      assert RateFits(b, ch, v);
      MulDivLe(b.RateOf(ch, v), MulDiv(t, b.ShareOf(ch, v), MILLION), HUNDRED);
      MulDivSwap(b.RateOf(ch, v), MulDiv(t, b.ShareOf(ch, v), MILLION), HUNDRED);
    }
    SumToNonNeg(b.nextId, CreditsOf(b, v));
    SumToLe(b.nextId, CreditsOf(b, v), Parts(t, SharesOf(b, v), MILLION));
    PartsWithin(b.nextId, t, SharesOf(b, v), MILLION);
  }

  lemma CreditForNonNeg(b: Books, ch: ChannelId, c: Currency)
    ensures 0 <= CreditFor(b, ch, c)
  {
    SumNonNeg(b.VtokensOf(ch), CreditTo(b, ch, c));
  }

  lemma ClaimsNonNeg(b: Books, from: nat, n: nat, c: Currency)
    requires from <= n
    ensures 0 <= Claims(b, from, n, c) <= Claims(b, 0, n, c)
  {
    forall ch | 0 <= ch < n
      ensures AtMostAt(Zero(), CreditTerm(b, c), ch)
    {
      CreditForNonNeg(b, ch, c);
    }
    SumToNonNeg(from, CreditTerm(b, c));
    PrefixWithin(from, n, CreditTerm(b, c));
  }

  /** When only vtoken v pays in token c, a channel's credit in c is its credit for v. */
  lemma OnlyCredit(b: Books, ch: ChannelId, v: Currency)
    requires v in b.tokens && forall u :: u in b.tokens && b.tokens[u] == b.tokens[v] ==> u == v
    ensures CreditFor(b, ch, b.tokens[v]) == CreditOf(b, ch, v)
  {
    var vs, f := b.VtokensOf(ch), CreditTo(b, ch, b.tokens[v]);
    if v in vs {
      SumRemove(vs, f, v);
      SumZero(vs - {v}, f);
    } else {
      assert (ch, v) !in b.shares;
      SumZero(vs, f);
    }
  }

  lemma NoCredit(b: Books, from: nat, n: nat, c: Currency)
    requires b.Total(c) == 0 || forall u :: u in b.tokens ==> b.tokens[u] != c
    ensures Claims(b, from, n, c) == 0
  {
    NoCreditTo(b, from, c);
    NoCreditTo(b, n, c);
  }

  lemma NoCreditTo(b: Books, n: nat, c: Currency)
    requires b.Total(c) == 0 || forall u :: u in b.tokens ==> b.tokens[u] != c
    ensures SumTo(n, CreditTerm(b, c)) == 0
  {
    forall ch | 0 <= ch < n
      ensures SameAt(CreditTerm(b, c), Zero(), ch)
    {
      NoCreditFor(b, ch, c);
    }
    SumToSame(n, CreditTerm(b, c), Zero());
    ZeroSum(n);
  }

  lemma NoCreditFor(b: Books, ch: ChannelId, c: Currency)
    requires b.Total(c) == 0 || forall u :: u in b.tokens ==> b.tokens[u] != c
    ensures CreditFor(b, ch, c) == 0
  {
    forall v | v in b.VtokensOf(ch)
      ensures CreditTo(b, ch, c)(v) == 0
    {
      if v in b.tokens && b.tokens[v] == c {
        DivExact(0, MILLION);
        DivExact(0, HUNDRED);
        assert 0 * b.ShareOf(ch, v) == 0;
        assert 0 * b.RateOf(ch, v) == 0;
      }
    }
    SumZero(b.VtokensOf(ch), CreditTo(b, ch, c));
  }

  lemma {:induction false} ZeroSum(n: nat)
    ensures SumTo(n, Zero()) == 0
  {
    if n != 0 {
      ZeroSum(n - 1);
    }
  }

  /** Used once means used by exactly one vtoken. */
  lemma UsedOnce(b: Books, c: Currency, v: Currency)
    requires v in b.tokens && b.tokens[v] == c && Uses(b, c, b.tokens.Keys) == 1
    ensures forall u :: u in b.tokens && b.tokens[u] == c ==> u == v
  {
    var f := UseTerm(b, c);
    SumRemove(b.tokens.Keys, f, v);
    forall u | u in b.tokens && b.tokens[u] == c
      ensures u == v
    {
      if u != v {
        SumTerm(b.tokens.Keys - {v}, f, u);
      }
    }
  }

  lemma SomeUse(b: Books, c: Currency)
    ensures 0 <= Uses(b, c, b.tokens.Keys)
    ensures 0 < Uses(b, c, b.tokens.Keys) <==> exists v :: v in b.tokens && b.tokens[v] == c
  {
    var f := UseTerm(b, c);
    SumNonNeg(b.tokens.Keys, f);
    if v :| v in b.tokens && b.tokens[v] == c {
      SumTerm(b.tokens.Keys, f, v);
    } else {
      SumZero(b.tokens.Keys, f);
    }
  }

  /** A token used by one vtoken is never over-claimed. */
  lemma ClaimsWithin(b: Books, from: nat, c: Currency)
    requires Uses(b, c, b.tokens.Keys) == 1 && RatesFit(b) && from <= b.nextId
    requires forall v :: v in b.tokens ==> SharesFit(b, v)
    ensures 0 <= Claims(b, from, b.nextId, c) <= b.Total(c)
  {
    SomeUse(b, c);
    var v :| v in b.tokens && b.tokens[v] == c;
    UsedOnce(b, c, v);
    forall ch | 0 <= ch < b.nextId
      ensures SameAt(CreditTerm(b, c), CreditsOf(b, v), ch)
    {
      OnlyCredit(b, ch, v);
    }
    SumToSame(b.nextId, CreditTerm(b, c), CreditsOf(b, v));
    CreditsWithin(b, v);
    ClaimsNonNeg(b, from, b.nextId, c);
  }

  /** What a pass over the channels from `from` on credits to them and what it pays to Bifrost come to
      the commission of the period exactly when the commission token is used by one vtoken, or there
      is none of it. */
  lemma PassConserves(b: Books, from: nat, c: Currency)
    requires RatesFit(b) && from <= b.nextId
    requires forall v :: v in b.tokens ==> SharesFit(b, v)
    ensures var claims, uses := Claims(b, from, b.nextId, c), Uses(b, c, b.tokens.Keys);
      0 <= claims
      && (claims + BifrostDue(b.Total(c), Min(claims, U128_MAX), uses) == b.Total(c) <==> uses == 1 || b.Total(c) == 0)
  {
    var claims, uses, total := Claims(b, from, b.nextId, c), Uses(b, c, b.tokens.Keys), b.Total(c);
    ClaimsNonNeg(b, from, b.nextId, c);
    SomeUse(b, c);
    if total == 0 || uses == 0 {
      NoCredit(b, from, b.nextId, c);
      assert total == 0 ==> (uses - 1) * total == 0;
    } else if uses == 1 {
      ClaimsWithin(b, from, c);
    } else {
      MulMono(1, uses - 1, total);
    }
  }

  /** Two vtokens that pay in the same token: with nothing to credit, Bifrost is paid the commission
      of 100 twice. */
  lemma PaidPerVtoken()
    ensures var b := Books(0, map[], map[Currency(1) := Currency(9), Currency(2) := Currency(9)], map[], map[], map[],
                           map[], map[], map[], map[Currency(9) := Pair(100, 0)]);
      var c := Currency(9);
      RatesFit(b) && (forall v :: SharesFit(b, v)) && b.Total(c) == 100
      && Claims(b, 0, b.nextId, c) + BifrostDue(b.Total(c), 0, Uses(b, c, b.tokens.Keys)) == 200
  {
    var c := Currency(9);
    var b := Books(0, map[], map[Currency(1) := c, Currency(2) := c], map[], map[], map[],
                   map[], map[], map[], map[c := Pair(100, 0)]);
    var f := UseTerm(b, c);
    assert b.tokens.Keys == {Currency(1), Currency(2)};
    SumRemove(b.tokens.Keys, f, Currency(1));
    assert b.tokens.Keys - {Currency(1)} == {Currency(2)};
    SumRemove({Currency(2)}, f, Currency(2));
    assert {Currency(2)} - {Currency(2)} == {};
  }

  /** Two roundings down, first by d and then by e, lose less than two units. */
  lemma TwoFloors(x: nat, y: nat, d: pos, z: nat, e: pos)
    requires z <= e
    ensures var r := MulDiv(MulDiv(x, y, d), z, e);
      d * (e * r) <= x * y * z <= d * (e * r) + 2 * (d * e)
  {
    var q := MulDiv(x, y, d);
    var r := MulDiv(q, z, e);
    MulDivBound(x * y, d);
    MulDivBound(q * z, e);
    MulMono(d * q, x * y, z);
    MulMono(x * y, d * q + d, z);
    Distribute(z, d * q, d);
    MulMono(e * r, q * z, d);
    MulMono(q * z, e * r + e, d);
    Distribute(d, e * r, e);
    MulMono(z, e, d);
    assert z * (d * q) == d * (q * z) && z * (x * y) == x * y * z;
  }

  /** A channel is credited its rate of its share of the commission, less than two units below: the rate on record in
      percent, or twenty if there is none. Without a share, an old issuance or a commission token it is credited
      nothing. */
  lemma CreditIsShare(b: Books, ch: ChannelId, v: Currency)
    requires RateFits(b, ch, v)
    ensures if ch in b.channels && (ch, v) in b.shares && v in b.tokens && v in b.issuance && b.issuance[v].past != 0
      then
        var stored := if (ch, v) in b.rates then b.rates[(ch, v)] else 0;
        var total := if b.tokens[v] in b.commissions then b.commissions[b.tokens[v]].past else 0;
        var exact := total * b.shares[(ch, v)] * (if stored == 0 then 20 else stored);
        1_000_000 * (100 * CreditOf(b, ch, v)) <= exact <= 1_000_000 * (100 * CreditOf(b, ch, v)) + 200_000_000
      else CreditOf(b, ch, v) == 0
  {
    if ch in b.channels && (ch, v) in b.shares && v in b.tokens && b.Issued(v).past != 0 {
      TwoFloors(b.Total(b.tokens[v]), b.ShareOf(ch, v), MILLION, b.RateOf(ch, v), HUNDRED);
    }
  }

  /** A channel's vtokens at the end of the period, from what is on record: its share of the old issuance, and its part
      of what has been minted on balance. */
  lemma HoldingIs(b: Books, ch: ChannelId, v: Currency)
    requires v in b.totalMint && b.Redeemed(v) < b.totalMint[v].past
    ensures var issued := if v in b.issuance then b.issuance[v].past else 0;
      var share := if (ch, v) in b.shares then b.shares[(ch, v)] else 0;
      var mint := if (ch, v) in b.channelMint then b.channelMint[(ch, v)].past else 0;
      var redeemed := if v in b.totalRedeem then b.totalRedeem[v].past else 0;
      var part := mint * (b.totalMint[v].past - redeemed) / b.totalMint[v].past;
      Holding(b, ch, v) == issued * share / 1_000_000 + (if part <= U128_MAX then part else 0)
  {
  }

  /** A new share, from what is on record. Without a net mint it stays; without an issuance, or if the channel would
      hold more than that, it is lost; and otherwise it is the channel's part of the new issuance, rounded down. */
  lemma NewShareIsPart(b: Books, ch: ChannelId, v: Currency)
    ensures var minted := if v in b.totalMint then b.totalMint[v].past else 0;
      var redeemed := if v in b.totalRedeem then b.totalRedeem[v].past else 0;
      var share := if (ch, v) in b.shares then b.shares[(ch, v)] else 0;
      if minted <= redeemed then NewShare(b, ch, v) == share
      else
        var issued := if v in b.issuance then b.issuance[v] else NOTHING;
        var mint := if (ch, v) in b.channelMint then b.channelMint[(ch, v)].past else 0;
        var part, q := mint * (minted - redeemed) / minted, issued.current;
        var holds := issued.past * share / 1_000_000 + (if part <= U128_MAX then part else 0);
        if q == 0 || q < holds then NewShare(b, ch, v) == 0
        else q * NewShare(b, ch, v) <= 1_000_000 * holds < q * NewShare(b, ch, v) + q
  {
    if b.Redeemed(v) < b.Minted(v) {
      HoldingIs(b, ch, v);
      var q := b.Issued(v).current;
      if q != 0 {
        MulDivBound(MILLION * Holding(b, ch, v), q);
      }
    }
  }

  // ---- Shares after a pass -------------------------------------------------------------

  function MintsOf(b: Books, v: Currency): int -> int {
    ch => if ch < 0 then 0 else b.MintedBy(ch, v)
  }

  /** The channels have minted at most what has been minted. */
  predicate MintsFit(b: Books, v: Currency) {
    SumTo(b.nextId, MintsOf(b, v)) <= b.Minted(v)
  }

  /** What has been minted on balance is in the new issuance, if there is a new issuance on record. */
  predicate IssuanceGrows(b: Books, v: Currency) {
    b.Redeemed(v) < b.Minted(v) && b.Issued(v).current != 0 ==>
      b.Issued(v).past + (b.Minted(v) - b.Redeemed(v)) <= b.Issued(v).current
  }

  function HoldingsOf(b: Books, v: Currency): int -> int {
    ch => if ch < 0 then 0 else Holding(b, ch, v)
  }

  lemma MulDivSwap(x: nat, y: nat, d: pos)
    ensures MulDiv(x, y, d) == MulDiv(y, x, d)
  {
  }

  lemma HoldingBound(b: Books, ch: ChannelId, v: Currency)
    requires b.Redeemed(v) < b.Minted(v)
    ensures Holding(b, ch, v) <= MulDiv(b.Issued(v).past, b.ShareOf(ch, v), MILLION)
                               + MulDiv(b.Minted(v) - b.Redeemed(v), b.MintedBy(ch, v), b.Minted(v))
  {
    MulDivSwap(b.MintedBy(ch, v), b.Minted(v) - b.Redeemed(v), b.Minted(v));
  }

  /** The parts of the old issuance and of the net mint, as an upper bound of the holdings. */
  function HoldingBounds(b: Books, v: Currency): int -> int
    requires b.Redeemed(v) < b.Minted(v)
  {
    var f := Parts(b.Issued(v).past, SharesOf(b, v), MILLION);
    var g := Parts(b.Minted(v) - b.Redeemed(v), MintsOf(b, v), b.Minted(v));
    ch => f(ch) + g(ch)
  }

  lemma HoldingsBounded(b: Books, v: Currency)
    requires b.Redeemed(v) < b.Minted(v)
    ensures AtMost(b.nextId, Zero(), HoldingsOf(b, v)) && AtMost(b.nextId, HoldingsOf(b, v), HoldingBounds(b, v))
  {
    forall ch | 0 <= ch < b.nextId
      ensures AtMostAt(Zero(), HoldingsOf(b, v), ch) && AtMostAt(HoldingsOf(b, v), HoldingBounds(b, v), ch)
    {
      HoldingBound(b, ch, v);
    }
  }

  /** The channels hold at most what there is. */
  lemma HoldingsFit(b: Books, v: Currency)
    requires SharesFit(b, v) && MintsFit(b, v) && IssuanceGrows(b, v)
    requires b.Redeemed(v) < b.Minted(v) && b.Issued(v).current != 0
    ensures SumTo(b.nextId, HoldingsOf(b, v)) <= b.Issued(v).current
  {
    var n, issued, minted, net := b.nextId, b.Issued(v).past, b.Minted(v), b.Minted(v) - b.Redeemed(v);
    var f, g := Parts(issued, SharesOf(b, v), MILLION), Parts(net, MintsOf(b, v), minted);
    HoldingsBounded(b, v);
    SumToLe(n, HoldingsOf(b, v), HoldingBounds(b, v));
    forall ch | 0 <= ch < n
      ensures AddsAt(f, g, HoldingBounds(b, v), ch)
    {
    }
    SumToAdd(n, f, g, HoldingBounds(b, v));
    PartsWithin(n, issued, SharesOf(b, v), MILLION);
    PartsWithin(n, net, MintsOf(b, v), minted);
  }

  function NewShares(b: Books, v: Currency): int -> int {
    ch => if ch < 0 then 0 else NewShare(b, ch, v)
  }

  /** Without a net mint the shares stay; without an issuance on record they are lost. */
  lemma NewShareTrivial(b: Books, v: Currency)
    requires b.Minted(v) <= b.Redeemed(v) || b.Issued(v).current == 0
    requires SharesFit(b, v)
    ensures SumTo(b.nextId, NewShares(b, v)) <= MILLION
  {
    var n, f := b.nextId, if b.Minted(v) <= b.Redeemed(v) then SharesOf(b, v) else Zero();
    forall ch | 0 <= ch < n
      ensures SameAt(NewShares(b, v), f, ch)
    {
    }
    SumToSame(n, NewShares(b, v), f);
    ZeroSum(n);
  }

  /** If the shares come to at most the whole before a pass, they do so after it. */
  lemma NewSharesFit(b: Books, v: Currency)
    requires SharesFit(b, v) && MintsFit(b, v) && IssuanceGrows(b, v)
    ensures SumTo(b.nextId, NewShares(b, v)) <= MILLION
  {
    var n, q := b.nextId, b.Issued(v).current;
    if b.Redeemed(v) < b.Minted(v) && q != 0 {
      HoldingsFit(b, v);
      forall ch | 0 <= ch < n
        ensures SameAt(NewShares(b, v), Parts(MILLION, HoldingsOf(b, v), q), ch)
      {
        NeverImproper(b, ch, v);
      }
      SumToSame(n, NewShares(b, v), Parts(MILLION, HoldingsOf(b, v), q));
      PartsWithin(n, MILLION, HoldingsOf(b, v), q);
    } else {
      NewShareTrivial(b, v);
    }
  }

  /** With an issuance on record a channel's fraction is never improper, so the fallback for one is
      never taken. */
  lemma NeverImproper(b: Books, ch: ChannelId, v: Currency)
    requires SharesFit(b, v) && MintsFit(b, v) && IssuanceGrows(b, v) && ch < b.nextId
    requires b.Redeemed(v) < b.Minted(v) && b.Issued(v).current != 0
    ensures Holding(b, ch, v) <= b.Issued(v).current
    ensures FromRational(Holding(b, ch, v), b.Issued(v).current).Some?
  {
    HoldingsFit(b, v);
    HoldingsBounded(b, v);
    TermWithin(b.nextId, HoldingsOf(b, v), ch);
  }

  // ---- The pass as a sequence of steps -------------------------------------------------

  type Cleared = map<Currency, Balance>
  type Claimable = map<(ChannelId, Currency), Balance>

  /** The amounts of the period being cleared are those of the base books. */
  predicate SameClosed(base: Books, b: Books, v: Currency) {
    b.Total(v) == base.Total(v) && b.Minted(v) == base.Minted(v) && b.Redeemed(v) == base.Redeemed(v)
  }

  predicate SameMint(base: Books, b: Books, ch: ChannelId, v: Currency) {
    b.MintedBy(ch, v) == base.MintedBy(ch, v)
  }

  /** The channels from `from` up to i have their new shares, the others still their old ones. */
  predicate ShareStep(base: Books, b: Books, from: nat, i: nat, ch: ChannelId, v: Currency) {
    && ((ch, v) in b.shares <==> (ch, v) in base.shares)
    && ((ch, v) in base.shares ==>
          b.shares[(ch, v)] == if from <= ch < i then NewShare(base, ch, v) else base.shares[(ch, v)])
  }

  ghost predicate ClearedRight(base: Books, cleared: Cleared, from: nat, i: nat, c: Currency) {
    0 <= Claims(base, from, i, c) && Get(cleared, c, 0) == Min(Claims(base, from, i, c), U128_MAX)
  }

  /** In the middle of a pass that began with the base books and channel `from`, the channels up to i
      have been cleared, each once. */
  ghost predicate InPass(base: Books, b: Books, cleared: Cleared, from: nat, i: nat) {
    && from <= i && b.nextId == base.nextId && b.channels == base.channels && b.tokens == base.tokens
    && b.rates == base.rates && b.issuance == base.issuance
    && (forall v :: SameClosed(base, b, v))
    && (forall ch: ChannelId, v :: SameMint(base, b, ch, v))
    && (forall ch: ChannelId, v :: ShareStep(base, b, from, i, ch, v))
    && (forall c :: ClearedRight(base, cleared, from, i, c))
  }

  /** A pass starts over its own books. */
  lemma PassStarts(b: Books, cleared: Cleared, from: nat)
    requires forall c :: Get(cleared, c, 0) == 0
    ensures InPass(b, b, cleared, from, from)
  {
  }

  /** The channel that is next still finds what it would have found at the beginning. */
  lemma StepReads(base: Books, b: Books, cleared: Cleared, from: nat, i: nat, c: Currency)
    requires InPass(base, b, cleared, from, i)
    ensures b.VtokensOf(i) == base.VtokensOf(i) && CreditFor(b, i, c) == CreditFor(base, i, c)
  {
    forall v
      ensures (i, v) in b.shares <==> (i, v) in base.shares
      ensures CreditTo(b, i, c)(v) == CreditTo(base, i, c)(v)
    {
      assert ShareStep(base, b, from, i, i, v);
      if v in base.tokens {
        assert SameClosed(base, b, base.tokens[v]);
      }
    }
    forall v
      ensures v in b.VtokensOf(i) <==> v in base.VtokensOf(i)
    {
      VtokenOf(b, i, v);
      VtokenOf(base, i, v);
    }
    assert b.VtokensOf(i) == base.VtokensOf(i);
    SumSame(b.VtokensOf(i), CreditTo(b, i, c), CreditTo(base, i, c));
  }

  lemma VtokenOf(b: Books, ch: ChannelId, v: Currency)
    ensures v in b.VtokensOf(ch) <==> (ch, v) in b.shares
  {
    if (ch, v) in b.shares {
      assert (ch, v).1 in b.VtokensOf(ch);
    }
  }

  lemma StepShare(base: Books, b: Books, cleared: Cleared, from: nat, i: nat, v: Currency)
    requires InPass(base, b, cleared, from, i) && (i, v) in b.shares
    ensures NewShare(b, i, v) == NewShare(base, i, v)
  {
    assert ShareStep(base, b, from, i, i, v) && SameClosed(base, b, v) && SameMint(base, b, i, v);
  }

  /** One step of the pass: channel i is credited and gets its new shares. */
  ghost predicate ChannelCleared(b: Books, cleared: Cleared, b': Books, cleared': Cleared, i: nat) {
    && b' == b.(shares := b'.shares) && b'.shares.Keys == b.shares.Keys
    && (forall ch: ChannelId, v :: (ch, v) in b.shares ==>
          b'.shares[(ch, v)] == if ch == i then NewShare(b, ch, v) else b.shares[(ch, v)])
    && (forall c :: Get(cleared', c, 0) == Min(Get(cleared, c, 0) + Max0(CreditFor(b, i, c)), U128_MAX))
  }

  lemma ClaimsStep(base: Books, b: Books, cleared: Cleared, b': Books, cleared': Cleared,
                   from: nat, i: nat, j: nat, c: Currency)
    requires InPass(base, b, cleared, from, i) && ChannelCleared(b, cleared, b', cleared', i) && j == i + 1
    ensures ClearedRight(base, cleared', from, j, c)
  {
    assert ClearedRight(base, cleared, from, i, c);
    StepReads(base, b, cleared, from, i, c);
    CreditForNonNeg(base, i, c);
    assert Claims(base, from, j, c) == Claims(base, from, i, c) + CreditFor(base, i, c);
  }

  lemma PassSteps(base: Books, b: Books, cleared: Cleared, b': Books, cleared': Cleared, from: nat, i: nat)
    requires InPass(base, b, cleared, from, i) && ChannelCleared(b, cleared, b', cleared', i)
    ensures InPass(base, b', cleared', from, i + 1)
  {
    var j := i + 1;
    forall v
      ensures SameClosed(base, b', v)
    {
      assert SameClosed(base, b, v);
    }
    forall ch: ChannelId, v
      ensures SameMint(base, b', ch, v) && ShareStep(base, b', from, j, ch, v)
    {
      assert SameMint(base, b, ch, v) && ShareStep(base, b, from, i, ch, v);
      if ch == i && (ch, v) in b.shares {
        StepShare(base, b, cleared, from, i, v);
      }
    }
    forall c
      ensures ClearedRight(base, cleared', from, j, c)
    {
      ClaimsStep(base, b, cleared, b', cleared', from, i, j, c);
    }
  }

  /** What is recorded for the period under way does not disturb a pass. */
  lemma PassUndisturbed(base: Books, b: Books, b': Books, cleared: Cleared, from: nat, i: nat)
    requires InPass(base, b, cleared, from, i)
    requires b' == b.(totalMint := b'.totalMint, totalRedeem := b'.totalRedeem, channelMint := b'.channelMint,
                      commissions := b'.commissions)
    requires forall v :: SameClosed(b, b', v)
    requires forall ch: ChannelId, v :: SameMint(b, b', ch, v)
    ensures InPass(base, b', cleared, from, i)
  {
    forall v
      ensures SameClosed(base, b', v)
    {
      assert SameClosed(base, b, v) && SameClosed(b, b', v);
    }
    forall ch: ChannelId, v
      ensures SameMint(base, b', ch, v) && ShareStep(base, b', from, i, ch, v)
    {
      assert SameMint(base, b, ch, v) && SameMint(b, b', ch, v) && ShareStep(base, b, from, i, ch, v);
    }
  }

  /** The channels from `from` on have not minted anything in the closed period. */
  ghost predicate NewFrom(b: Books, from: nat) {
    forall ch: ChannelId, v :: from <= ch ==> NotMinted(b, ch, v)
  }

  predicate NotMinted(b: Books, ch: ChannelId, v: Currency) {
    b.MintedBy(ch, v) == 0
  }

  /** A channel that has not minted anything does not gain. */
  lemma NewShareFalls(b: Books, ch: ChannelId, v: Currency)
    requires IssuanceGrows(b, v) && NotMinted(b, ch, v)
    ensures NewShare(b, ch, v) <= b.ShareOf(ch, v)
  {
    var minted, net := b.Minted(v), SatSub(b.Minted(v), b.Redeemed(v));
    var past, q, share := b.Issued(v).past, b.Issued(v).current, b.ShareOf(ch, v);
    if b.Redeemed(v) < minted && q != 0 {
      assert 0 * net == 0;
      DivExact(0, minted);
      assert Holding(b, ch, v) == MulDiv(past, share, MILLION);
      MulDivBound(past * share, MILLION);
      MulMono(past, q, share);
      DivMono(MILLION * MulDiv(past, share, MILLION), q * share, q);
      DivExact(share, q);
    }
  }

  /** After the last channel the shares come to at most the whole again. */
  lemma PassEndsFit(base: Books, b: Books, cleared: Cleared, from: nat, v: Currency)
    requires InPass(base, b, cleared, from, base.nextId) && (from == 0 || NewFrom(base, from))
    requires SharesFit(base, v) && MintsFit(base, v) && IssuanceGrows(base, v)
    ensures SharesFit(b, v)
  {
    var f := if from == 0 then NewShares(base, v) else SharesOf(base, v);
    NewSharesFit(base, v);
    forall ch | 0 <= ch < b.nextId
      ensures AtMostAt(SharesOf(b, v), f, ch)
    {
      assert ShareStep(base, b, from, base.nextId, ch, v);
      if 0 < from <= ch {
        assert NotMinted(base, ch, v);
        NewShareFalls(base, ch, v);
      }
    }
    SumToLe(b.nextId, SharesOf(b, v), f);
  }
}
