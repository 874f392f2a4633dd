/** The buy-back scheduler: in every window of `buybackDuration` blocks one buy-back is quoted at a
    block that looks random, and attempted in the block after. Adding liquidity is scheduled beside it. */
module BuyBackPallet {
  import opened Primitives
  import opened Sums

  const U32_MAX: nat := 0xFFFF_FFFF

  datatype Info = Info(
    minSwapValue: nat,
    ifAuto: bool,
    buybackDuration: nat,
    lastBuyback: nat,
    lastBuybackCycle: nat,
    addLiquidityDuration: nat,
    lastAddLiquidity: nat)

  /** Everything the hook reads and writes for one currency. */
  datatype Slot = Slot(info: Info, swapOutMin: Option<nat>, liquidityMin: Option<nat>)

  // ---- The target block ----------------------------------------------------------------

  type byte = n: nat | n < 256

  /** Up to four bytes as a little-endian number. */
  function Seed(bytes: seq<byte>): nat {
    if bytes == [] then 0 else bytes[0] + 256 * Seed(bytes[1..])
  }

  function FirstFour(bytes: seq<byte>): seq<byte> {
    if |bytes| <= 4 then bytes else bytes[..4]
  }

  /** The block of the quote, counted from the end of the last window. */
  function Target(last: nat, bytes: seq<byte>, duration: nat): nat {
    var effective := SatSub(duration, 1);
    if Min(effective, U32_MAX) == 0 then 1
    else Min(Min(last, U32_MAX) + Seed(FirstFour(bytes)), U32_MAX) % Min(effective, U32_MAX) + 1
  }

  /** In a window of two blocks or more, the quote leaves room for the attempt. */
  lemma TargetInWindow(last: nat, bytes: seq<byte>, duration: nat)
    ensures 1 <= Target(last, bytes, duration)
    ensures 2 <= duration ==> Target(last, bytes, duration) <= duration - 1
    ensures duration < 2 ==> Target(last, bytes, duration) == 1
  {
  }

  lemma SeedIsLittleEndian(bytes: seq<byte>)
    ensures Seed(FirstFour(bytes))
         == (if 0 < |bytes| then bytes[0] as int else 0) + 0x100 * (if 1 < |bytes| then bytes[1] as int else 0)
          + 0x1_0000 * (if 2 < |bytes| then bytes[2] as int else 0)
          + 0x100_0000 * (if 3 < |bytes| then bytes[3] as int else 0)
  {
    var b := FirstFour(bytes);
    assert |b| > 0 ==> Seed(b) == b[0] + 256 * Seed(b[1..]);
    assert |b| > 1 ==> b[1..][0] == b[1] && b[1..][1..] == b[2..] && Seed(b[1..]) == b[1] + 256 * Seed(b[2..]);
    assert |b| > 2 ==> b[2..][0] == b[2] && b[2..][1..] == b[3..] && Seed(b[2..]) == b[2] + 256 * Seed(b[3..]);
    assert |b| > 3 ==> b[3..] == [b[3]] && Seed([b[3]]) == b[3] + 256 * Seed([]);
  }

  lemma RestDivides(x: nat, d: pos)
    ensures (x - x % d) % d == 0
  {
    Euclid(x, d);
    DivUnique(x - x % d, d, x / d, 0);
  }

  /** The block of the quote is the entropy of last block and currency bytes, counted around the blocks of the
      window that leave room for the attempt. */
  lemma TargetIsResidue(last: nat, bytes: seq<byte>, duration: nat)
    requires 2 <= duration
    ensures var seed := (if 0 < |bytes| then bytes[0] as int else 0)
                      + 0x100 * (if 1 < |bytes| then bytes[1] as int else 0)
                      + 0x1_0000 * (if 2 < |bytes| then bytes[2] as int else 0)
                      + 0x100_0000 * (if 3 < |bytes| then bytes[3] as int else 0);
      var entropy := if last + seed <= U32_MAX then last + seed else U32_MAX;
      var room := if duration - 1 <= U32_MAX then duration - 1 else U32_MAX;
      1 <= Target(last, bytes, duration) <= room && (entropy - (Target(last, bytes, duration) - 1)) % room == 0
  {
    SeedIsLittleEndian(bytes);
    RestDivides(Min(Min(last, U32_MAX) + Seed(FirstFour(bytes)), U32_MAX), Min(duration - 1, U32_MAX));
  }

  lemma SameRest(x: nat, y: nat, d: pos)
    ensures x % d == y % d <==> (x - y) % d == 0
  {
    Euclid(x, d);
    Euclid(y, d);
    if x % d == y % d {
      Distribute(d, x / d, -(y / d));
      DivUnique(x - y, d, x / d - y / d, 0);
    } else if (x - y) % d == 0 {
      Euclid(x - y, d);
      Distribute(d, (x - y) / d, y / d);
      DivUnique(x, d, (x - y) / d + y / d, y % d);
    }
  }

  /** Two quotes fall in the same block of the window exactly if their entropies agree modulo the room there is. */
  lemma SameTarget(last: nat, bytes: seq<byte>, last': nat, bytes': seq<byte>, duration: nat)
    requires 2 <= duration <= U32_MAX + 1
    requires last + Seed(FirstFour(bytes)) <= U32_MAX && last' + Seed(FirstFour(bytes')) <= U32_MAX
    ensures Target(last, bytes, duration) == Target(last', bytes', duration) <==>
      (last + Seed(FirstFour(bytes)) - (last' + Seed(FirstFour(bytes')))) % (duration - 1) == 0
  {
    SameRest(last + Seed(FirstFour(bytes)), last' + Seed(FirstFour(bytes')), duration - 1);
  }

  /** Four bytes for a number below 2^32. */
  function FourBytes(x: nat): seq<byte>
    requires x <= U32_MAX
  {
    [x % 256, x / 256 % 256, x / 256 / 256 % 256, x / 256 / 256 / 256]
  }

  lemma FourBytesSeed(x: nat)
    requires x <= U32_MAX
    ensures Seed(FirstFour(FourBytes(x))) == x
  {
    SeedIsLittleEndian(FourBytes(x));
  }

  lemma Remainder(x: nat, d: pos, r: nat)
    requires r < d
    ensures (x + (r - x) % d) % d == r
  {
    Euclid(r - x, d);
    DivUnique(x + (r - x) % d, d, -((r - x) / d), r);
  }

  /** Every block that leaves room for the attempt is the block of the quote for some currency. */
  lemma EveryBlockReached(last: nat, duration: nat, x: nat)
    requires 2 <= duration && last + duration <= U32_MAX && 1 <= x < duration
    ensures exists bytes: seq<byte> :: |bytes| == 4 && Target(last, bytes, duration) == x
  {
    var seed := (x - 1 - last) % (duration - 1);
    FourBytesSeed(seed);
    Remainder(last, duration - 1, x - 1);
    var bytes := FourBytes(seed);
    assert Target(last, bytes, duration) == (last + seed) % (duration - 1) + 1;
    assert |bytes| == 4 && Target(last, bytes, duration) == x;
  }

  function Pow256(n: nat): pos {
    if n == 0 then 1 else 256 * Pow256(n - 1)
  }

  lemma {:induction false} SeedAppend(bytes: seq<byte>, b: byte)
    ensures Seed(bytes + [b]) == Seed(bytes) + b * Pow256(|bytes|)
  {
    if bytes != [] {
      var rest := bytes[1..];
      SeedAppend(rest, b);
      assert (bytes + [b])[1..] == rest + [b];
      Distribute(256, Seed(rest), b * Pow256(|rest|));
      assert 256 * (b * Pow256(|rest|)) == b * (256 * Pow256(|rest|));
    } else {
      assert Seed([b]) == b + 256 * Seed([]);
    }
  }

  /** Each byte goes to bits of its own, so putting it in is adding it. */
  method GetTargetBlock(last: nat, bytes: seq<byte>, duration: nat) returns (target: nat)
    ensures target == Target(last, bytes, duration)
  {
    var blockSeed, currencySeed: nat, weight: nat := Min(last, U32_MAX), 0, 1;
    var four := FirstFour(bytes);
    for i := 0 to |four|
      invariant currencySeed == Seed(four[..i]) && weight == Pow256(i)
    {
      assert four[..i + 1] == four[..i] + [four[i]];
      SeedAppend(four[..i], four[i]);
      currencySeed := currencySeed + four[i] * weight;
      weight := 256 * weight;
    }
    assert four[..|four|] == four;
    var combined := Min(blockSeed + currencySeed, U32_MAX);
    var effective := Min(SatSub(duration, 1), U32_MAX);
    if effective == 0 {
      return 1;
    }
    target := combined % effective + 1;
  }

  // ---- One currency, one block ---------------------------------------------------------

  function TargetOf(s: Slot, bytes: seq<byte>): nat {
    Target(s.info.lastBuyback, bytes, s.info.buybackDuration)
  }

  /** The block of the quote, and with it of the attempt one later, in the present window. */
  function QuoteBlock(s: Slot, bytes: seq<byte>): nat {
    s.info.lastBuybackCycle + TargetOf(s, bytes)
  }

  function LiquidityBlock(s: Slot): nat {
    s.info.lastAddLiquidity + s.info.addLiquidityDuration
  }

  /** A buy-back is attempted at block n. */
  predicate Attempts(s: Slot, bytes: seq<byte>, n: nat) {
    s.info.ifAuto && n == QuoteBlock(s, bytes) + 1 && s.swapOutMin.Some?
  }

  predicate AddsLiquidity(s: Slot, n: nat) {
    s.info.ifAuto && n == LiquidityBlock(s) && s.liquidityMin.Some?
  }

  function AfterLiquidity(s: Slot, n: nat, quote: Option<nat>): Slot {
    if !s.info.ifAuto then s
    else if SatSub(LiquidityBlock(s), 1) == n then (if quote.Some? then s.(liquidityMin := quote) else s)
    else if AddsLiquidity(s, n) then
      s.(info := s.info.(lastAddLiquidity := LiquidityBlock(s)), liquidityMin := None)
    else s
  }

  function AfterBuyBack(s: Slot, bytes: seq<byte>, n: nat, quote: Option<nat>): Slot {
    if !s.info.ifAuto || n <= s.info.lastBuybackCycle then s
    else if n == QuoteBlock(s, bytes) then (if quote.Some? then s.(swapOutMin := quote) else s)
    else if Attempts(s, bytes, n) then
      s.(info := s.info.(lastBuybackCycle := s.info.lastBuybackCycle + s.info.buybackDuration, lastBuyback := n),
         swapOutMin := None)
    else s
  }

  /** What the hook of block n does for one currency. The outcome of the swap does not matter. */
  function NextSlot(s: Slot, bytes: seq<byte>, n: nat, quote: Option<nat>, liquidityQuote: Option<nat>): Slot {
    AfterBuyBack(AfterLiquidity(s, n, liquidityQuote), bytes, n, quote)
  }

  /** Of what adding liquidity depends on, the hook changes the minimum, which a quote one block before liquidity
      is due sets and adding it uses up, and the block from which the next duration counts. */
  lemma LiquidityFields(s: Slot, bytes: seq<byte>, n: nat, quote: Option<nat>, liquidityQuote: Option<nat>)
    ensures var t := NextSlot(s, bytes, n, quote, liquidityQuote);
      var due := s.info.lastAddLiquidity + s.info.addLiquidityDuration;
      var asks := s.info.ifAuto && (due == n + 1 || due == n == 0);
      var adds := s.info.ifAuto && due == n != 0 && s.liquidityMin.Some?;
      && (AddsLiquidity(s, n) && 0 < n <==> adds)
      && t.liquidityMin == (if asks && liquidityQuote.Some? then liquidityQuote
                            else if adds then None else s.liquidityMin)
      && t.info.lastAddLiquidity == (if adds then n else s.info.lastAddLiquidity)
      && t.info.addLiquidityDuration == s.info.addLiquidityDuration
  {
  }

  /** And of what buy-backs depend on, the minimum, which the quote sets and the attempt uses up, and the window. The
      settings stay, and without automatic buy-backs everything does. */
  lemma BuyBackFields(s: Slot, bytes: seq<byte>, n: nat, quote: Option<nat>, liquidityQuote: Option<nat>)
    ensures var t, at := NextSlot(s, bytes, n, quote, liquidityQuote), s.info.lastBuybackCycle + TargetOf(s, bytes);
      var tries := s.info.ifAuto && n == at + 1 && s.swapOutMin.Some?;
      && s.info.lastBuybackCycle < at && (Attempts(s, bytes, n) <==> tries)
      && t.swapOutMin == (if s.info.ifAuto && n == at && quote.Some? then quote
                          else if tries then None else s.swapOutMin)
      && t.info.lastBuyback == (if tries then n else s.info.lastBuyback)
      && t.info.lastBuybackCycle == s.info.lastBuybackCycle + (if tries then s.info.buybackDuration else 0)
    ensures var t := NextSlot(s, bytes, n, quote, liquidityQuote);
      && t.info.ifAuto == s.info.ifAuto && t.info.minSwapValue == s.info.minSwapValue
      && t.info.buybackDuration == s.info.buybackDuration && (!s.info.ifAuto ==> t == s)
  {
    TargetInWindow(s.info.lastBuyback, bytes, s.info.buybackDuration);
  }

  // ---- Runs ----------------------------------------------------------------------------

  /** The quotes of the exchange, block by block. */
  datatype Market = Market(quote: nat -> Option<nat>, liquidityQuote: nat -> Option<nat>)

  /** A run gives the slot after the hook of each block. */
  type History = nat -> Slot

  predicate StepAt(run: History, bytes: seq<byte>, m: Market, b: nat) {
    run(b + 1) == NextSlot(run(b), bytes, b + 1, m.quote(b + 1), m.liquidityQuote(b + 1))
  }

  /** From block n on, every block's hook is run. */
  ghost predicate IsRun(run: History, bytes: seq<byte>, m: Market, n: nat) {
    forall b: nat :: n <= b ==> StepAt(run, bytes, m, b)
  }

  /** A buy-back is attempted in the hook of block b. */
  predicate AttemptAt(run: History, bytes: seq<byte>, b: nat) {
    0 < b && Attempts(run(b - 1), bytes, b)
  }

  /** The part of a slot that buy-backs depend on. */
  predicate SameBuyBack(s: Slot, t: Slot) {
    && t.swapOutMin == s.swapOutMin && t.info.ifAuto == s.info.ifAuto
    && t.info.buybackDuration == s.info.buybackDuration && t.info.lastBuyback == s.info.lastBuyback
    && t.info.lastBuybackCycle == s.info.lastBuybackCycle
  }

  /** No quote and no attempt is due up to block upto. */
  predicate Quiet(s: Slot, bytes: seq<byte>, n: nat, upto: nat) {
    upto < QuoteBlock(s, bytes) || upto <= s.info.lastBuybackCycle || (QuoteBlock(s, bytes) < n && s.swapOutMin.None?)
  }

  lemma QuietStep(s: Slot, bytes: seq<byte>, n: nat, quote: Option<nat>, liquidityQuote: Option<nat>)
    requires Quiet(s, bytes, n, n)
    ensures SameBuyBack(s, NextSlot(s, bytes, n, quote, liquidityQuote)) && !Attempts(s, bytes, n)
  {
    TargetInWindow(s.info.lastBuyback, bytes, s.info.buybackDuration);
  }

  lemma {:induction false} QuietRun(run: History, bytes: seq<byte>, m: Market, n: nat, upto: nat)
    requires IsRun(run, bytes, m, n) && n <= upto && Quiet(run(n), bytes, n + 1, upto)
    ensures SameBuyBack(run(n), run(upto))
    ensures forall b: nat :: n < b <= upto ==> !AttemptAt(run, bytes, b)
    decreases upto
  {
    if n < upto {
      QuietRun(run, bytes, m, n, upto - 1);
      assert StepAt(run, bytes, m, upto - 1);
      QuietStep(run(upto - 1), bytes, upto, m.quote(upto), m.liquidityQuote(upto));
    }
  }

  /** A window begins: everything up to the end of the last one has been worked off. */
  predicate AtStart(s: Slot, n: nat) {
    s.info.ifAuto && n == s.info.lastBuybackCycle
  }

  /** The block of the quote. */
  lemma QuoteStep(s: Slot, bytes: seq<byte>, q: nat, quote: Option<nat>, liquidityQuote: Option<nat>)
    requires s.info.ifAuto && q == QuoteBlock(s, bytes)
    ensures var t := NextSlot(s, bytes, q, quote, liquidityQuote);
      && !Attempts(s, bytes, q) && SameBuyBack(s.(swapOutMin := t.swapOutMin), t)
      && t.swapOutMin == if quote.Some? then quote else s.swapOutMin
  {
    TargetInWindow(s.info.lastBuyback, bytes, s.info.buybackDuration);
  }

  /** The slot of a currency that has just been tried at block n. */
  predicate Tried(s: Slot, t: Slot, n: nat) {
    && t.swapOutMin.None? && t.info.ifAuto
    && t.info.buybackDuration == s.info.buybackDuration && t.info.lastBuyback == n
    && t.info.lastBuybackCycle == s.info.lastBuybackCycle + s.info.buybackDuration
  }

  /** The block of the attempt. */
  lemma AttemptStep(s: Slot, bytes: seq<byte>, n: nat, quote: Option<nat>, liquidityQuote: Option<nat>)
    requires s.info.ifAuto && n == QuoteBlock(s, bytes) + 1
    ensures var t := NextSlot(s, bytes, n, quote, liquidityQuote);
      && (Attempts(s, bytes, n) <==> s.swapOutMin.Some?)
      && if s.swapOutMin.Some? then Tried(s, t, n) else SameBuyBack(s, t)
  {
    TargetInWindow(s.info.lastBuyback, bytes, s.info.buybackDuration);
  }

  /** The quote has succeeded, or one is left from before. */
  predicate Quoted(s: Slot, bytes: seq<byte>, m: Market) {
    m.quote(QuoteBlock(s, bytes)).Some? || s.swapOutMin.Some?
  }

  /** Up to the quote there is no attempt, and afterwards it is there if it has succeeded. */
  lemma UntilQuote(run: History, bytes: seq<byte>, m: Market, n: nat, q: nat)
    requires IsRun(run, bytes, m, n) && AtStart(run(n), n) && q == QuoteBlock(run(n), bytes)
    ensures n < q && forall b: nat :: n < b <= q ==> !AttemptAt(run, bytes, b)
    ensures SameBuyBack(run(n).(swapOutMin := run(q).swapOutMin), run(q))
    ensures run(q).swapOutMin == if m.quote(q).Some? then m.quote(q) else run(n).swapOutMin
  {
    TargetInWindow(run(n).info.lastBuyback, bytes, run(n).info.buybackDuration);
    QuietRun(run, bytes, m, n, q - 1);
    assert StepAt(run, bytes, m, q - 1);
    QuoteStep(run(q - 1), bytes, q, m.quote(q), m.liquidityQuote(q));
  }

  /** Up to the attempt: it is made right after the quote if there is one, and nowhere before. */
  lemma UntilAttempt(run: History, bytes: seq<byte>, m: Market, n: nat, q: nat)
    requires IsRun(run, bytes, m, n) && AtStart(run(n), n) && q == QuoteBlock(run(n), bytes)
    ensures n < q
    ensures forall b: nat :: n < b <= q + 1 ==> (AttemptAt(run, bytes, b) <==> b == q + 1 && Quoted(run(n), bytes, m))
    ensures if Quoted(run(n), bytes, m) then Tried(run(n), run(q + 1), q + 1)
            else SameBuyBack(run(n), run(q + 1)) && run(n).swapOutMin.None?
  {
    UntilQuote(run, bytes, m, n, q);
    assert StepAt(run, bytes, m, q);
    AttemptStep(run(q), bytes, q + 1, m.quote(q + 1), m.liquidityQuote(q + 1));
  }

  /** In a window of two blocks or more there is exactly one attempt, right after the quote, if the
      quote succeeds or one is left from before; otherwise there is none. With an attempt the next
      window begins where this one ends. */
  lemma OneWindow(run: History, bytes: seq<byte>, m: Market, n: nat, d: nat)
    requires IsRun(run, bytes, m, n) && AtStart(run(n), n) && 2 <= run(n).info.buybackDuration == d
    ensures var q := QuoteBlock(run(n), bytes);
      && n < q < n + d
      && forall b: nat :: n < b <= n + d ==> (AttemptAt(run, bytes, b) <==> b == q + 1 && Quoted(run(n), bytes, m))
    ensures Quoted(run(n), bytes, m) ==> AtStart(run(n + d), n + d) && run(n + d).info.buybackDuration == d
  {
    var q := QuoteBlock(run(n), bytes);
    TargetInWindow(run(n).info.lastBuyback, bytes, d);
    UntilAttempt(run, bytes, m, n, q);
    QuietRun(run, bytes, m, q + 1, n + d);
  }

  /** A currency without a quote when its window's quote is past is never tried again. */
  lemma MissedForever(run: History, bytes: seq<byte>, m: Market, n: nat, b: nat)
    requires IsRun(run, bytes, m, n) && QuoteBlock(run(n), bytes) <= n && run(n).swapOutMin.None? && n < b
    ensures !AttemptAt(run, bytes, b)
  {
    QuietRun(run, bytes, m, n, b);
  }

  /** A window whose quote fails is the last: no attempt is ever made again. */
  lemma FailedQuote(run: History, bytes: seq<byte>, m: Market, n: nat, b: nat)
    requires IsRun(run, bytes, m, n) && AtStart(run(n), n) && !Quoted(run(n), bytes, m) && n < b
    ensures !AttemptAt(run, bytes, b)
  {
    var q := QuoteBlock(run(n), bytes);
    UntilAttempt(run, bytes, m, n, q);
    if q + 1 < b {
      RunLater(run, bytes, m, n, q + 1);
      MissedForever(run, bytes, m, q + 1, b);
    }
  }

  // ---- Counting ------------------------------------------------------------------------

  /** How many attempts there are after block n up to and including block upto. */
  function Count(run: History, bytes: seq<byte>, n: nat, upto: nat): nat
    decreases upto
  {
    if upto <= n then 0 else Count(run, bytes, n, upto - 1) + (if AttemptAt(run, bytes, upto) then 1 else 0)
  }

  lemma {:induction false} CountSplit(run: History, bytes: seq<byte>, n: nat, mid: nat, upto: nat)
    requires n <= mid <= upto
    ensures Count(run, bytes, n, upto) == Count(run, bytes, n, mid) + Count(run, bytes, mid, upto)
    decreases upto
  {
    if mid < upto {
      CountSplit(run, bytes, n, mid, upto - 1);
    }
  }

  lemma {:induction false} CountNone(run: History, bytes: seq<byte>, n: nat, upto: nat)
    requires forall b: nat :: n < b <= upto ==> !AttemptAt(run, bytes, b)
    ensures Count(run, bytes, n, upto) == 0
    decreases upto
  {
    if n < upto {
      CountNone(run, bytes, n, upto - 1);
    }
  }

  lemma CountOne(run: History, bytes: seq<byte>, n: nat, upto: nat, q: nat)
    requires n < q <= upto && forall b: nat :: n < b <= upto ==> (AttemptAt(run, bytes, b) <==> b == q)
    ensures Count(run, bytes, n, upto) == 1
  {
    CountSplit(run, bytes, n, q, upto);
    CountNone(run, bytes, n, q - 1);
    CountNone(run, bytes, q, upto);
  }

  ghost predicate AllQuoted(m: Market) {
    forall n: nat :: m.quote(n).Some?
  }

  lemma RunLater(run: History, bytes: seq<byte>, m: Market, n: nat, later: nat)
    requires IsRun(run, bytes, m, n) && n <= later
    ensures IsRun(run, bytes, m, later)
  {
  }

  lemma NextWindow(n: nat, k: nat, d: nat)
    requires 0 < k
    ensures n + d + (k - 1) * d == n + k * d && n + d <= n + k * d
  {
    Distribute(d, k - 1, 1);
    MulMono(0, k - 1, d);
  }

  /** With working quotes, k windows of two blocks or more hold exactly k attempts. */
  lemma {:induction false} ManyWindows(run: History, bytes: seq<byte>, m: Market, n: nat, k: nat, d: nat)
    requires IsRun(run, bytes, m, n) && AtStart(run(n), n) && 2 <= run(n).info.buybackDuration == d && AllQuoted(m)
    ensures Count(run, bytes, n, n + k * d) == k
    decreases k
  {
    if k == 0 {
      assert 0 * d == 0;
    } else {
      OneWindow(run, bytes, m, n, d);
      CountOne(run, bytes, n, n + d, QuoteBlock(run(n), bytes) + 1);
      RunLater(run, bytes, m, n, n + d);
      ManyWindows(run, bytes, m, n + d, k - 1, d);
      NextWindow(n, k, d);
      CountSplit(run, bytes, n, n + d, n + k * d);
    }
  }

  /** A window of one block is over before its attempt: it is made once, a block late, and the window
      after that has then been missed for good. */
  lemma OneBlockWindow(run: History, bytes: seq<byte>, m: Market, n: nat, b: nat)
    requires IsRun(run, bytes, m, n) && AtStart(run(n), n) && run(n).info.buybackDuration == 1 && AllQuoted(m) && n < b
    ensures AttemptAt(run, bytes, b) <==> b == n + 2
  {
    TargetInWindow(run(n).info.lastBuyback, bytes, 1);
    UntilAttempt(run, bytes, m, n, n + 1);
    TargetInWindow(run(n + 2).info.lastBuyback, bytes, 1);
    if n + 2 < b {
      MissedForever(run, bytes, m, n + 2, b);
    }
  }

  lemma OneBlockCount(run: History, bytes: seq<byte>, m: Market, n: nat, upto: nat)
    requires IsRun(run, bytes, m, n) && AtStart(run(n), n)
    requires run(n).info.buybackDuration == 1 && AllQuoted(m) && n + 2 <= upto
    ensures Count(run, bytes, n, upto) == 1
  {
    forall b: nat | n < b <= upto
      ensures AttemptAt(run, bytes, b) <==> b == n + 2
    {
      OneBlockWindow(run, bytes, m, n, b);
    }
    CountOne(run, bytes, n, upto, n + 2);
  }

  /** Buy-backs recur, one to a window, exactly if the window is two blocks or more. */
  lemma Recurs(run: History, bytes: seq<byte>, m: Market, n: nat, k: nat, d: pos)
    requires IsRun(run, bytes, m, n) && AtStart(run(n), n) && run(n).info.buybackDuration == d && AllQuoted(m) && 2 <= k
    ensures Count(run, bytes, n, n + k * d) == k <==> 2 <= d
  {
    if 2 <= d {
      ManyWindows(run, bytes, m, n, k, d);
    } else {
      OneBlockCount(run, bytes, m, n, n + k);
    }
  }

  // ---- Liquidity -----------------------------------------------------------------------

  /** The slot waits for its next quote, or has it and waits for the block after. */
  predicate LiquidityReady(s: Slot, n: nat) {
    && s.info.ifAuto && 2 <= s.info.addLiquidityDuration && s.info.lastAddLiquidity <= n
    && var due := s.info.lastAddLiquidity + s.info.addLiquidityDuration;
       n + 1 < due || (n + 1 == due && s.liquidityMin.Some?)
  }

  /** With working quotes, liquidity is added exactly when its duration is up, every time. */
  lemma LiquidityOnTime(s: Slot, bytes: seq<byte>, n: nat, quote: Option<nat>, liquidityQuote: Option<nat>)
    requires LiquidityReady(s, n) && liquidityQuote.Some?
    ensures LiquidityReady(NextSlot(s, bytes, n + 1, quote, liquidityQuote), n + 1)
    ensures AddsLiquidity(s, n + 1) <==> n + 1 == LiquidityBlock(s)
    ensures AddsLiquidity(s, n + 1) ==> NextSlot(s, bytes, n + 1, quote, liquidityQuote).info.lastAddLiquidity == n + 1
  {
  }

  predicate AddedAt(run: History, b: nat) {
    0 < b && AddsLiquidity(run(b - 1), b)
  }

  /** Where the liquidity schedule stands at block n, k rounds after block start. */
  predicate OnSchedule(s: Slot, n: nat, start: nat, d: pos, k: nat) {
    LiquidityReady(s, n) && s.info.addLiquidityDuration == d && s.info.lastAddLiquidity == start + k * d
  }

  lemma {:induction false} ScheduleKept(run: History, bytes: seq<byte>, m: Market, n: nat,
                                        upto: nat, start: nat, d: pos)
    returns (k: nat)
    requires IsRun(run, bytes, m, n) && n <= upto && forall b: nat :: m.liquidityQuote(b).Some?
    requires OnSchedule(run(n), n, start, d, 0)
    ensures OnSchedule(run(upto), upto, start, d, k)
    decreases upto
  {
    k := 0;
    if n < upto {
      k := ScheduleKept(run, bytes, m, n, upto - 1, start, d);
      var s := run(upto - 1);
      assert StepAt(run, bytes, m, upto - 1);
      LiquidityOnTime(s, bytes, upto - 1, m.quote(upto), m.liquidityQuote(upto));
      if AddsLiquidity(s, upto) {
        Distribute(d, k, 1);
        k := k + 1;
      }
    }
  }

  /** With working quotes liquidity is added in every block that is a multiple of the duration after the
      start, and in no other. */
  lemma LiquidityEvery(run: History, bytes: seq<byte>, m: Market, n: nat, b: nat, start: nat, d: pos)
    requires IsRun(run, bytes, m, n) && n < b && forall t: nat :: m.liquidityQuote(t).Some?
    requires OnSchedule(run(n), n, start, d, 0)
    ensures start < b && (AddedAt(run, b) <==> (b - start) % d == 0)
  {
    var k := ScheduleKept(run, bytes, m, n, b - 1, start, d);
    var s := run(b - 1);
    LiquidityOnTime(s, bytes, b - 1, m.quote(b), m.liquidityQuote(b));
    Distribute(d, k, 1);
    var into := b - s.info.lastAddLiquidity;
    if into == d {
      DivUnique(b - start, d, k + 1, 0);
    } else {
      DivUnique(b - start, d, k, into);
    }
  }

  /** With a duration of one block the quote would be due in the block that has just gone by: liquidity
      is never added. */
  lemma {:induction false} LiquidityNever(run: History, bytes: seq<byte>, m: Market, n: nat, upto: nat)
    requires IsRun(run, bytes, m, n) && run(n).info.addLiquidityDuration == 1 && run(n).liquidityMin.None?
    requires run(n).info.lastAddLiquidity <= n <= upto
    ensures var t := run(upto);
      t.liquidityMin.None? && t.info.lastAddLiquidity == run(n).info.lastAddLiquidity
      && t.info.addLiquidityDuration == 1
    ensures !AddsLiquidity(run(upto), upto + 1)
    decreases upto
  {
    if n < upto {
      LiquidityNever(run, bytes, m, n, upto - 1);
      assert StepAt(run, bytes, m, upto - 1);
    }
  }

  /** The part of a slot that adding liquidity depends on, without a minimum. */
  predicate SameLiquidity(s: Slot, t: Slot) {
    && s.liquidityMin.None? && t.liquidityMin.None? && t.info.ifAuto == s.info.ifAuto
    && t.info.lastAddLiquidity == s.info.lastAddLiquidity && t.info.addLiquidityDuration == s.info.addLiquidityDuration
  }

  /** The block in which liquidity asks for its quote. */
  function LiquidityQuoteBlock(s: Slot): nat {
    SatSub(LiquidityBlock(s), 1)
  }

  /** The quote is still to come, and there will be one. */
  predicate LiquidityQuoted(s: Slot, m: Market, n: nat) {
    s.info.ifAuto && n < LiquidityQuoteBlock(s) && m.liquidityQuote(LiquidityQuoteBlock(s)).Some?
  }

  lemma {:induction false} NoLiquidity(run: History, bytes: seq<byte>, m: Market, n: nat, upto: nat)
    requires IsRun(run, bytes, m, n) && n <= upto && run(n).liquidityMin.None?
    requires LiquidityQuoted(run(n), m, n) ==> upto < LiquidityQuoteBlock(run(n))
    ensures SameLiquidity(run(n), run(upto))
    decreases upto
  {
    if n < upto {
      NoLiquidity(run, bytes, m, n, upto - 1);
      assert StepAt(run, bytes, m, upto - 1);
    }
  }

  /** Without a minimum from an earlier quote, liquidity is ever added exactly if its next quote comes and succeeds.
      One failed quote ends it for good: the block of the quote and the missing minimum never change. */
  lemma FailedLiquidityQuote(run: History, bytes: seq<byte>, m: Market, n: nat)
    requires IsRun(run, bytes, m, n) && run(n).liquidityMin.None?
    ensures (exists b: nat :: n < b && AddedAt(run, b)) <==> LiquidityQuoted(run(n), m, n)
  {
    if LiquidityQuoted(run(n), m, n) {
      var q := LiquidityQuoteBlock(run(n));
      NoLiquidity(run, bytes, m, n, q - 1);
      assert StepAt(run, bytes, m, q - 1);
      assert AddedAt(run, q + 1);
    } else {
      forall b: nat | n < b
        ensures !AddedAt(run, b)
      {
        NoLiquidity(run, bytes, m, n, b - 1);
      }
    }
  }

  // ---- The pallet ----------------------------------------------------------------------

  datatype ConfigError = ZeroMinSwapValue | ZeroDuration | CurrencyIdError | CurrencyIdNotExists

  class BuyBack {
    /** How a currency is encoded. */
    const encode: Currency -> seq<byte>

    var infos: map<Currency, Info>
    var swapOutMin: map<Currency, nat>
    var addLiquiditySwapOutMin: map<Currency, nat>
    /** The blocks in which a buy-back has been attempted, by currency. */
    ghost var attempts: map<Currency, seq<nat>>

    constructor (encoding: Currency -> seq<byte>)
      ensures encode == encoding && infos == map[] && swapOutMin == map[]
      ensures addLiquiditySwapOutMin == map[] && attempts == map[]
    {
      encode := encoding;
      infos, swapOutMin, addLiquiditySwapOutMin, attempts := map[], map[], map[], map[];
    }

    function MinOf(m: map<Currency, nat>, c: Currency): Option<nat> {
      if c in m then Some(m[c]) else None
    }

    function SlotOf(c: Currency): Slot
      requires c in infos
      reads this
    {
      Slot(infos[c], MinOf(swapOutMin, c), MinOf(addLiquiditySwapOutMin, c))
    }

    /** The schedule of a currency starts with the block of the call. `known` says whether the currency
        is a registered vtoken. */
    method SetVtoken(c: Currency, minSwapValue: nat, buybackDuration: nat, addLiquidityDuration: nat, ifAuto: bool,
                     isVtoken: bool, registered: bool, now: nat)
      returns (error: Option<ConfigError>)
      modifies `infos
      ensures error == if !isVtoken then Some(CurrencyIdError)
                       else if !registered then Some(CurrencyIdNotExists)
                       else if minSwapValue == 0 then Some(ZeroMinSwapValue)
                       else if buybackDuration == 0 || addLiquidityDuration == 0 then Some(ZeroDuration)
                       else None
      ensures error.Some? ==> infos == old(infos)
      ensures error.None? ==> c in infos && infos.Keys == old(infos).Keys + {c}
      ensures error.None? ==>
        infos[c] == Info(minSwapValue, ifAuto, buybackDuration, now, now, addLiquidityDuration, now)
      ensures error.None? && ifAuto ==> AtStart(SlotOf(c), now)
      ensures error.None? && ifAuto && 2 <= addLiquidityDuration ==> LiquidityReady(SlotOf(c), now)
      ensures forall d :: d != c && d in old(infos) ==> infos[d] == old(infos)[d]
    {
      if !isVtoken {
        return Some(CurrencyIdError);
      }
      if !registered {
        return Some(CurrencyIdNotExists);
      }
      if minSwapValue == 0 {
        return Some(ZeroMinSwapValue);
      }
      if buybackDuration == 0 || addLiquidityDuration == 0 {
        return Some(ZeroDuration);
      }
      infos := infos[c := Info(minSwapValue, ifAuto, buybackDuration, now, now, addLiquidityDuration, now)];
      error := None;
    }

    method RemoveVtoken(c: Currency) returns (ok: bool)
      modifies `infos
      ensures ok <==> c in old(infos)
      ensures infos == old(infos) - {c}
    {
      ok := c in infos;
      infos := infos - {c};
    }

    /** The arm that adds liquidity. */
    method RunLiquidity(c: Currency, n: nat, quote: Option<nat>)
      requires c in infos
      modifies `infos, `addLiquiditySwapOutMin
      ensures infos.Keys == old(infos).Keys && SlotOf(c) == AfterLiquidity(old(SlotOf(c)), n, quote)
      ensures forall d :: d != c && d in infos ==> SlotOf(d) == old(SlotOf(d))
    {
      var info := infos[c];
      var target := info.lastAddLiquidity + info.addLiquidityDuration;
      if !info.ifAuto {
        return;
      }
      if SatSub(target, 1) == n {
        if quote.Some? {
          addLiquiditySwapOutMin := addLiquiditySwapOutMin[c := quote.value];
        }
      } else if target == n {
        if c in addLiquiditySwapOutMin {
          infos := infos[c := info.(lastAddLiquidity := target)];
          addLiquiditySwapOutMin := addLiquiditySwapOutMin - {c};
        }
      }
    }

    /** The arm that buys back. */
    method RunBuyBack(c: Currency, n: nat, quote: Option<nat>)
      requires c in infos
      modifies `infos, `swapOutMin, `attempts
      ensures infos.Keys == old(infos).Keys && SlotOf(c) == AfterBuyBack(old(SlotOf(c)), encode(c), n, quote)
      ensures forall d :: d != c && d in infos ==> SlotOf(d) == old(SlotOf(d))
      ensures attempts == if old(Attempts(SlotOf(c), encode(c), n)) && old(infos)[c].lastBuybackCycle < n
                          then old(attempts)[c := Get(old(attempts), c, []) + [n]] else old(attempts)
    {
      var info := infos[c];
      if !info.ifAuto || info.lastBuybackCycle >= n {
        return;
      }
      var target := GetTargetBlock(info.lastBuyback, encode(c), info.buybackDuration);
      if target == n - info.lastBuybackCycle {
        if quote.Some? {
          swapOutMin := swapOutMin[c := quote.value];
        }
      } else if target == SatSub(n - info.lastBuybackCycle, 1) {
        if c in swapOutMin {
          attempts := attempts[c := Get(attempts, c, []) + [n]];
          infos :=
            infos[c := info.(lastBuybackCycle := info.lastBuybackCycle + info.buybackDuration, lastBuyback := n)];
          swapOutMin := swapOutMin - {c};
        }
      }
    }

    /** What the hook of block n does for one currency. */
    method RunCurrency(c: Currency, n: nat, quote: Option<nat>, liquidityQuote: Option<nat>)
      requires c in infos
      modifies `infos, `swapOutMin, `addLiquiditySwapOutMin, `attempts
      ensures infos.Keys == old(infos).Keys
      ensures SlotOf(c) == NextSlot(old(SlotOf(c)), encode(c), n, quote, liquidityQuote)
      ensures forall d :: d != c && d in infos ==> SlotOf(d) == old(SlotOf(d))
      ensures Logged(old(attempts), attempts, c, old(Attempts(SlotOf(c), encode(c), n)), n)
      ensures forall d :: d != c ==> Get(attempts, d, []) == Get(old(attempts), d, [])
    {
      ghost var s := SlotOf(c);
      RunLiquidity(c, n, liquidityQuote);
      TargetInWindow(s.info.lastBuyback, encode(c), s.info.buybackDuration);
      RunBuyBack(c, n, quote);
    }

    /** The hook of block n: every currency takes one step, whatever the order. */
    method OnInitialize(n: nat, quote: Currency -> Option<nat>, liquidityQuote: Currency -> Option<nat>)
      modifies `infos, `swapOutMin, `addLiquiditySwapOutMin, `attempts
      ensures infos.Keys == old(infos).Keys
      ensures forall c :: c in infos ==>
        SlotOf(c) == NextSlot(old(SlotOf(c)), encode(c), n, quote(c), liquidityQuote(c))
      ensures forall c :: c in infos ==> Logged(old(attempts), attempts, c, old(Attempts(SlotOf(c), encode(c), n)), n)
    {
      var todo := infos.Keys;
      while todo != {}
        invariant infos.Keys == old(infos).Keys && todo <= infos.Keys
        invariant forall c :: c in todo ==> SlotOf(c) == old(SlotOf(c))
        invariant forall c :: c in infos && c !in todo ==>
          SlotOf(c) == NextSlot(old(SlotOf(c)), encode(c), n, quote(c), liquidityQuote(c))
        invariant forall c :: c in infos ==>
          Logged(old(attempts), attempts, c, c !in todo && old(Attempts(SlotOf(c), encode(c), n)), n)
        decreases todo
      {
        var c :| c in todo;
        RunCurrency(c, n, quote(c), liquidityQuote(c));
        todo := todo - {c};
      }
    }
  }

  /** Block n is on currency c's log of attempts just if there was one. */
  predicate Logged(log: map<Currency, seq<nat>>, log': map<Currency, seq<nat>>, c: Currency, attempted: bool, n: nat) {
    Get(log', c, []) == Get(log, c, []) + if attempted then [n] else []
  }
}
