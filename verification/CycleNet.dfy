// What contracts/GenericAtomicArb.sol and contracts/WethAtomicArb.sol compute: one cycle
// base -(v3)-> entry quote -(v4)-> target -(v4)-> exit quote -(v3)-> base.
module CycleNet {
  import opened Evm
  import opened Market
  import opened DeltaPacking
  import opened PathCodec

  const USDG: Address := 0x5fc5360D0400a0Fd4f2af552ADD042D716F1d168
  const WETH: Address := 0x0Bd7D308f8E1639FAb988df18A8011f41EAcAD73
  const PAIR_HOOK: Address := 0x16D1560630Ce74af4478d9b8AD46548A092A2000
  const PAIR_FEE: nat := 10_000
  const PAIR_TICK_SPACING: int := 200

  /** The two executors are the same machine with these settings. */
  datatype Config = Config(
    base: Address,
    bridge: Address,
    bridgeMayBeTarget: bool,
    maxAmountIn: nat,
    minGrossProfit: nat)

  const GENERIC := Config(USDG, WETH, true, 100_000_000, 50_000)

  const HARD_MAX_AMOUNT_IN: nat := 1_000_000_000_000_000_000

  /** The WETH executor's constructor: its bounds are arguments. */
  function WethConfig(maxAmountIn: nat, minGrossProfit: nat): Option<Config> {
    if maxAmountIn == 0 || maxAmountIn > HARD_MAX_AMOUNT_IN || minGrossProfit == 0 || minGrossProfit > maxAmountIn
    then None
    else Some(Config(WETH, USDG, false, maxAmountIn, minGrossProfit))
  }

  /** Every configuration either contract can be deployed with. */
  ghost predicate Deployable(cfg: Config) {
    cfg == GENERIC || exists max: nat, min: nat :: WethConfig(max, min) == Some(cfg)
  }

  lemma DeployableBounds(cfg: Config)
    requires Deployable(cfg)
    ensures 0 < cfg.maxAmountIn <= HARD_MAX_AMOUNT_IN && 0 < cfg.minGrossProfit <= cfg.maxAmountIn
    ensures cfg.base != cfg.bridge && cfg.base != ZERO && cfg.bridge != ZERO
  {
  }

  datatype Route = Route(
    targetToken: Address,
    entryToken: Address,
    exitToken: Address,
    entryV3Path: seq<Byte>,
    exitV3Path: seq<Byte>,
    entryV4Pool: PoolKey,
    exitV4Pool: PoolKey)

  predicate V4PoolOk(key: PoolKey, target: Address, quote: Address) {
    && key.currency0 != ZERO && key.currency0 < key.currency1
    && key.fee == PAIR_FEE && key.tickSpacing == PAIR_TICK_SPACING && key.hooks == PAIR_HOOK
    && ((key.currency0 == target && key.currency1 == quote) || (key.currency0 == quote && key.currency1 == target))
  }

  predicate TokensOk(cfg: Config, route: Route) {
    && route.targetToken != ZERO && route.entryToken != ZERO && route.exitToken != ZERO
    && route.targetToken != cfg.base && (cfg.bridgeMayBeTarget || route.targetToken != cfg.bridge)
    && route.targetToken != route.entryToken && route.targetToken != route.exitToken
  }

  predicate RouteOk(m: Market, cfg: Config, route: Route) {
    && TokensOk(cfg, route)
    && V4PoolOk(route.entryV4Pool, route.targetToken, route.entryToken)
    && V4PoolOk(route.exitV4Pool, route.targetToken, route.exitToken)
    && route.entryV4Pool != route.exitV4Pool
    && CheckPath(m.v3Pool, cfg.bridge, route.entryV3Path, cfg.base, route.entryToken)
    && CheckPath(m.v3Pool, cfg.bridge, route.exitV3Path, route.exitToken, cfg.base)
  }

  /** The checks in order: the first that fails decides the error. */
  function RouteVerdict(m: Market, cfg: Config, route: Route): (r: Outcome<()>)
    ensures r.Ok? <==> RouteOk(m, cfg, route)
  {
    var _ :- Need(TokensOk(cfg, route), InvalidRoute);
    var _ :- Need(V4PoolOk(route.entryV4Pool, route.targetToken, route.entryToken), InvalidV4Pool);
    var _ :- Need(V4PoolOk(route.exitV4Pool, route.targetToken, route.exitToken), InvalidV4Pool);
    var _ :- Need(route.entryV4Pool != route.exitV4Pool, DuplicateV4Pool);
    var _ :- PathVerdict(m.v3Pool, cfg.bridge, route.entryV3Path, cfg.base, route.entryToken);
    PathVerdict(m.v3Pool, cfg.bridge, route.exitV3Path, route.exitToken, cfg.base)
  }

  /** Distinct v4 pools force distinct quotes, so at most one end of a cycle can be the base itself. */
  lemma QuotesDiffer(m: Market, cfg: Config, route: Route)
    requires RouteOk(m, cfg, route)
    ensures route.entryToken != route.exitToken
  {
  }

  // ---- one leg ----

  /** What a leg took, what it gave and the calls that are behind it. */
  datatype Leg = Leg(spent: nat, received: nat, history: History)

  function V3Leg(m: Market, pool: Address, zeroForOne: bool, x: nat, h: History): Outcome<Leg> {
    var call := V3Call(pool, zeroForOne, x);
    match m.v3Swap(h, call)
    case None => Err(ExternalRevert)
    case Some((amount0, amount1)) =>
      var out :- ValidateV3Delta(amount0, amount1, zeroForOne, x);
      Ok(Leg(x, out, h + [call]))
  }

  /** The router may pull less than it was offered, and pays at least the minimum of one unit. */
  function RouterLeg(m: Market, path: seq<Byte>, x: nat, h: History): Outcome<Leg> {
    var call := RouterCall(path, x);
    match m.routerExactInput(h, call)
    case None => Err(ExternalRevert)
    case Some((pulled, paid)) =>
      if pulled > x || paid == 0 then Err(ExternalRevert) else Ok(Leg(pulled, paid, h + [call]))
  }

  function V4Leg(m: Market, key: PoolKey, tokenIn: Address, x: nat, h: History): Outcome<Leg> {
    var zeroForOne := key.currency0 == tokenIn;
    var call := V4Call(key, zeroForOne, x);
    match m.v4Swap(h, call)
    case None => Err(ExternalRevert)
    case Some((amount0, amount1)) =>
      if !IsInt128(amount0) || !IsInt128(amount1) then Err(ExternalRevert)
      else
        var out :- ValidateV4Delta(Pack(amount0, amount1), zeroForOne, x);
        Ok(Leg(x, out, h + [call]))
  }

  predicate IsDirectLength(path: seq<Byte>) { |path| == TOKEN_BYTES + HOP_BYTES }

  predicate UsesRouter(path: seq<Byte>, start: Address, end: Address) {
    start != end && !IsDirectLength(path)
  }

  function DirectLeg(m: Market, path: seq<Byte>, x: nat, h: History): Outcome<Leg> {
    var (pool, zeroForOne) :- DirectPool(m.v3Pool, path);
    V3Leg(m, pool, zeroForOne, x, h)
  }

  /** From one token to another along a validated path: nothing to do, one pool, or the router. */
  function PathLeg(m: Market, path: seq<Byte>, start: Address, end: Address, x: nat, h: History): Outcome<Leg> {
    if start == end then Ok(Leg(x, x, h))
    else if IsDirectLength(path) then DirectLeg(m, path, x, h)
    else RouterLeg(m, path, x, h)
  }

  // ---- the cycle ----

  /** The three stages of a cycle: base to entry quote, entry quote to exit quote, exit quote to base. */
  datatype Cycle = Cycle(entry: Leg, quote: Leg, exit: Leg) {
    function Spent(): nat { entry.spent }

    function Output(): nat { exit.received }

    /** Exit quote the router left behind. */
    function Dust(): int { quote.received - exit.spent }
  }

  function RunCycle(m: Market, cfg: Config, route: Route, x: nat, h: History): Outcome<Cycle> {
    var entry :- PathLeg(m, route.entryV3Path, cfg.base, route.entryToken, x, h);
    FromEntry(m, cfg, route, entry)
  }

  /** The rest of the cycle once the entry quote is in the manager. */
  function FromEntry(m: Market, cfg: Config, route: Route, entry: Leg): Outcome<Cycle> {
    var quote :- BothV4(m, route, entry.received, entry.history);
    var exit :- PathLeg(m, route.exitV3Path, route.exitToken, cfg.base, quote.received, quote.history);
    Ok(Cycle(entry, quote, exit))
  }

  /** Entry quote to exit quote through the two v4 pools. */
  function BothV4(m: Market, route: Route, x: nat, h: History): Outcome<Leg> {
    var _ :- Need(0 < x <= MAX_INT128, InvalidSwapDelta);
    var first :- V4Leg(m, route.entryV4Pool, route.entryToken, x, h);
    var second :- V4Leg(m, route.exitV4Pool, route.targetToken, first.received, first.history);
    Ok(Leg(x, second.received, second.history))
  }

  lemma NoDustInBase(m: Market, cfg: Config, route: Route, entry: Leg)
    requires FromEntry(m, cfg, route, entry).Ok? && route.exitToken == cfg.base
    ensures FromEntry(m, cfg, route, entry).value.Dust() == 0
  {
  }

  lemma PathLegSpends(m: Market, path: seq<Byte>, start: Address, end: Address, x: nat, h: History)
    requires PathLeg(m, path, start, end, x, h).Ok?
    ensures PathLeg(m, path, start, end, x, h).value.spent <= x
    ensures RouterPullsAll(m) ==> PathLeg(m, path, start, end, x, h).value.spent == x
  {
  }

  datatype Order = Order(route: Route, amountIn: nat, minProfit: nat, deadline: nat)

  datatype Receipt = Receipt(amountOut: nat, grossProfit: nat, cycle: Cycle)

  function Precheck(m: Market, cfg: Config, order: Order, now: nat, balanceBefore: nat): Outcome<()> {
    var _ :- Need(now <= order.deadline, Expired);
    var _ :- Need(0 < order.amountIn <= cfg.maxAmountIn, InvalidAmount);
    var _ :- Need(cfg.minGrossProfit <= order.minProfit, ProfitFloorTooLow);
    var _ :- RouteVerdict(m, cfg, order.route);
    Need(order.amountIn <= balanceBefore, InsufficientPrincipal)
  }

  /** The base balance is measured before and after; the reported output must match it. */
  function Settle(order: Order, cycle: Cycle): Outcome<Receipt> {
    if cycle.Output() < cycle.Spent() then Err(ProfitTooLow(0, order.minProfit))
    else
      var profit := cycle.Output() - cycle.Spent();
      var _ :- Need(cycle.Output() == order.amountIn + profit, SettlementMismatch);
      var _ :- Need(order.minProfit <= profit, ProfitTooLow(profit, order.minProfit));
      Ok(Receipt(order.amountIn + profit, profit, cycle))
  }

  function Execute(m: Market, cfg: Config, order: Order, now: nat, balanceBefore: nat, h: History): Outcome<Receipt> {
    var _ :- Precheck(m, cfg, order, now, balanceBefore);
    var cycle :- RunCycle(m, cfg, order.route, order.amountIn, h);
    Settle(order, cycle)
  }

  // ---- the composed function ----

  /** A trade as a function of the calls served so far and the input. */
  type Trade = (History, nat) -> Outcome<(nat, History)>

  function Then(f: Trade, g: Trade): Trade {
    (h: History, x: nat) =>
      match f(h, x)
      case Err(e) => Err(e)
      case Ok((y, h')) => g(h', y)
  }

  function ViaPath(m: Market, path: seq<Byte>, start: Address, end: Address): Trade {
    (h: History, x: nat) =>
      match PathLeg(m, path, start, end, x, h)
      case Err(e) => Err(e)
      case Ok(leg) => Ok((leg.received, leg.history))
  }

  function ViaV4(m: Market, key: PoolKey, tokenIn: Address): Trade {
    (h: History, x: nat) =>
      if !(0 < x <= MAX_INT128) then Err(InvalidSwapDelta)
      else
        match V4Leg(m, key, tokenIn, x, h)
        case Err(e) => Err(e)
        case Ok(leg) => Ok((leg.received, leg.history))
  }

  /** The four legs in order. */
  function Composed(m: Market, cfg: Config, route: Route): Trade {
    Then(Then(Then(ViaPath(m, route.entryV3Path, cfg.base, route.entryToken),
                   ViaV4(m, route.entryV4Pool, route.entryToken)),
              ViaV4(m, route.exitV4Pool, route.targetToken)),
         ViaPath(m, route.exitV3Path, route.exitToken, cfg.base))
  }

  lemma V4LegPays(m: Market, key: PoolKey, tokenIn: Address, x: nat, h: History)
    requires V4Leg(m, key, tokenIn, x, h).Ok?
    ensures 0 < V4Leg(m, key, tokenIn, x, h).value.received <= MAX_INT128
  {
    var zeroForOne := key.currency0 == tokenIn;
    var (amount0, amount1) := m.v4Swap(h, V4Call(key, zeroForOne, x)).value;
    UnpackPack(amount0, amount1);
  }

  lemma CycleIsComposition(m: Market, cfg: Config, route: Route, x: nat, h: History)
    ensures match RunCycle(m, cfg, route, x, h)
            case Err(e) => Composed(m, cfg, route)(h, x) == Err(e)
            case Ok(cycle) => Composed(m, cfg, route)(h, x) == Ok((cycle.Output(), cycle.exit.history))
  {
    var entry := PathLeg(m, route.entryV3Path, cfg.base, route.entryToken, x, h);
    if entry.Ok? && 0 < entry.value.received <= MAX_INT128 {
      var first := V4Leg(m, route.entryV4Pool, route.entryToken, entry.value.received, entry.value.history);
      if first.Ok? {
        V4LegPays(m, route.entryV4Pool, route.entryToken, entry.value.received, entry.value.history);
      }
    }
  }

  /** An order within its bounds succeeds exactly when the entry leg spent all of the input and the composed
      function returns the input plus the floor or more; the profit is then what the function adds. */
  lemma ExecuteIsComposition(m: Market, cfg: Config, order: Order, now: nat, before: nat, h: History)
    requires Precheck(m, cfg, order, now, before).Ok?
    ensures var f := Composed(m, cfg, order.route)(h, order.amountIn);
            var r := Execute(m, cfg, order, now, before, h);
            && (r.Ok? <==> f.Ok? && order.amountIn + order.minProfit <= f.value.0
                           && PathLeg(m, order.route.entryV3Path, cfg.base, order.route.entryToken,
                                      order.amountIn, h).value.spent == order.amountIn)
            && (r.Ok? ==> r.value.grossProfit == f.value.0 - order.amountIn
                          && r.value.amountOut == f.value.0 && r.value.cycle.exit.history == f.value.1)
  {
    CycleIsComposition(m, cfg, order.route, order.amountIn, h);
    var entry := PathLeg(m, order.route.entryV3Path, cfg.base, order.route.entryToken, order.amountIn, h);
    if entry.Ok? {
      PathLegSpends(m, order.route.entryV3Path, cfg.base, order.route.entryToken, order.amountIn, h);
    }
  }

  // ---- exactly which orders succeed ----

  /** A pool of the one admitted shape, between these two tokens in either order. */
  predicate PairPool(key: PoolKey, a: Address, b: Address) {
    && key.fee == 10_000 && key.tickSpacing == 200 && key.hooks == PAIR_HOOK
    && 0 < key.currency0 < key.currency1 && {key.currency0, key.currency1} == {a, b}
  }

  /** A target that is neither base nor a quote, and for the WETH executor not USDG either. */
  predicate TokensFit(cfg: Config, route: Route) {
    && ZERO !in {route.targetToken, route.entryToken, route.exitToken}
    && route.targetToken !in {cfg.base, route.entryToken, route.exitToken}
    && (cfg.base == WETH ==> route.targetToken != USDG)
  }

  lemma TokensFitExactlyWhen(cfg: Config, route: Route)
    requires Deployable(cfg)
    ensures TokensOk(cfg, route) <==> TokensFit(cfg, route)
  {
  }

  /** A cycle from base through two different pools of one target, reached and left by allowed v3 paths. */
  predicate Fits(m: Market, cfg: Config, route: Route) {
    && TokensFit(cfg, route)
    && PairPool(route.entryV4Pool, route.targetToken, route.entryToken)
    && PairPool(route.exitV4Pool, route.targetToken, route.exitToken)
    && route.entryToken != route.exitToken
    && PathOk(m.v3Pool, cfg.bridge, route.entryV3Path, cfg.base, route.entryToken)
    && PathOk(m.v3Pool, cfg.bridge, route.exitV3Path, route.exitToken, cfg.base)
  }

  lemma PairPoolIsOk(key: PoolKey, target: Address, quote: Address)
    ensures V4PoolOk(key, target, quote) <==> PairPool(key, target, quote)
  {
    if PairPool(key, target, quote) {
      assert key.currency0 in {key.currency0, key.currency1} && key.currency1 in {key.currency0, key.currency1};
      assert target in {target, quote} && quote in {target, quote};
    }
  }

  lemma RouteFitsExactlyWhen(m: Market, cfg: Config, route: Route)
    requires Deployable(cfg)
    ensures RouteOk(m, cfg, route) <==> Fits(m, cfg, route)
  {
    TokensFitExactlyWhen(cfg, route);
    PairPoolIsOk(route.entryV4Pool, route.targetToken, route.entryToken);
    PairPoolIsOk(route.exitV4Pool, route.targetToken, route.exitToken);
    CheckPathIsPathOk(m.v3Pool, cfg.bridge, route.entryV3Path, cfg.base, route.entryToken);
    CheckPathIsPathOk(m.v3Pool, cfg.bridge, route.exitV3Path, route.exitToken, cfg.base);
    if V4PoolOk(route.entryV4Pool, route.targetToken, route.entryToken)
       && V4PoolOk(route.exitV4Pool, route.targetToken, route.exitToken) {
      SameQuoteSamePool(route);
    }
  }

  /** The shape leaves one pool for each quote. */
  lemma SameQuoteSamePool(route: Route)
    requires V4PoolOk(route.entryV4Pool, route.targetToken, route.entryToken)
    requires V4PoolOk(route.exitV4Pool, route.targetToken, route.exitToken)
    ensures route.entryV4Pool == route.exitV4Pool <==> route.entryToken == route.exitToken
  {
  }

  // ---- what each leg does ----

  /** Along a v3 path: nothing between equal ends, exactly `x` through the one pool of a direct path, or at most `x`
      through the router, which must pay something. */
  ghost predicate PathGives(m: Market, path: seq<Byte>, start: Address, end: Address, x: nat, h: History, leg: Leg) {
    if start == end then leg == Leg(x, x, h)
    else if |path| == 43 then
      exists fee :: fee in ALLOWED_FEES && path == PackPath([start, end], [fee])
                    && PoolGives(m, m.v3Pool(start, end, fee), start < end, x, h, leg)
    else
      var call := RouterCall(path, x);
      && leg.spent <= x && 0 < leg.received && leg.history == h + [call]
      && m.routerExactInput(h, call) == Some((leg.spent, leg.received))
  }

  predicate PoolGives(m: Market, pool: Address, zeroForOne: bool, x: nat, h: History, leg: Leg) {
    var call := V3Call(pool, zeroForOne, x);
    && leg.spent == x && 0 < x && 0 < leg.received <= MAX_INT256 && leg.history == h + [call]
    && m.v3Swap(h, call)
       == Some(if zeroForOne then (x as int, -(leg.received as int)) else (-(leg.received as int), x as int))
  }

  /** The manager takes exactly `x` of one currency and gives some of the other. */
  predicate ManagerGives(m: Market, key: PoolKey, tokenIn: Address, x: nat, h: History, leg: Leg) {
    var zeroForOne := key.currency0 == tokenIn;
    var call := V4Call(key, zeroForOne, x);
    && leg.spent == x && 0 < x <= MAX_INT128 && 0 < leg.received <= MAX_INT128 && leg.history == h + [call]
    && m.v4Swap(h, call) == Some(if zeroForOne then (-(x as int), leg.received) else (leg.received, -(x as int)))
  }

  lemma PathLegIsExact(m: Market, bridge: Address, path: seq<Byte>, start: Address, end: Address, x: nat, h: History,
                       leg: Leg)
    requires PathOk(m.v3Pool, bridge, path, start, end)
    ensures PathLeg(m, path, start, end, x, h) == Ok(leg) <==> PathGives(m, path, start, end, x, h, leg)
  {
    if start != end && |path| == 43 {
      var fee := DirectFee(m, bridge, path, start, end);
      DirectLegIsExact(m, m.v3Pool(start, end, fee), start < end, x, h, leg);
    }
  }

  lemma DirectFee(m: Market, bridge: Address, path: seq<Byte>, start: Address, end: Address) returns (fee: nat)
    requires PathOk(m.v3Pool, bridge, path, start, end) && start != end && |path| == 43
    ensures fee in ALLOWED_FEES && path == PackPath([start, end], [fee])
    ensures DirectPool(m.v3Pool, path) == Ok((m.v3Pool(start, end, fee), start < end))
    ensures forall other :: other in ALLOWED_FEES && path == PackPath([start, end], [other]) ==> other == fee
  {
    DirectPoolIsValidatedPool(m.v3Pool, bridge, path, start, end);
    fee :| fee in ALLOWED_FEES && path == PackPath([start, end], [fee])
           && DirectPool(m.v3Pool, path) == Ok((m.v3Pool(start, end, fee), start < end));
    forall other | other in ALLOWED_FEES && path == PackPath([start, end], [other]) ensures other == fee {
      ReadsRecoverPacked([start, end], [fee], [], 0);
      ReadsRecoverPacked([start, end], [other], [], 0);
    }
  }

  lemma DirectLegIsExact(m: Market, pool: Address, zeroForOne: bool, x: nat, h: History, leg: Leg)
    ensures V3Leg(m, pool, zeroForOne, x, h) == Ok(leg) <==> PoolGives(m, pool, zeroForOne, x, h, leg)
  {
  }

  lemma V4LegIsExact(m: Market, key: PoolKey, tokenIn: Address, x: nat, h: History, leg: Leg)
    requires x <= MAX_INT128
    ensures V4Leg(m, key, tokenIn, x, h) == Ok(leg) <==> ManagerGives(m, key, tokenIn, x, h, leg)
  {
    var zeroForOne := key.currency0 == tokenIn;
    var answer := m.v4Swap(h, V4Call(key, zeroForOne, x));
    if answer.Some? && IsInt128(answer.value.0) && IsInt128(answer.value.1) {
      ValidationIsExact(answer.value.0, answer.value.1, zeroForOne, x, leg.received);
    }
  }

  /** The four legs, each on the output and the calls of the one before. */
  ghost predicate Cycles(m: Market, cfg: Config, route: Route, x: nat, h: History, cycle: Cycle) {
    var entry, quote := cycle.entry, cycle.quote;
    && PathGives(m, route.entryV3Path, cfg.base, route.entryToken, x, h, entry)
    && quote.spent == entry.received
    && (exists first: Leg ::
          && ManagerGives(m, route.entryV4Pool, route.entryToken, entry.received, entry.history, first)
          && ManagerGives(m, route.exitV4Pool, route.targetToken, first.received, first.history,
                          Leg(first.received, quote.received, quote.history)))
    && PathGives(m, route.exitV3Path, route.exitToken, cfg.base, quote.received, quote.history, cycle.exit)
  }

  lemma QuoteIsTwoLegs(m: Market, route: Route, x: nat, h: History, quote: Leg)
    ensures BothV4(m, route, x, h) == Ok(quote)
            <==> quote.spent == x
                 && exists first: Leg ::
                      && ManagerGives(m, route.entryV4Pool, route.entryToken, x, h, first)
                      && ManagerGives(m, route.exitV4Pool, route.targetToken, first.received, first.history,
                                      Leg(first.received, quote.received, quote.history))
  {
    if x <= MAX_INT128 {
      forall first: Leg
        ensures V4Leg(m, route.entryV4Pool, route.entryToken, x, h) == Ok(first)
                <==> ManagerGives(m, route.entryV4Pool, route.entryToken, x, h, first)
      {
        V4LegIsExact(m, route.entryV4Pool, route.entryToken, x, h, first);
      }
      var first := V4Leg(m, route.entryV4Pool, route.entryToken, x, h);
      if first.Ok? && 0 < x {
        assert ManagerGives(m, route.entryV4Pool, route.entryToken, x, h, first.value);
        SecondLeg(m, route, first.value, quote);
      }
    }
  }

  lemma SecondLeg(m: Market, route: Route, first: Leg, quote: Leg)
    requires first.received <= MAX_INT128
    ensures var second := V4Leg(m, route.exitV4Pool, route.targetToken, first.received, first.history);
            second.Ok? && second.value.received == quote.received && second.value.history == quote.history
            <==> ManagerGives(m, route.exitV4Pool, route.targetToken, first.received, first.history,
                              Leg(first.received, quote.received, quote.history))
  {
    var leg := Leg(first.received, quote.received, quote.history);
    V4LegIsExact(m, route.exitV4Pool, route.targetToken, first.received, first.history, leg);
  }

  /** A cycle along a route that fits is exactly its four legs. */
  lemma CycleIsItsLegs(m: Market, cfg: Config, route: Route, x: nat, h: History, cycle: Cycle)
    requires Fits(m, cfg, route)
    ensures RunCycle(m, cfg, route, x, h) == Ok(cycle) <==> Cycles(m, cfg, route, x, h, cycle)
  {
    PathLegIsExact(m, cfg.bridge, route.entryV3Path, cfg.base, route.entryToken, x, h, cycle.entry);
    QuoteIsTwoLegs(m, route, cycle.entry.received, cycle.entry.history, cycle.quote);
    PathLegIsExact(m, cfg.bridge, route.exitV3Path, route.exitToken, cfg.base, cycle.quote.received,
                   cycle.quote.history, cycle.exit);
  }

  /** Within its bounds: live, positive, capped, with a floor, and covered by inventory. */
  predicate WithinBounds(cfg: Config, order: Order, now: nat, before: nat) {
    && now <= order.deadline && 0 < order.amountIn <= cfg.maxAmountIn && cfg.minGrossProfit <= order.minProfit
    && order.amountIn <= before
    && (cfg.base == USDG ==> order.amountIn <= 100_000_000 && 50_000 <= order.minProfit)
  }

  predicate SpendsAll(leg: Outcome<Leg>, x: nat) { leg.Ok? && leg.value.spent == x }

  /** Over all orders: one succeeds exactly when it is within its bounds, its route fits, the entry leg spends all of
      the input and the composed function returns input and floor; the profit is what the function adds. An order out
      of bounds is refused with its own error, whatever the market. */
  lemma ExecuteSucceedsExactlyWhen(m: Market, cfg: Config, order: Order, now: nat, before: nat, h: History)
    requires Deployable(cfg)
    ensures var f := Composed(m, cfg, order.route)(h, order.amountIn);
            var r := Execute(m, cfg, order, now, before, h);
            && (r.Ok? <==> WithinBounds(cfg, order, now, before) && Fits(m, cfg, order.route)
                           && f.Ok? && order.amountIn + order.minProfit <= f.value.0
                           && SpendsAll(PathLeg(m, order.route.entryV3Path, cfg.base, order.route.entryToken,
                                                order.amountIn, h), order.amountIn))
            && (r.Ok? ==> r.value.grossProfit == f.value.0 - order.amountIn && r.value.amountOut == f.value.0
                          && r.value.cycle.exit.history == f.value.1)
            && (order.deadline < now ==> r == Err(Expired))
            && (now <= order.deadline && (order.amountIn == 0 || cfg.maxAmountIn < order.amountIn) ==>
                  r == Err(InvalidAmount))
  {
    RouteFitsExactlyWhen(m, cfg, order.route);
    if Precheck(m, cfg, order, now, before).Ok? {
      ExecuteIsComposition(m, cfg, order, now, before, h);
    }
  }

  lemma ExecuteOfCycle(m: Market, cfg: Config, order: Order, now: nat, before: nat, h: History, cycle: Cycle)
    ensures var r := Execute(m, cfg, order, now, before, h);
            && (r.Ok? && r.value.cycle == cycle
                <==> && Precheck(m, cfg, order, now, before).Ok?
                     && RunCycle(m, cfg, order.route, order.amountIn, h) == Ok(cycle)
                     && cycle.entry.spent == order.amountIn && order.amountIn + order.minProfit <= cycle.exit.received)
            && (r.Ok? ==> r.value.amountOut == r.value.cycle.exit.received
                          && r.value.grossProfit == r.value.amountOut - order.amountIn)
  {
  }

  lemma PrecheckExactly(m: Market, cfg: Config, order: Order, now: nat, before: nat)
    requires Deployable(cfg)
    ensures Precheck(m, cfg, order, now, before).Ok?
            <==> WithinBounds(cfg, order, now, before) && Fits(m, cfg, order.route)
  {
    RouteFitsExactlyWhen(m, cfg, order.route);
  }

  /** The same without naming any function of the executor: the order is within its bounds, its route fits, there are
      four legs along it of which the first spends all of the input, and the last pays input and floor. */
  lemma OrderSucceedsExactlyWhen(m: Market, cfg: Config, order: Order, now: nat, before: nat, h: History, cycle: Cycle)
    requires Deployable(cfg)
    ensures var r := Execute(m, cfg, order, now, before, h);
            && (r.Ok? && r.value.cycle == cycle
                <==> && WithinBounds(cfg, order, now, before) && Fits(m, cfg, order.route)
                     && Cycles(m, cfg, order.route, order.amountIn, h, cycle)
                     && cycle.entry.spent == order.amountIn && order.amountIn + order.minProfit <= cycle.exit.received)
            && (r.Ok? ==> r.value.amountOut == r.value.cycle.exit.received
                          && r.value.grossProfit == r.value.amountOut - order.amountIn)
  {
    ExecuteOfCycle(m, cfg, order, now, before, h, cycle);
    PrecheckExactly(m, cfg, order, now, before);
    if Fits(m, cfg, order.route) {
      CycleIsItsLegs(m, cfg, order.route, order.amountIn, h, cycle);
    }
  }

  /** With a router that always spends what it is offered the measured balance adds nothing, and no exit
      quote is left behind. */
  lemma ExecuteIsCompositionWhenConsumed(m: Market, cfg: Config, order: Order, now: nat, before: nat, h: History)
    requires Precheck(m, cfg, order, now, before).Ok? && RouterPullsAll(m)
    ensures var f := Composed(m, cfg, order.route)(h, order.amountIn);
            var r := Execute(m, cfg, order, now, before, h);
            && (r.Ok? <==> f.Ok? && order.amountIn + order.minProfit <= f.value.0)
            && (r.Ok? ==> r.value.grossProfit == f.value.0 - order.amountIn && r.value.cycle.Dust() == 0)
  {
    ExecuteIsComposition(m, cfg, order, now, before, h);
    CycleIsComposition(m, cfg, order.route, order.amountIn, h);
    var route := order.route;
    var entry := PathLeg(m, route.entryV3Path, cfg.base, route.entryToken, order.amountIn, h);
    if entry.Ok? {
      PathLegSpends(m, route.entryV3Path, cfg.base, route.entryToken, order.amountIn, h);
      var first := V4Leg(m, route.entryV4Pool, route.entryToken, entry.value.received, entry.value.history);
      if first.Ok? {
        var second := V4Leg(m, route.exitV4Pool, route.targetToken, first.value.received, first.value.history);
        if second.Ok?
           && PathLeg(m, route.exitV3Path, route.exitToken, cfg.base, second.value.received,
                      second.value.history).Ok? {
          PathLegSpends(m, route.exitV3Path, route.exitToken, cfg.base, second.value.received, second.value.history);
        }
      }
    }
  }

  /** Without the router on the exit no execution on any market leaves exit quote behind. */
  lemma NoRouterNoDust(m: Market, cfg: Config, order: Order, now: nat, before: nat, h: History)
    requires !UsesRouter(order.route.exitV3Path, order.route.exitToken, cfg.base)
    requires Execute(m, cfg, order, now, before, h).Ok?
    ensures Execute(m, cfg, order, now, before, h).value.cycle.Dust() == 0
  {
    var cycle := RunCycle(m, cfg, order.route, order.amountIn, h).value;
    PathLegSpendsAll(m, order.route.exitV3Path, order.route.exitToken, cfg.base, cycle.quote.received,
                     cycle.quote.history);
  }

  lemma PathLegSpendsAll(m: Market, path: seq<Byte>, start: Address, end: Address, x: nat, h: History)
    requires !UsesRouter(path, start, end) && PathLeg(m, path, start, end, x, h).Ok?
    ensures PathLeg(m, path, start, end, x, h).value.spent == x
  {
  }

  // ---- a market on which the exit router leaves something ----

  function FlatV4(call: Call): Option<(int, int)> {
    if !call.V4Call? then None
    else if call.zeroForOne then Some((-(call.amount as int), call.amount))
    else Some((call.amount, -(call.amount as int)))
  }

  function FlatV3(call: Call): Option<(int, int)> {
    if !call.V3Call? then None
    else if call.zeroForOne then Some((call.amount as int, -(call.amount as int)))
    else Some((-(call.amount as int), call.amount))
  }

  /** Along `exitPath` the router leaves one unit of its input behind and pays `bonus` more than it was offered;
      along any other path it swaps one for one. */
  function ThriftyRouter(exitPath: seq<nat>, bonus: nat, call: Call): Option<(nat, nat)> {
    if !call.RouterCall? || call.amount == 0 then None
    else if call.path == exitPath then Some((call.amount - 1, call.amount + bonus))
    else Some((call.amount, call.amount))
  }

  /** The factory of `m` with flat pools and a thrifty router. */
  function Thrifty(m: Market, exitPath: seq<nat>, bonus: nat): Market {
    m.(v3Swap := (h: History, c: Call) => FlatV3(c),
       v4Swap := (h: History, c: Call) => FlatV4(c),
       routerExactInput := (h: History, c: Call) => ThriftyRouter(exitPath, bonus, c))
  }

  lemma FlatV4Leg(m: Market, key: PoolKey, tokenIn: Address, exitPath: seq<nat>, bonus: nat, h: History)
    ensures V4Leg(Thrifty(m, exitPath, bonus), key, tokenIn, 1, h)
            == Ok(Leg(1, 1, h + [V4Call(key, key.currency0 == tokenIn, 1)]))
  {
    UnpackPack(-1, 1);
    UnpackPack(1, -1);
  }

  /** One unit goes in and comes out, whichever way a validated entry goes. */
  lemma FlatEntry(m: Market, cfg: Config, route: Route, bonus: nat, h: History)
    requires RouteOk(m, cfg, route) && cfg.base != route.exitToken
    ensures var t := Thrifty(m, route.exitV3Path, bonus);
            var entry := PathLeg(t, route.entryV3Path, cfg.base, route.entryToken, 1, h);
            entry.Ok? && entry.value.spent == 1 && entry.value.received == 1
  {
    if route.entryToken != cfg.base {
      if IsDirectLength(route.entryV3Path) {
        CheckPathIsPathOk(m.v3Pool, cfg.bridge, route.entryV3Path, cfg.base, route.entryToken);
        DirectPoolIsValidatedPool(m.v3Pool, cfg.bridge, route.entryV3Path, cfg.base, route.entryToken);
      } else {
        PathsDiffer(m, cfg, route);
      }
    }
  }

  /** An entry path starts at base and an exit path does not. */
  lemma PathsDiffer(m: Market, cfg: Config, route: Route)
    requires RouteOk(m, cfg, route) && cfg.base != route.exitToken && cfg.base != route.entryToken
    ensures route.entryV3Path != route.exitV3Path
  {
    assert ReadToken(route.entryV3Path, 0) == cfg.base && ReadToken(route.exitV3Path, 0) == route.exitToken;
  }

  /** An order of one unit along the route, at the lowest profit floor. */
  function UnitOrder(cfg: Config, route: Route): Order { Order(route, 1, cfg.minGrossProfit, 0) }

  lemma ThriftyCycle(m: Market, cfg: Config, route: Route)
    requires RouteOk(m, cfg, route) && UsesRouter(route.exitV3Path, route.exitToken, cfg.base)
    ensures var cycle := RunCycle(Thrifty(m, route.exitV3Path, cfg.minGrossProfit), cfg, route, 1, []);
            && cycle.Ok? && cycle.value.Spent() == 1 && cycle.value.Output() == 1 + cfg.minGrossProfit
            && cycle.value.Dust() == 1
  {
    var t := Thrifty(m, route.exitV3Path, cfg.minGrossProfit);
    FlatEntry(m, cfg, route, cfg.minGrossProfit, []);
    var entry := PathLeg(t, route.entryV3Path, cfg.base, route.entryToken, 1, []).value;
    FlatV4Leg(m, route.entryV4Pool, route.entryToken, route.exitV3Path, cfg.minGrossProfit, entry.history);
    var first := V4Leg(t, route.entryV4Pool, route.entryToken, 1, entry.history).value;
    FlatV4Leg(m, route.exitV4Pool, route.targetToken, route.exitV3Path, cfg.minGrossProfit, first.history);
    var second := V4Leg(t, route.exitV4Pool, route.targetToken, 1, first.history).value;
    assert PathLeg(t, route.exitV3Path, route.exitToken, cfg.base, 1, second.history)
           == RouterLeg(t, route.exitV3Path, 1, second.history);
  }

  /** The documentation promises no residual tokens. Every accepted route whose exit goes through the router breaks
      that on some market: an execution of one unit succeeds and keeps one unit of the exit quote. */
  lemma ResidualIsPossible(m: Market, cfg: Config, route: Route)
    requires Deployable(cfg) && RouteOk(m, cfg, route) && UsesRouter(route.exitV3Path, route.exitToken, cfg.base)
    ensures var r := Execute(Thrifty(m, route.exitV3Path, cfg.minGrossProfit), cfg, UnitOrder(cfg, route), 0, 1, []);
            r.Ok? && r.value.cycle.Dust() == 1
  {
    DeployableBounds(cfg);
    ThriftyCycle(m, cfg, route);
  }

  ghost predicate NeverLeavesDust(cfg: Config, route: Route) {
    forall m: Market, order: Order, now: nat, before: nat, h: History ::
      order.route == route && Execute(m, cfg, order, now, before, h).Ok?
      ==> Execute(m, cfg, order, now, before, h).value.cycle.Dust() == 0
  }

  /** For a route some factory accepts: every successful execution on every market leaves no exit quote behind
      exactly when the exit does not go through the router. The route alone decides, before the call. */
  lemma ResidualExactlyWhen(m: Market, cfg: Config, route: Route)
    requires Deployable(cfg) && RouteOk(m, cfg, route)
    ensures NeverLeavesDust(cfg, route) <==> !UsesRouter(route.exitV3Path, route.exitToken, cfg.base)
  {
    if UsesRouter(route.exitV3Path, route.exitToken, cfg.base) {
      ResidualIsPossible(m, cfg, route);
    } else {
      forall m': Market, order: Order, now: nat, before: nat, h: History
        | order.route == route && Execute(m', cfg, order, now, before, h).Ok?
        ensures Execute(m', cfg, order, now, before, h).value.cycle.Dust() == 0
      {
        NoRouterNoDust(m', cfg, order, now, before, h);
      }
    }
  }

  /** Such routes exist: token 5 back to USDG through WETH. */
  lemma BridgedExitExists()
    ensures exists m: Market, route: Route ::
              RouteOk(m, GENERIC, route) && UsesRouter(route.exitV3Path, route.exitToken, USDG)
  {
    BridgedRouteIsOk();
    assert RouteOk(ANY_POOL, GENERIC, BRIDGED_ROUTE);
  }

  /** Every v3 pool exists here; nothing trades. */
  const ANY_POOL := Market(
    (a: Address, b: Address) => ZERO, (a: Address, b: Address, fee: nat) => 1 as Address, (h: History, c: Call) => None,
    (h: History, c: Call) => None, (h: History, c: Call) => None,
    (h: History, p: Address) => EarnPool(false, false, false, []), (h: History, c: Call) => None,
    (h: History, c: Call) => None, (h: History, c: Call) => None, (t: Address) => false, (t: Address) => 0)

  const BRIDGED_ROUTE := Route(
    3, USDG, 5, [], PackPath([5, WETH, USDG], [500, 500]), PoolKey(3, USDG, PAIR_FEE, PAIR_TICK_SPACING, PAIR_HOOK),
    PoolKey(3, 5, PAIR_FEE, PAIR_TICK_SPACING, PAIR_HOOK))

  lemma BridgedRouteIsOk()
    ensures RouteOk(ANY_POOL, GENERIC, BRIDGED_ROUTE)
    ensures UsesRouter(BRIDGED_ROUTE.exitV3Path, BRIDGED_ROUTE.exitToken, USDG)
  {
    BridgedIsChecked(ANY_POOL.v3Pool, WETH, 5, USDG, 500, 500);
    PackLength([5, WETH, USDG], [500, 500]);
  }
}
