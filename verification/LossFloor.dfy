/** The whole-run loss floor of the live engine with paper fills. */
module LossFloor {
  import opened Types
  import opened Arith
  import opened PortfolioModel
  import opened LiveEngine
  import opened LiveTasks
  import opened LiveSafety
  import CostModel
  import Risk

  // ---------------------------------------------------------------- arithmetic of one round trip

  function WorstFee(exec: ExecConfig): real { Max(exec.takerFee, exec.makerFee) }

  /** What an exit can multiply the stop distance by. */
  function ExitWeight(exec: ExecConfig): real { (1.0 + Slip(exec)) * (1.0 + WorstFee(exec)) }

  function ShareOf(risk: real, leverage: real, m: real, c: real): real {
    risk * m + leverage * c
  }

  /** What is left of `worth` once the share is lost. */
  function Remaining(share: real, worth: real): real { (1.0 - share) * worth }

  /** Largest share of equity one round trip can lose. */
  function K(cfg: Settings): real {
    ShareOf(cfg.setup.risk.riskPerTrade, cfg.setup.risk.maxLeverage, ExitWeight(cfg.exec),
            2.0 * (Slip(cfg.exec) + WorstFee(cfg.exec)))
  }

  predicate CostRates(s: real, t: real, sE: real, fE: real, fee: real) {
    0.0 <= s < 1.0 && 0.0 <= t <= fee <= 1.0 && 0.0 <= fE <= fee
    && ((sE == s && fE == t) || sE == 0.0)
  }

  lemma LongCoefficients(s: real, t: real, sE: real, fE: real, fee: real)
    requires CostRates(s, t, sE, fE, fee)
    ensures var kept := (1.0 - s) * (1.0 - t);
            && 0.0 <= kept <= 1.0
            && (1.0 + sE) * (1.0 + fE - kept) <= 2.0 * (s + fee)
            && (1.0 + sE) * (1.0 + fE) - kept <= 2.0 * (s + fee)
  {
    var kept := (1.0 - s) * (1.0 - t);
    KeptRange(s, t);
    CostBound(s, t, fE, fee);
    var v, worst := 1.0 + s, fee + fee * (1.0 - s) + s;
    WorstBound(s, fee, v, worst);
    Scaled(1.0 + sE, v, 1.0 + fE - kept, worst, 2.0 * (s + fee));
    SpreadCost(s, t, sE, fE, fee, kept);
  }

  lemma Scaled(e: real, v: real, cost: real, worst: real, bound: real)
    requires 1.0 <= e <= v && 0.0 <= cost <= worst && v * worst <= bound
    ensures e * cost <= bound && cost <= bound
  {
    ScaleLe(cost, worst, e);
    ScaleLe(e, v, worst);
    ScaleLe(1.0, e, cost);
  }

  lemma SpreadCost(s: real, t: real, sE: real, fE: real, fee: real, kept: real)
    requires CostRates(s, t, sE, fE, fee) && kept == (1.0 - s) * (1.0 - t) && 1.0 + fE - kept <= 2.0 * (s + fee)
    ensures (1.0 + sE) * (1.0 + fE) - kept <= 2.0 * (s + fee)
  {
    if sE == 0.0 {
      assert (1.0 + sE) * (1.0 + fE) == 1.0 + fE;
    } else {
      PlusMinus(s, t);
    }
  }

  lemma KeptRange(s: real, t: real)
    requires 0.0 <= s <= 1.0 && 0.0 <= t <= 1.0
    ensures 0.0 <= (1.0 - s) * (1.0 - t) <= 1.0
  {
    var u, v := 1.0 - s, 1.0 - t;
    ProductNonNegative(u, v);
    ScaleLe(u, 1.0, v);
    assert u * v <= v;
  }

  lemma CostBound(s: real, t: real, fE: real, fee: real)
    requires 0.0 <= s < 1.0 && 0.0 <= t <= fee <= 1.0 && 0.0 <= fE <= fee
    ensures 0.0 <= 1.0 + fE - (1.0 - s) * (1.0 - t) <= fee + fee * (1.0 - s) + s
  {
    ScaleLe(t, fee, 1.0 - s);
    ProductNonNegative(t, 1.0 - s);
    assert t * (1.0 - s) == t - t * s;
  }

  lemma WorstBound(s: real, fee: real, v: real, worst: real)
    requires 0.0 <= s < 1.0 && 0.0 <= fee <= 1.0 && v == 1.0 + s && worst == fee + fee * (1.0 - s) + s
    ensures v * worst <= 2.0 * (s + fee)
  {
    ProductNonNegative(1.0 - fee, 1.0 - s);
    ProductNonNegative(s, (1.0 - fee) * (1.0 - s));
    WorstShare(s, fee);
  }

  lemma WorstShare(s: real, fee: real)
    ensures (1.0 + s) * (fee + fee * (1.0 - s) + s) == 2.0 * (s + fee) - s * ((1.0 - fee) * (1.0 - s))
  {
    var a, b := fee * s, s * s;
    assert fee * (1.0 - s) == fee - a;
    assert (1.0 - fee) * (1.0 - s) == 1.0 - fee - s + a;
    assert s * ((1.0 - fee) * (1.0 - s)) == s - a - b + s * a;
    assert s * (2.0 * fee - a + s) == 2.0 * a - s * a + b;
  }

  lemma PlusMinus(s: real, t: real)
    ensures (1.0 + s) * (1.0 + t) - (1.0 - s) * (1.0 - t) == 2.0 * (s + t)
  {}

  /** Regrouping of the long round trip's loss. */
  lemma RegroupLong(n: real, a: real, g: real, k: real, r: real)
    ensures n * (a * g) - (n * a - r) * k == n * (a * (g - k)) + r * k
  {
    assert a * (g - k) == a * g - a * k;
    assert n * (a * g - a * k) == n * (a * g) - n * (a * k);
    assert (n * a - r) * k == (n * a) * k - r * k;
  }

  /** `n`: notional at the reference price, `r`: quantity times stop distance, `x`: quantity times
      exit reference price; `a`, `g`: what entry slippage and fee make of the notional; `k`: what an
      exit pays or keeps; `m`, `c`: the coefficients of the bound. */
  lemma LongCore(n: real, r: real, x: real, a: real, g: real, k: real, m: real, c: real)
    requires n >= 0.0 && r >= 0.0 && 0.0 <= k <= m
    requires a * (g - k) <= c && a * g - k <= c
    requires x >= n * a - r || x >= n
    ensures n * (a * g) - x * k <= r * m + n * c
  {
    ScaleLe(k, m, r);
    ProductNonNegative(r, m);
    if x >= n {
      ScaleLe(n, x, k);
      ScaleLe(a * g - k, c, n);
      Distribute(a * g, k, n);
    } else {
      ScaleLe(n * a - r, x, k);
      ScaleLe(a * (g - k), c, n);
      RegroupLong(n, a, g, k, r);
    }
  }

  lemma ShortCore(n: real, r: real, x: real, a: real, g: real, k: real, m: real, c: real)
    requires n >= 0.0 && r >= 0.0 && 0.0 <= k <= m
    requires a * (k - g) <= c && k - a * g <= c
    requires x <= n * a + r || x <= n
    ensures x * k - n * (a * g) <= r * m + n * c
  {
    ScaleLe(k, m, r);
    ProductNonNegative(r, m);
    if x <= n {
      ScaleLe(x, n, k);
      ScaleLe(k - a * g, c, n);
      Distribute(k, a * g, n);
    } else {
      ScaleLe(x, n * a + r, k);
      ScaleLe(a * (k - g), c, n);
      RegroupLong(n, a, g, k, -r);
      assert a * (k - g) == -(a * (g - k));
    }
  }

  lemma ShortCoefficients(s: real, t: real, sE: real, fE: real, fee: real)
    requires CostRates(s, t, sE, fE, fee)
    ensures var paid := (1.0 + s) * (1.0 + t);
            && 1.0 <= paid <= (1.0 + s) * (1.0 + fee)
            && paid - (1.0 - sE) * (1.0 - fE) <= 2.0 * (s + fee)
            && (1.0 - sE) * (paid - (1.0 - fE)) <= 2.0 * (s + fee)
  {
    var paid := (1.0 + s) * (1.0 + t);
    PaidRange(s, t, fee);
    PaidLessEntry(s, t, sE, fE, fee, paid);
    Discount(sE, paid - (1.0 - fE));
    assert (1.0 - sE) * (paid - (1.0 - fE)) <= paid - (1.0 - fE);
  }

  lemma PaidLessEntry(s: real, t: real, sE: real, fE: real, fee: real, paid: real)
    requires CostRates(s, t, sE, fE, fee) && paid == (1.0 + s) * (1.0 + t) && paid <= 1.0 + 2.0 * s + t
    ensures paid - (1.0 - sE) * (1.0 - fE) <= 2.0 * (s + fee)
  {
    var kept := (1.0 - sE) * (1.0 - fE);
    if sE == 0.0 {
      assert kept == 1.0 - fE;
    } else {
      PlusMinus(s, t);
      assert paid - kept == 2.0 * (s + t);
    }
  }

  lemma Discount(d: real, cost: real)
    requires d >= 0.0 && cost >= 0.0
    ensures (1.0 - d) * cost <= cost
  {
    ProductNonNegative(d, cost);
    assert (1.0 - d) * cost == cost - d * cost;
  }

  lemma PaidRange(s: real, t: real, fee: real)
    requires 0.0 <= s && 0.0 <= t <= fee && t <= 1.0
    ensures 1.0 <= (1.0 + s) * (1.0 + t) <= 1.0 + 2.0 * s + t
    ensures (1.0 + s) * (1.0 + t) <= (1.0 + s) * (1.0 + fee)
  {
    var v := 1.0 + s;
    ProductNonNegative(s, t);
    ScaleLe(t, 1.0, s);
    ScaleLe(1.0 + t, 1.0 + fee, v);
    assert v * (1.0 + t) == 1.0 + s + t + s * t;
  }

  // ---------------------------------------------------------------- one round trip in the book

  /** Entry terms of an order type: the slippage and the fee rate its fill is charged. */
  function EntrySlip(cfg: Settings, limit: bool): real { if limit then 0.0 else Slip(cfg.exec) }

  function EntryFee(cfg: Settings, limit: bool): real { if limit then cfg.exec.makerFee else cfg.exec.takerFee }

  predicate FloorSettings(cfg: Settings) {
    && GoodSettings(cfg) && cfg.paper
    && cfg.setup.risk.maxLeverage > 0.0
    && cfg.accountEquity >= 0.0 && K(cfg) <= 1.0
  }

  function StopDistance(p: Position): real { Signed(p.side, p.entryPrice - p.stopLoss) }

  /** The open position `p`, entered by `e` from pre-entry equity `worth`, is sized and placed as an entry is. */
  predicate Bounded(cfg: Settings, p: Position, e: Booked, worth: real) {
    && p.side != Flat && p.quantity > 0.0 && e.ref > 0.0 && worth > 0.0
    && StopDistance(p) > 0.0 && Signed(p.side, p.takeProfit - p.entryPrice) > 0.0
    && p.quantity * StopDistance(p) <= worth * cfg.setup.risk.riskPerTrade
    && e.ref * p.quantity <= cfg.setup.risk.maxLeverage * worth
    && exists limit :: EnteredAt(cfg, p, e, limit)
  }

  /** Leaving at reference price `x` is no worse than the stop, or than the entry's reference price. */
  predicate Admissible(p: Position, e: Booked, x: real) {
    Signed(p.side, x - p.stopLoss) >= 0.0 || Signed(p.side, x - e.ref) >= 0.0
  }

  lemma Regroup(price: real, q: real, a: real, f: real)
    ensures price * a * q + price * a * q * f == price * q * (a * (1.0 + f))
  {
    assert a * (1.0 + f) == a + a * f;
    assert price * q * (a + a * f) == price * q * a + price * q * (a * f);
    assert price * a * q == price * q * a;
    assert price * q * (a * f) == price * q * a * f;
  }

  /** Equity `worth` plus a net loss of at most `r m + n c` keeps its share. */
  lemma ShareKept(worth: real, net: real, r: real, n: real, m: real, c: real, risk: real, leverage: real)
    requires net >= -(r * m + n * c) && m >= 0.0 && c >= 0.0
    requires r <= worth * risk && n <= leverage * worth
    ensures worth + net >= Remaining(ShareOf(risk, leverage, m, c), worth)
  {
    ScaleLe(r, worth * risk, m);
    ScaleLe(n, leverage * worth, c);
    var keep := risk * m + leverage * c;
    assert keep * worth == worth * risk * m + leverage * worth * c;
    Distribute(1.0, keep, worth);
  }

  /** `a`, `g`: what entry slippage and fee make of the notional; `k`: what the exit keeps;
      `m`, `c`: the coefficients of the bound. */
  lemma LongKeepsCore(q: real, ref: real, sd: real, x: real, a: real, g: real, k: real, m: real, c: real,
                      net: real, worth: real, risk: real, leverage: real)
    requires q > 0.0 && ref > 0.0 && sd > 0.0 && c >= 0.0
    requires 0.0 <= k <= m && a * (g - k) <= c && a * g - k <= c
    requires net == x * q * k - ref * q * (a * g)
    requires x >= ref * a - sd || x >= ref
    requires q * sd <= worth * risk && ref * q <= leverage * worth
    ensures worth + net >= Remaining(ShareOf(risk, leverage, m, c), worth)
  {
    ScaledLong(q, ref, a, sd, x);
    ProductNonNegative(ref, q);
    ProductNonNegative(q, sd);
    LongCore(ref * q, q * sd, x * q, a, g, k, m, c);
    ShareKept(worth, net, q * sd, ref * q, m, c, risk, leverage);
  }

  lemma ShortKeepsCore(q: real, ref: real, sd: real, x: real, a: real, g: real, k: real, m: real, c: real,
                       net: real, worth: real, risk: real, leverage: real)
    requires q > 0.0 && ref > 0.0 && sd > 0.0 && c >= 0.0
    requires 0.0 <= k <= m && a * (k - g) <= c && k - a * g <= c
    requires net == ref * q * (a * g) - x * q * k
    requires x <= ref * a + sd || x <= ref
    requires q * sd <= worth * risk && ref * q <= leverage * worth
    ensures worth + net >= Remaining(ShareOf(risk, leverage, m, c), worth)
  {
    ScaledShort(q, ref, a, sd, x);
    ProductNonNegative(ref, q);
    ProductNonNegative(q, sd);
    ShortCore(ref * q, q * sd, x * q, a, g, k, m, c);
    ShareKept(worth, net, q * sd, ref * q, m, c, risk, leverage);
  }

  /** The same in terms of fills: entry at `ref a`, exit at `x b`, fee rates `f` in and `t` out. */
  lemma LongKeeps(q: real, ref: real, sd: real, x: real, a: real, f: real, b: real, t: real, m: real, c: real,
                  entry: real, out: real, net: real, worth: real, risk: real, leverage: real)
    requires q > 0.0 && ref > 0.0 && sd > 0.0 && c >= 0.0
    requires 0.0 <= b * (1.0 - t) <= m
    requires a * (1.0 + f - b * (1.0 - t)) <= c && a * (1.0 + f) - b * (1.0 - t) <= c
    requires entry == ref * a && out == x * b
    requires net == (out - entry) * q - out * q * t - entry * q * f
    requires x >= entry - sd || x >= ref
    requires q * sd <= worth * risk && ref * q <= leverage * worth
    ensures worth + net >= Remaining(ShareOf(risk, leverage, m, c), worth)
  {
    LegSplit(q, ref, a, f, entry);
    LegSplit(q, x, b, -t, out);
    Distribute(out, entry, q);
    LongKeepsCore(q, ref, sd, x, a, 1.0 + f, b * (1.0 - t), m, c, net, worth, risk, leverage);
  }

  lemma ShortKeeps(q: real, ref: real, sd: real, x: real, a: real, f: real, b: real, t: real, m: real, c: real,
                   entry: real, out: real, net: real, worth: real, risk: real, leverage: real)
    requires q > 0.0 && ref > 0.0 && sd > 0.0 && c >= 0.0
    requires 0.0 <= b * (1.0 + t) <= m
    requires a * (b * (1.0 + t) - (1.0 - f)) <= c && b * (1.0 + t) - a * (1.0 - f) <= c
    requires entry == ref * a && out == x * b
    requires net == (entry - out) * q - out * q * t - entry * q * f
    requires x <= entry + sd || x <= ref
    requires q * sd <= worth * risk && ref * q <= leverage * worth
    ensures worth + net >= Remaining(ShareOf(risk, leverage, m, c), worth)
  {
    LegSplit(q, ref, a, -f, entry);
    LegSplit(q, x, b, t, out);
    Distribute(entry, out, q);
    ShortKeepsCore(q, ref, sd, x, a, 1.0 - f, b * (1.0 + t), m, c, net, worth, risk, leverage);
  }

  lemma LegSplit(q: real, price: real, a: real, f: real, filled: real)
    requires filled == price * a
    ensures filled * q + filled * q * f == price * q * (a * (1.0 + f))
  {
    Regroup(price, q, a, f);
  }

  lemma ExitShare(s: real, fee: real)
    requires s >= 0.0 && fee >= 0.0
    ensures 1.0 <= (1.0 + s) * (1.0 + fee)
  {
    ProductNonNegative(s, fee);
  }

  lemma ScaledLong(q: real, ref: real, a: real, sd: real, x: real)
    requires q > 0.0 && (x >= ref * a - sd || x >= ref)
    ensures x * q >= ref * q * a - q * sd || x * q >= ref * q
  {
    if x >= ref { ScaleLe(ref, x, q); }
    else { ScaleLe(ref * a - sd, x, q); RefTimes(q, ref, a, sd); }
  }

  lemma ScaledShort(q: real, ref: real, a: real, sd: real, x: real)
    requires q > 0.0 && (x <= ref * a + sd || x <= ref)
    ensures x * q <= ref * q * a + q * sd || x * q <= ref * q
  {
    if x <= ref { ScaleLe(x, ref, q); }
    else { ScaleLe(x, ref * a + sd, q); RefTimes(q, ref, a, -sd); }
  }

  lemma RefTimes(q: real, ref: real, a: real, sd: real)
    ensures (ref * a - sd) * q == ref * q * a - q * sd
  {
    assert ref * a * q == ref * q * a;
  }

  // ---------------------------------------------------------------- one round trip of the engine

  /** Net result of leaving `p` by `fill`, less the entry fee already paid. */
  function NetOfFees(p: Position, e: Booked, fill: Fill): real {
    Gain(p.side, p.quantity, p.entryPrice, fill.price) - fill.fee - e.fill.fee
  }

  function EntryFactor(cfg: Settings, side: Side, limit: bool): real { 1.0 + Signed(side, EntrySlip(cfg, limit)) }

  function ExitFactor(cfg: Settings, side: Side): real { 1.0 + Signed(Opposite(side), Slip(cfg.exec)) }

  predicate EnteredAt(cfg: Settings, p: Position, e: Booked, limit: bool) {
    && p.entryPrice == e.ref * EntryFactor(cfg, p.side, limit)
    && e.fill.fee == p.entryPrice * p.quantity * EntryFee(cfg, limit)
  }

  predicate LeftAt(cfg: Settings, p: Position, fill: Fill, x: real) {
    && fill.price == x * ExitFactor(cfg, p.side)
    && fill.fee == fill.price * p.quantity * cfg.exec.takerFee
  }

  lemma LongFactors(s: real, t: real, sE: real, fE: real, fee: real, a: real, b: real)
    requires CostRates(s, t, sE, fE, fee) && a == 1.0 + sE && b == 1.0 - s
    ensures 0.0 <= b * (1.0 - t) <= 1.0
    ensures a * (1.0 + fE - b * (1.0 - t)) <= 2.0 * (s + fee) && a * (1.0 + fE) - b * (1.0 - t) <= 2.0 * (s + fee)
  {
    LongCoefficients(s, t, sE, fE, fee);
  }

  /** Prices and net result of a long round trip of `q`: entered at `ref a`, left at `x b`, with fee rates
      `f` in and `t` out. */
  predicate LongTerms(q: real, ref: real, x: real, a: real, b: real, f: real, t: real, entry: real, out: real,
                      net: real) {
    entry == ref * a && out == x * b && net == (out - entry) * q - out * q * t - entry * q * f
  }

  predicate ShortTerms(q: real, ref: real, x: real, a: real, b: real, f: real, t: real, entry: real, out: real,
                       net: real) {
    entry == ref * a && out == x * b && net == (entry - out) * q - out * q * t - entry * q * f
  }

  lemma LongPriced(s: real, t: real, sE: real, fE: real, fee: real, a: real, b: real, m: real, c: real, q: real,
                   ref: real, sd: real, x: real, entry: real, out: real, net: real, worth: real, risk: real,
                   leverage: real)
    requires CostRates(s, t, sE, fE, fee) && a == 1.0 + sE && b == 1.0 - s && q > 0.0 && ref > 0.0 && sd > 0.0
    requires c == 2.0 * (s + fee) && m >= 1.0
    requires LongTerms(q, ref, x, a, b, fE, t, entry, out, net)
    requires x >= entry - sd || x >= ref
    requires q * sd <= worth * risk && ref * q <= leverage * worth
    ensures worth + net >= Remaining(ShareOf(risk, leverage, m, c), worth)
  {
    hide Remaining, ShareOf;
    LongFactors(s, t, sE, fE, fee, a, b);
    LongKeeps(q, ref, sd, x, a, fE, b, t, m, c, entry, out, net, worth, risk, leverage);
  }

  lemma LongNet(cfg: Settings, p: Position, e: Booked, fill: Fill, x: real, limit: bool)
    requires p.side == Long && EnteredAt(cfg, p, e, limit) && LeftAt(cfg, p, fill, x)
    ensures LongTerms(p.quantity, e.ref, x, EntryFactor(cfg, p.side, limit), ExitFactor(cfg, p.side),
                      EntryFee(cfg, limit),
                      cfg.exec.takerFee, p.entryPrice, fill.price, NetOfFees(p, e, fill))
  {
    hide EntryFactor, ExitFactor, EntryFee;
  }

  lemma LongTrade(cfg: Settings, p: Position, e: Booked, x: real, limit: bool)
    requires GoodCosts(cfg.exec) && p.side == Long && Admissible(p, e, x)
    ensures CostRates(Slip(cfg.exec), cfg.exec.takerFee, EntrySlip(cfg, limit), EntryFee(cfg, limit),
                      WorstFee(cfg.exec))
    ensures EntryFactor(cfg, p.side, limit) == 1.0 + EntrySlip(cfg, limit) && ExitFactor(cfg, p.side)
            == 1.0 - Slip(cfg.exec)
    ensures x >= p.entryPrice - StopDistance(p) || x >= e.ref
  {}

  lemma LongShare(cfg: Settings, p: Position, e: Booked, worth: real, fill: Fill, x: real, limit: bool, m: real,
                  c: real)
    requires GoodCosts(cfg.exec) && p.side == Long && p.quantity > 0.0 && e.ref > 0.0 && StopDistance(p) > 0.0
    requires 1.0 <= m && c == 2.0 * (Slip(cfg.exec) + WorstFee(cfg.exec))
    requires p.quantity * StopDistance(p) <= worth * cfg.setup.risk.riskPerTrade
    requires e.ref * p.quantity <= cfg.setup.risk.maxLeverage * worth
    requires Admissible(p, e, x) && EnteredAt(cfg, p, e, limit) && LeftAt(cfg, p, fill, x)
    ensures worth + NetOfFees(p, e, fill)
            >= Remaining(ShareOf(cfg.setup.risk.riskPerTrade, cfg.setup.risk.maxLeverage, m, c), worth)
  {
    hide *;
    LongNet(cfg, p, e, fill, x, limit);
    LongTrade(cfg, p, e, x, limit);
    LongPriced(Slip(cfg.exec), cfg.exec.takerFee, EntrySlip(cfg, limit), EntryFee(cfg, limit), WorstFee(cfg.exec),
      EntryFactor(cfg, p.side, limit), ExitFactor(cfg, p.side), m, c, p.quantity, e.ref, StopDistance(p), x,
      p.entryPrice, fill.price, NetOfFees(p, e, fill), worth, cfg.setup.risk.riskPerTrade, cfg.setup.risk.maxLeverage);
  }

  lemma ShortFactors(s: real, t: real, sE: real, fE: real, fee: real, a: real, b: real)
    requires CostRates(s, t, sE, fE, fee) && a == 1.0 - sE && b == 1.0 + s
    ensures 0.0 <= b * (1.0 + t) <= (1.0 + s) * (1.0 + fee)
    ensures a * (b * (1.0 + t) - (1.0 - fE)) <= 2.0 * (s + fee) && b * (1.0 + t) - a * (1.0 - fE) <= 2.0 * (s + fee)
  {
    ShortCoefficients(s, t, sE, fE, fee);
  }

  lemma ShortPriced(s: real, t: real, sE: real, fE: real, fee: real, a: real, b: real, m: real, c: real, q: real,
                    ref: real, sd: real, x: real, entry: real, out: real, net: real, worth: real, risk: real,
                    leverage: real)
    requires CostRates(s, t, sE, fE, fee) && a == 1.0 - sE && b == 1.0 + s && q > 0.0 && ref > 0.0 && sd > 0.0
    requires c == 2.0 * (s + fee) && b * (1.0 + t) <= m
    requires ShortTerms(q, ref, x, a, b, fE, t, entry, out, net)
    requires x <= entry + sd || x <= ref
    requires q * sd <= worth * risk && ref * q <= leverage * worth
    ensures worth + net >= Remaining(ShareOf(risk, leverage, m, c), worth)
  {
    hide Remaining, ShareOf;
    ShortFactors(s, t, sE, fE, fee, a, b);
    ShortKeeps(q, ref, sd, x, a, fE, b, t, m, c, entry, out, net, worth, risk, leverage);
  }

  lemma ShortNet(cfg: Settings, p: Position, e: Booked, fill: Fill, x: real, limit: bool)
    requires p.side == Short && EnteredAt(cfg, p, e, limit) && LeftAt(cfg, p, fill, x)
    ensures ShortTerms(p.quantity, e.ref, x, EntryFactor(cfg, p.side, limit), ExitFactor(cfg, p.side),
                       EntryFee(cfg, limit),
                       cfg.exec.takerFee, p.entryPrice, fill.price, NetOfFees(p, e, fill))
  {
    hide EntryFactor, ExitFactor, EntryFee;
  }

  lemma ShortTrade(cfg: Settings, p: Position, e: Booked, x: real, limit: bool)
    requires GoodCosts(cfg.exec) && p.side == Short && Admissible(p, e, x)
    ensures CostRates(Slip(cfg.exec), cfg.exec.takerFee, EntrySlip(cfg, limit), EntryFee(cfg, limit),
                      WorstFee(cfg.exec))
    ensures EntryFactor(cfg, p.side, limit) == 1.0 - EntrySlip(cfg, limit) && ExitFactor(cfg, p.side)
            == 1.0 + Slip(cfg.exec)
    ensures x <= p.entryPrice + StopDistance(p) || x <= e.ref
  {}

  lemma ShortShare(cfg: Settings, p: Position, e: Booked, worth: real, fill: Fill, x: real, limit: bool, m: real,
                   c: real)
    requires GoodCosts(cfg.exec) && p.side == Short && p.quantity > 0.0 && e.ref > 0.0 && StopDistance(p) > 0.0
    requires ExitFactor(cfg, p.side) * (1.0 + cfg.exec.takerFee) <= m && c
            == 2.0 * (Slip(cfg.exec) + WorstFee(cfg.exec))
    requires p.quantity * StopDistance(p) <= worth * cfg.setup.risk.riskPerTrade
    requires e.ref * p.quantity <= cfg.setup.risk.maxLeverage * worth
    requires Admissible(p, e, x) && EnteredAt(cfg, p, e, limit) && LeftAt(cfg, p, fill, x)
    ensures worth + NetOfFees(p, e, fill)
            >= Remaining(ShareOf(cfg.setup.risk.riskPerTrade, cfg.setup.risk.maxLeverage, m, c), worth)
  {
    hide *;
    ShortNet(cfg, p, e, fill, x, limit);
    ShortTrade(cfg, p, e, x, limit);
    ShortPriced(Slip(cfg.exec), cfg.exec.takerFee, EntrySlip(cfg, limit), EntryFee(cfg, limit), WorstFee(cfg.exec),
      EntryFactor(cfg, p.side, limit), ExitFactor(cfg, p.side), m, c, p.quantity, e.ref, StopDistance(p), x,
      p.entryPrice, fill.price, NetOfFees(p, e, fill), worth, cfg.setup.risk.riskPerTrade, cfg.setup.risk.maxLeverage);
  }

  /** A round trip left at an admissible price keeps at least (1 - K) of the equity it started from. */
  lemma {:induction false} RoundTripKeepsShare(cfg: Settings, p: Position, e: Booked, worth: real, fill: Fill, x: real)
    requires GoodCosts(cfg.exec) && Bounded(cfg, p, e, worth) && Admissible(p, e, x) && LeftAt(cfg, p, fill, x)
    ensures worth + NetOfFees(p, e, fill) >= Remaining(K(cfg), worth)
  {
    var limit :| EnteredAt(cfg, p, e, limit);
    RoundTripAt(cfg, p, e, worth, fill, x, limit);
  }

  lemma RoundTripAt(cfg: Settings, p: Position, e: Booked, worth: real, fill: Fill, x: real, limit: bool)
    requires GoodCosts(cfg.exec) && p.side != Flat && p.quantity > 0.0 && e.ref > 0.0 && StopDistance(p) > 0.0
    requires p.quantity * StopDistance(p) <= worth * cfg.setup.risk.riskPerTrade
    requires e.ref * p.quantity <= cfg.setup.risk.maxLeverage * worth
    requires Admissible(p, e, x) && EnteredAt(cfg, p, e, limit) && LeftAt(cfg, p, fill, x)
    ensures worth + NetOfFees(p, e, fill) >= Remaining(K(cfg), worth)
  {
    if p.side == Long {
      LongAt(cfg, p, e, worth, fill, x, limit);
    } else {
      ShortAt(cfg, p, e, worth, fill, x, limit);
    }
  }

  lemma LongAt(cfg: Settings, p: Position, e: Booked, worth: real, fill: Fill, x: real, limit: bool)
    requires GoodCosts(cfg.exec) && p.side == Long && p.quantity > 0.0 && e.ref > 0.0 && StopDistance(p) > 0.0
    requires p.quantity * StopDistance(p) <= worth * cfg.setup.risk.riskPerTrade
    requires e.ref * p.quantity <= cfg.setup.risk.maxLeverage * worth
    requires Admissible(p, e, x) && EnteredAt(cfg, p, e, limit) && LeftAt(cfg, p, fill, x)
    ensures worth + NetOfFees(p, e, fill) >= Remaining(K(cfg), worth)
  {
    WeightCovers(cfg, p.side);
    LongShare(cfg, p, e, worth, fill, x, limit, ExitWeight(cfg.exec), 2.0 * (Slip(cfg.exec) + WorstFee(cfg.exec)));
  }

  lemma ShortAt(cfg: Settings, p: Position, e: Booked, worth: real, fill: Fill, x: real, limit: bool)
    requires GoodCosts(cfg.exec) && p.side == Short && p.quantity > 0.0 && e.ref > 0.0 && StopDistance(p) > 0.0
    requires p.quantity * StopDistance(p) <= worth * cfg.setup.risk.riskPerTrade
    requires e.ref * p.quantity <= cfg.setup.risk.maxLeverage * worth
    requires Admissible(p, e, x) && EnteredAt(cfg, p, e, limit) && LeftAt(cfg, p, fill, x)
    ensures worth + NetOfFees(p, e, fill) >= Remaining(K(cfg), worth)
  {
    WeightCovers(cfg, p.side);
    ShortShare(cfg, p, e, worth, fill, x, limit, ExitWeight(cfg.exec), 2.0 * (Slip(cfg.exec) + WorstFee(cfg.exec)));
  }

  lemma WeightCovers(cfg: Settings, side: Side)
    requires GoodCosts(cfg.exec)
    ensures 1.0 <= ExitWeight(cfg.exec)
    ensures side == Short ==> ExitFactor(cfg, side) * (1.0 + cfg.exec.takerFee) <= ExitWeight(cfg.exec)
  {
    ExitShare(Slip(cfg.exec), WorstFee(cfg.exec));
    PaidRange(Slip(cfg.exec), cfg.exec.takerFee, WorstFee(cfg.exec));
  }

  // ---------------------------------------------------------------- every interleaving

  /** Equity when flat; while a position is open, the equity it was entered from. */
  function Worth(b: Book): real {
    b.realized + (if b.position.Some? && b.booked != [] then b.booked[|b.booked| - 1].fill.fee else 0.0)
  }

  predicate Sized(cfg: Settings, e: Eng) {
    e.book.position.Some? ==>
      && e.lastBar.Some? && e.book.booked != []
      && var p, b := e.book.position.value, e.book.booked[|e.book.booked| - 1];
      && Bounded(cfg, p, b, Worth(e.book)) && Admissible(p, b, e.lastBar.value.close)
  }

  /** From one state to the next: nothing closed and equity-before-entry unchanged, or one trade
      closed and at least (1 - K) of it kept. */
  predicate Kept(cfg: Settings, b: Book, b': Book) {
    || (|b'.trades| == |b.trades| && Worth(b') == Worth(b))
    || (|b'.trades| == |b.trades| + 1 && Worth(b') >= Remaining(K(cfg), Worth(b)))
  }

  lemma PaperExitKeeps(cfg: Settings, e: Eng, p: Position, time: int, leave: Leave)
    requires GoodCosts(cfg.exec) && e.book.position == Some(p) && e.book.booked != []
    requires var b := e.book.booked[|e.book.booked| - 1];
             Bounded(cfg, p, b, Worth(e.book)) && Admissible(p, b, leave.price)
    ensures var e' := PaperExit(cfg, e, p, time, leave);
            && e'.Some? && e'.value.book.position.None? && Kept(cfg, e.book, e'.value.book)
            && e' == Some(e.(book := e'.value.book))
  {
    ExitWorth(cfg, e.book, p, time, leave);
  }

  lemma ExitWorth(cfg: Settings, b: Book, p: Position, time: int, leave: Leave)
    requires GoodCosts(cfg.exec) && b.position == Some(p) && b.booked != []
    requires var e := b.booked[|b.booked| - 1]; Bounded(cfg, p, e, Worth(b)) && Admissible(p, e, leave.price)
    ensures var fill := CostModel.ApplyCosts(ExitOrder(p, time), leave.price, cfg.exec);
            Close(b, fill, leave.reason, leave.price).value.realized >= Remaining(K(cfg), Worth(b))
  {
    var fill := CostModel.ApplyCosts(ExitOrder(p, time), leave.price, cfg.exec);
    ExitFillTerms(cfg, p, time, leave.price);
    RoundTripKeepsShare(cfg, p, b.booked[|b.booked| - 1], Worth(b), fill, leave.price);
    ClosedWorth(b, p, fill, leave.reason, leave.price);
  }

  lemma ExitFillTerms(cfg: Settings, p: Position, time: int, x: real)
    ensures LeftAt(cfg, p, CostModel.ApplyCosts(ExitOrder(p, time), x, cfg.exec), x)
  {}

  lemma EntryFillTerms(cfg: Settings, o: Order, x: real)
    ensures var fill := CostModel.ApplyCosts(o, x, cfg.exec);
            && fill.side == o.side && fill.quantity == o.quantity
            && fill.price == x * EntryFactor(cfg, o.side, o.kind == Limit)
            && fill.fee == fill.price * o.quantity * EntryFee(cfg, o.kind == Limit)
  {}

  lemma ClosedWorth(b: Book, p: Position, fill: Fill, reason: Reason, ref: real)
    requires b.position == Some(p) && b.booked != []
    ensures Close(b, fill, reason, ref).value.realized
            == Worth(b) + NetOfFees(p, b.booked[|b.booked| - 1], fill)
  {}

  lemma PaperEntrySized(cfg: Settings, e: Eng, bar: Bar, signal: Option<Signal>, atr: real)
    requires GoodSettings(cfg) && cfg.setup.risk.maxLeverage > 0.0 && WellFormedBar(bar) && e.lastBar == Some(bar)
    requires Decide(cfg, e, bar, signal, atr).Enter?
    ensures var e' := PaperEntry(cfg, e, Decide(cfg, e, bar, signal, atr).order, bar);
            && e'.Some? && Sized(cfg, e'.value) && e'.value.book.position.Some?
            && Kept(cfg, e.book, e'.value.book) && e'.value.lastBar == e.lastBar
  {
    DecidedEntry(cfg, e, bar, signal, atr);
    EntryBounded(cfg, Decide(cfg, e, bar, signal, atr).order, bar, e.book.realized);
  }

  lemma EntryBounded(cfg: Settings, o: Order, bar: Bar, equity: real)
    requires o.side != Flat && o.quantity > 0.0 && o.stopDistance > 0.0 && o.tpDistance > 0.0 && equity > 0.0
    requires bar.close > 0.0 && cfg.setup.risk.maxLeverage > 0.0
    requires Risk.WithinCaps(cfg.setup.risk, bar.close, equity, o.stopDistance, o.quantity)
    ensures var fill := CostModel.ApplyCosts(o, bar.close, cfg.exec);
            var p := OpenedPosition(fill, o.stopDistance, o.tpDistance, o.maxHoldBars);
            Bounded(cfg, p, Booked(fill, bar.close), equity) && Admissible(p, Booked(fill, bar.close), bar.close)
  {
    var fill := CostModel.ApplyCosts(o, bar.close, cfg.exec);
    var p, b := OpenedPosition(fill, o.stopDistance, o.tpDistance, o.maxHoldBars), Booked(fill, bar.close);
    EntryFillTerms(cfg, o, bar.close);
    assert StopDistance(p) == o.stopDistance;
    assert EnteredAt(cfg, p, b, o.kind == Limit);
  }

  /** A bar ends a position at an admissible price, or closes at one. */
  lemma BarIsAdmissible(cfg: Settings, p: Position, e: Booked, worth: real, bar: Bar)
    requires Bounded(cfg, p, e, worth) && WellFormedBar(bar)
    ensures Admissible(p, e, if BarrierExit(p, bar).Some? then BarrierExit(p, bar).value.price else bar.close)
  {}

  lemma ArrivalKeeps(cfg: Settings, s: Sys, bar: Bar)
    requires FloorSettings(cfg) && WellFormedBar(bar) && s.bar == Idle && Typed(s) && Instant(s) && Sized(cfg, s.eng)
    ensures var s' := OnArrival(cfg, s, bar);
            Instant(s') && Sized(cfg, s'.eng) && Kept(cfg, s.eng.book, s'.eng.book)
  {
    hide Bounded, Admissible, K, Remaining, ClosedTrade, CostModel.ApplyCosts, PaperExit, BarrierExit;
    if s.eng.book.position.Some? {
      var p, entry := s.eng.book.position.value, s.eng.book.booked[|s.eng.book.booked| - 1];
      var q, e1 := Aged(p), Arrived(s.eng, bar);
      SameEntry(cfg, p, q, entry, Worth(s.eng.book));
      BarIsAdmissible(cfg, q, entry, Worth(s.eng.book), bar);
      if ArrivalExit(s.eng, bar).Some? {
        PaperExitKeeps(cfg, e1, q, bar.time, ArrivalExit(s.eng, bar).value);
      } else {
        SameEntry(cfg, q, Excursion(q, bar.high, bar.low), entry, Worth(s.eng.book));
      }
    }
  }

  /** Bookkeeping fields play no part in the bounds. */
  lemma SameEntry(cfg: Settings, p: Position, q: Position, e: Booked, worth: real)
    requires Bounded(cfg, p, e, worth)
    requires q == p.(barsHeld := q.barsHeld, mfe := q.mfe, mae := q.mae)
    ensures Bounded(cfg, q, e, worth)
    ensures forall x :: Admissible(q, e, x) == Admissible(p, e, x)
  {
    var limit :| EnteredAt(cfg, p, e, limit);
    assert EnteredAt(cfg, q, e, limit);
  }

  lemma FlattenKeeps(cfg: Settings, s: Sys)
    requires FloorSettings(cfg) && Typed(s) && Instant(s) && Sized(cfg, s.eng)
    ensures var s' := OnFlatten(cfg, s);
            Instant(s') && Sized(cfg, s'.eng) && Kept(cfg, s.eng.book, s'.eng.book)
  {
    var leave := FlattenExit(s.eng);
    var n := |s.flats|;
    if leave.Some? {
      PaperExitKeeps(cfg, s.eng.(halted := true), s.eng.book.position.value, s.eng.lastBar.value.time, leave.value);
    }
    var s' := OnFlatten(cfg, s);
    assert !Critical(s'.flats[n]) && forall k :: 0 <= k < n ==> s'.flats[k] == s.flats[k];
  }

  lemma TickKeeps(cfg: Settings, s: Sys, t: Task, out: Outcome)
    requires FloorSettings(cfg) && Sized(cfg, s.eng)
    requires s.eng.lastBar.Some? ==> WellFormedBar(s.eng.lastBar.value)
    requires !Critical(t) && !t.EntryOrdered? && (FlatTask(t) || BarTask(s.eng, t))
    ensures var (s', t') := Tick(cfg, s, t, out);
            && !Critical(t') && !t'.EntryOrdered? && s'.bar == s.bar && s'.flats == s.flats
            && Sized(cfg, s'.eng) && Kept(cfg, s.eng.book, s'.eng.book)
  {
    hide Bounded, Admissible, K, Remaining, ClosedTrade, OpenedPosition, CostModel.ApplyCosts, Equity, Risk.SizeOrder,
         PaperExit, PaperEntry;
    PaperTick(cfg, s, t, out);
    if t.Observing? && out.Observed? {
      match Decide(cfg, s.eng, t.bar, out.signal, out.atr)
      case Enter(order) => PaperEntrySized(cfg, s.eng, t.bar, out.signal, out.atr);
      case Exit(leave) => PaperExitKeeps(cfg, s.eng, s.eng.book.position.value, t.bar.time, leave);
      case Stay =>
    }
  }

  /** Bars of the run are well formed and no exchange position is adopted. */
  predicate PaperEvent(ev: Event) {
    !ev.Adopt? && (ev.BarArrives? ==> WellFormedBar(ev.bar))
  }

  ghost predicate FloorInv(cfg: Settings, s: Sys) {
    && Typed(s) && Instant(s) && Sized(cfg, s.eng)
    && (s.eng.lastBar.Some? ==> WellFormedBar(s.eng.lastBar.value))
  }

  lemma StepKeeps(cfg: Settings, s: Sys, ev: Event)
    requires FloorSettings(cfg) && FloorInv(cfg, s) && PaperEvent(ev)
    ensures FloorInv(cfg, Step(cfg, s, ev))
    ensures Kept(cfg, s.eng.book, Step(cfg, s, ev).eng.book)
  {
    StepTyped(cfg, s, ev);
    match ev {
      case BarTick(out) =>
        TickKeeps(cfg, s, s.bar, out);
        BarTickTyped(cfg, s, out);
      case FlatTick(k, out) =>
        if k < |s.flats| {
          TickKeeps(cfg, s, s.flats[k], out);
          FlatTickTyped(cfg, s, s.flats[k], out);
        }
      case BarArrives(bar) =>
        if s.bar == Idle { ArrivalKeeps(cfg, s, bar); ArrivalTyped(cfg, s, bar); }
      case FlattenStarts =>
        FlattenKeeps(cfg, s);
        FlattenTyped(cfg, s);
      case _ =>
    }
  }

  /** `start` after `n` steps that each keep the share `kept`. */
  function Compounded(start: real, kept: real, n: nat): real {
    if n == 0 then start else kept * Compounded(start, kept, n - 1)
  }

  lemma {:induction false} CompoundedIsPower(start: real, kept: real, n: nat)
    ensures Compounded(start, kept, n) == start * Power(kept, n)
  {
    if n > 0 {
      CompoundedIsPower(start, kept, n - 1);
      assert kept * (start * Power(kept, n - 1)) == start * (kept * Power(kept, n - 1));
    }
  }

  lemma {:induction false} RunKeeps(cfg: Settings, es: seq<Event>)
    requires FloorSettings(cfg) && forall i :: 0 <= i < |es| ==> PaperEvent(es[i])
    ensures FloorInv(cfg, Reached(cfg, es))
    ensures var b := Reached(cfg, es).eng.book;
            Worth(b) >= Compounded(cfg.accountEquity, 1.0 - K(cfg), |b.trades|)
  {
    if es != [] {
      var n := |es| - 1;
      RunKeeps(cfg, es[..n]);
      StepKeeps(cfg, Reached(cfg, es[..n]), es[n]);
      KeptCompounds(cfg, Reached(cfg, es[..n]).eng.book, Reached(cfg, es).eng.book);
    }
  }

  lemma KeptCompounds(cfg: Settings, b: Book, b': Book)
    requires Kept(cfg, b, b') && K(cfg) <= 1.0
    requires Worth(b) >= Compounded(cfg.accountEquity, 1.0 - K(cfg), |b.trades|)
    ensures Worth(b') >= Compounded(cfg.accountEquity, 1.0 - K(cfg), |b'.trades|)
  {
    if |b'.trades| != |b.trades| {
      ScaleLe(Compounded(cfg.accountEquity, 1.0 - K(cfg), |b.trades|), Worth(b), 1.0 - K(cfg));
    }
  }

  /** The whole-run loss floor: with paper fills and well-formed bars, over every interleaving of bars,
      flattens, resumes and store failures, an engine that is flat after N round trips still has at
      least (1 - K)^N of its starting equity. */
  lemma LossFloor(cfg: Settings, es: seq<Event>)
    requires FloorSettings(cfg) && forall i :: 0 <= i < |es| ==> PaperEvent(es[i])
    ensures var b := Reached(cfg, es).eng.book;
            b.position.None? ==> b.realized >= cfg.accountEquity * Power(1.0 - K(cfg), |b.trades|)
  {
    RunKeeps(cfg, es);
    CompoundedIsPower(cfg.accountEquity, 1.0 - K(cfg), |Reached(cfg, es).eng.book.trades|);
  }
}
