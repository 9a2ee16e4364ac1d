/** The constant-product pool: integer joins, exits and swaps, all rounded against the caller. */
module ConstantProduct {

  datatype Error =
    | AmountNotPositive
    | WrongDenom
    | InsufficientBalance
    | DivisionByZero
    | NothingAdded
    | NoShares
    | SupplyMismatch
    | DustExit
    | OutputTooSmall
    | ReserveDepleted
    | NotFound
    | EmptyPath
    | BelowMinimum

  datatype Result<T> = Ok(value: T) | Err(error: Error)

  datatype Pool = Pool(denom1: string, denom2: string, b1: nat, b2: nat, shares: nat, sharesDenom: string, trades: nat)

  datatype Joined = Joined(pool: Pool, added1: nat, added2: nat, shares: nat)
  datatype Exited = Exited(pool: Pool, out1: nat, out2: nat)
  datatype Swapped = Swapped(pool: Pool, out: nat, denom: string)

  function FloorDiv(n: nat, d: nat): nat
    requires d > 0
  {
    n / d
  }

  function CeilDiv(n: nat, d: nat): nat
    requires d > 0
  {
    (n + d - 1) / d
  }

  function Min(a: nat, b: nat): nat {
    if a < b then a else b
  }

  /** Joining with sent coins: what is kept keeps the pool's ratio (the rest is refunded) and mints shares. */
  function Join(p: Pool, sent1: int, sent2: int): Result<Joined> {
    if sent1 <= 0 || sent2 <= 0 then Err(AmountNotPositive)
    else if p.b1 == 0 || p.b2 == 0 then Err(DivisionByZero)
    else
      var correct1 := CeilDiv(sent2 * p.b1, p.b2);
      var correct2 := CeilDiv(sent1 * p.b2, p.b1);
      var refund1 := if sent1 > correct1 then sent1 - correct1 else 0;
      var refund2 := if sent2 > correct2 then sent2 - correct2 else 0;
      var added1 := sent1 - refund1;
      var added2 := sent2 - refund2;
      if added1 <= 0 || added2 <= 0 then Err(NothingAdded)
      else
        var minted := Min(FloorDiv(added1 * p.shares, p.b1), FloorDiv(added2 * p.shares, p.b2));
        if minted <= 0 then Err(NoShares)
        else Ok(Joined(p.(b1 := p.b1 + added1, b2 := p.b2 + added2, shares := p.shares + minted), added1, added2, minted))
  }

  /** Leaving with some of the pool's shares: each reserve pays its floored proportion. */
  function Exit(p: Pool, amount: int): (r: Result<Exited>)
    requires amount <= p.shares
  {
    if amount <= 0 then Err(AmountNotPositive)
    else
      ProportionFits(amount, p.b1, p.shares);
      ProportionFits(amount, p.b2, p.shares);
      var out1 := FloorDiv(amount * p.b1, p.shares);
      var out2 := FloorDiv(amount * p.b2, p.shares);
      if out1 <= 0 && out2 <= 0 then Err(DustExit)
      else Ok(Exited(p.(b1 := p.b1 - out1, b2 := p.b2 - out2, shares := p.shares - amount), out1, out2))
  }

  /** One hop of a swap: the reserve paid out is rounded up to keep the product. */
  function Swap(p: Pool, denom: string, amount: nat): Result<Swapped> {
    var k := p.b1 * p.b2;
    if denom == p.denom1 then
      var newIn := p.b1 + amount;
      if newIn == 0 then Err(DivisionByZero)
      else
        var out := p.b2 - CeilDiv(k, newIn);
        if out <= 0 then Err(OutputTooSmall)
        else
          var p' := p.(b1 := newIn, b2 := p.b2 - out, trades := p.trades + 1);
          if p'.b1 <= 0 || p'.b2 <= 0 then Err(ReserveDepleted) else Ok(Swapped(p', out, p.denom2))
    else if denom == p.denom2 then
      var newIn := p.b2 + amount;
      if newIn == 0 then Err(DivisionByZero)
      else
        var out := p.b1 - CeilDiv(k, newIn);
        if out <= 0 then Err(OutputTooSmall)
        else
          var p' := p.(b1 := p.b1 - out, b2 := newIn, trades := p.trades + 1);
          if p'.b1 <= 0 || p'.b2 <= 0 then Err(ReserveDepleted) else Ok(Swapped(p', out, p.denom1))
    else Err(WrongDenom)
  }

  // ---- arithmetic ----

  lemma FloorDivBounds(n: nat, d: nat)
    requires d > 0
    ensures FloorDiv(n, d) * d <= n < FloorDiv(n, d) * d + d
  {
  }

  lemma CeilDivBounds(n: nat, d: nat)
    requires d > 0
    ensures n <= CeilDiv(n, d) * d < n + d
  {
  }

  /** The rounded-up quotient is the least m with m * d >= n. */
  lemma CeilDivLeast(n: nat, d: nat, m: nat)
    requires d > 0 && m * d >= n
    ensures CeilDiv(n, d) <= m
  {
    CeilDivBounds(n, d);
    assert (m + 1) * d == m * d + d;
    LessFactor(CeilDiv(n, d), m + 1, d);
  }

  lemma ProportionFits(amount: nat, reserve: nat, total: nat)
    requires 0 < total && amount <= total
    ensures FloorDiv(amount * reserve, total) <= reserve
    ensures amount == total ==> FloorDiv(amount * reserve, total) == reserve
  {
    FloorDivBounds(amount * reserve, total);
    var out := FloorDiv(amount * reserve, total);
    Times(amount, total, reserve);
    assert (reserve + 1) * total == total * reserve + total;
    LessFactor(out, reserve + 1, total);
    if amount == total {
      assert (out + 1) * total == out * total + total;
      assert reserve * total == amount * reserve;
      LessFactor(reserve, out + 1, total);
    }
  }

  lemma Times(a: int, b: int, c: int)
    requires a <= b && c >= 0
    ensures a * c <= b * c
  {
  }

  lemma TimesBoth(a: nat, b: nat, c: nat, d: nat)
    requires a <= b && c <= d
    ensures a * c <= b * d
  {
    Times(a, b, c);
    Times(c, d, b);
  }

  lemma LessFactor(a: int, b: int, c: int)
    requires c > 0 && a * c < b * c
    ensures a < b
  {
    if b <= a {
      Times(b, a, c);
    }
  }

  lemma CancelFactor(a: int, b: int, c: int)
    requires c > 0 && a * c <= b * c
    ensures a <= b
  {
  }

  /** (x·y)·(z·z) as a product of x·z and y·z. */
  lemma Regroup(x: int, y: int, z: int)
    ensures x * y * (z * z) == (x * z) * (y * z)
  {
    calc {
      x * y * (z * z);
      x * (y * z) * z;
      (x * z) * (y * z);
    }
  }

  // ---- value per share ----

  /** b1·b2 / shares² of q is at least that of p, cross-multiplied. */
  ghost predicate ValueAtLeast(q: Pool, p: Pool) {
    q.b1 * q.b2 * (p.shares * p.shares) >= p.b1 * p.b2 * (q.shares * q.shares)
  }

  /** A pool with shares has both reserves; one without shares has neither. */
  ghost predicate Sound(p: Pool) {
    && p.denom1 != p.denom2
    && (p.shares > 0 ==> p.b1 > 0 && p.b2 > 0)
    && (p.shares == 0 ==> p.b1 == 0 && p.b2 == 0)
  }

  lemma ValueFromReserves(q: Pool, p: Pool)
    requires q.b1 * p.shares >= p.b1 * q.shares && q.b2 * p.shares >= p.b2 * q.shares
    ensures ValueAtLeast(q, p)
  {
    Regroup(q.b1, q.b2, p.shares);
    Regroup(p.b1, p.b2, q.shares);
    TimesBoth(p.b1 * q.shares, q.b1 * p.shares, p.b2 * q.shares, q.b2 * p.shares);
  }

  lemma SharesCovered(reserve: nat, added: nat, total: nat, minted: nat)
    requires reserve > 0 && minted <= FloorDiv(added * total, reserve)
    ensures minted * reserve <= added * total
    ensures (reserve + added) * total >= reserve * (total + minted)
  {
    FloorDivBounds(added * total, reserve);
    Times(minted, FloorDiv(added * total, reserve), reserve);
    assert (reserve + added) * total == reserve * total + added * total;
    assert reserve * (total + minted) == reserve * total + minted * reserve;
  }

  /** A join never costs the shares already there: each reserve per share, hence the pool's value per share, is at
      least what it was; and it keeps no more of either coin than was sent. */
  lemma JoinKeepsValue(p: Pool, sent1: int, sent2: int)
    requires Sound(p) && Join(p, sent1, sent2).Ok?
    ensures var j := Join(p, sent1, sent2).value;
      && Sound(j.pool) && ValueAtLeast(j.pool, p)
      && 0 < j.added1 <= sent1 && 0 < j.added2 <= sent2
      && j.pool.b1 == p.b1 + j.added1 && j.pool.b2 == p.b2 + j.added2
      && j.pool.shares == p.shares + j.shares && j.shares > 0
  {
    var j := Join(p, sent1, sent2).value;
    SharesCovered(p.b1, j.added1, p.shares, j.shares);
    SharesCovered(p.b2, j.added2, p.shares, j.shares);
    ValueFromReserves(j.pool, p);
  }

  lemma ProportionLeft(amount: nat, reserve: nat, total: nat)
    requires 0 < total && amount <= total
    ensures FloorDiv(amount * reserve, total) <= reserve
    ensures (reserve - FloorDiv(amount * reserve, total)) * total >= reserve * (total - amount)
  {
    ProportionFits(amount, reserve, total);
    FloorDivBounds(amount * reserve, total);
    var out := FloorDiv(amount * reserve, total);
    assert (reserve - out) * total == reserve * total - out * total;
    assert reserve * (total - amount) == reserve * total - amount * reserve;
  }

  /** An exit pays at most its share of each reserve, and leaving with every share empties both reserves exactly. */
  lemma ExitKeepsValue(p: Pool, amount: int)
    requires Sound(p) && amount <= p.shares && Exit(p, amount).Ok?
    ensures var e := Exit(p, amount).value;
      && Sound(e.pool) && ValueAtLeast(e.pool, p)
      && e.out1 * p.shares <= amount * p.b1 && e.out2 * p.shares <= amount * p.b2
      && (amount == p.shares ==> e.pool.b1 == 0 && e.pool.b2 == 0 && e.pool.shares == 0)
      && (amount < p.shares ==> e.pool.b1 > 0 && e.pool.b2 > 0)
  {
    var e := Exit(p, amount).value;
    FloorDivBounds(amount * p.b1, p.shares);
    FloorDivBounds(amount * p.b2, p.shares);
    ProportionLeft(amount, p.b1, p.shares);
    ProportionLeft(amount, p.b2, p.shares);
    ValueFromReserves(e.pool, p);
    ProportionFits(amount, p.b1, p.shares);
    ProportionFits(amount, p.b2, p.shares);
    if amount < p.shares {
      PositiveProduct(p.b1, p.shares - amount);
      PositiveProduct(p.b2, p.shares - amount);
      if e.pool.b1 == 0 || e.pool.b2 == 0 {
        assert false;
      }
    }
  }

  lemma PositiveProduct(a: nat, b: nat)
    requires a > 0 && b > 0
    ensures a * b > 0
  {
  }

  /** The amounts of one hop, by side: reserve in, reserve out. */
  function Paid(rin: nat, rout: nat, amount: nat): int
    requires rin + amount > 0
  {
    rout - CeilDiv(rin * rout, rin + amount)
  }

  /** The reserves on the side of denom and on the other side. */
  function ReserveIn(p: Pool, denom: string): nat {
    if denom == p.denom1 then p.b1 else p.b2
  }

  function ReserveOut(p: Pool, denom: string): nat {
    if denom == p.denom1 then p.b2 else p.b1
  }

  function OtherDenom(p: Pool, denom: string): string {
    if denom == p.denom1 then p.denom2 else p.denom1
  }

  /** After a hop the paying reserve is the least that keeps the product, and it is never empty. */
  lemma PaidBounds(rin: nat, rout: nat, amount: nat)
    requires rin > 0 && rout > 0
    ensures 0 <= Paid(rin, rout, amount) < rout
    ensures (rin + amount) * (rout - Paid(rin, rout, amount)) >= rin * rout
  {
    var c := CeilDiv(rin * rout, rin + amount);
    CeilDivBounds(rin * rout, rin + amount);
    PositiveProduct(rin, rout);
    if c <= 0 {
      assert false;
    }
    Times(rin, rin + amount, rout);
    CeilDivLeast(rin * rout, rin + amount, rout);
  }

  /** A swap keeps the product of the reserves from falling and leaves every reserve at least 1: given a pool with
      reserves, the depletion guard is dead code. */
  lemma SwapKeepsValue(p: Pool, denom: string, amount: nat)
    requires Sound(p)
    ensures Swap(p, denom, amount) != Err(ReserveDepleted)
    ensures Swap(p, denom, amount).Ok? ==>
      var s := Swap(p, denom, amount).value;
      && Sound(s.pool) && ValueAtLeast(s.pool, p) && s.pool.shares == p.shares > 0
      && s.pool.b1 * s.pool.b2 >= p.b1 * p.b2 > 0
      && denom in {p.denom1, p.denom2} && s.denom == OtherDenom(p, denom)
      && s.pool.denom1 == p.denom1 && s.pool.denom2 == p.denom2 && s.pool.sharesDenom == p.sharesDenom
      && ReserveIn(s.pool, denom) == ReserveIn(p, denom) + amount
      && ReserveOut(s.pool, denom) == ReserveOut(p, denom) - s.out
      && s.out == Paid(ReserveIn(p, denom), ReserveOut(p, denom), amount) > 0
  {
    if p.shares == 0 {
      if amount > 0 {
        assert CeilDiv(0, amount) >= 0;
      }
    } else {
      PaidBounds(p.b1, p.b2, amount);
      PaidBounds(p.b2, p.b1, amount);
      PositiveProduct(p.b1, p.b2);
      if Swap(p, denom, amount).Ok? {
        var q := Swap(p, denom, amount).value.pool;
        Times(p.b1 * p.b2, q.b1 * q.b2, p.shares * p.shares);
      }
    }
  }

  // ---- runs ----

  datatype Op = JoinOp(sent1: int, sent2: int) | ExitOp(amount: int) | SwapOp(denom: string, input: nat)

  /** A call that fails is reverted and leaves the pool as it was. */
  function Step(p: Pool, op: Op): Pool {
    match op
    case JoinOp(s1, s2) => (match Join(p, s1, s2) case Ok(j) => j.pool case Err(_) => p)
    case ExitOp(amount) =>
      if amount > p.shares then p else (match Exit(p, amount) case Ok(e) => e.pool case Err(_) => p)
    case SwapOp(denom, amount) => (match Swap(p, denom, amount) case Ok(s) => s.pool case Err(_) => p)
  }

  function Run(p: Pool, ops: seq<Op>): Pool
    decreases |ops|
  {
    if ops == [] then p else Run(Step(p, ops[0]), ops[1..])
  }

  lemma StepKeepsValue(p: Pool, op: Op)
    requires Sound(p)
    ensures Sound(Step(p, op)) && ValueAtLeast(Step(p, op), p)
    ensures p.shares == 0 ==> Step(p, op) == p
  {
    match op
    case JoinOp(s1, s2) => if Join(p, s1, s2).Ok? { JoinKeepsValue(p, s1, s2); }
    case ExitOp(amount) => if amount <= p.shares && Exit(p, amount).Ok? { ExitKeepsValue(p, amount); }
    case SwapOp(denom, amount) => SwapKeepsValue(p, denom, amount);
  }

  lemma ValueTransitive(r: Pool, q: Pool, p: Pool)
    requires ValueAtLeast(r, q) && ValueAtLeast(q, p) && q.shares > 0
    ensures ValueAtLeast(r, p)
  {
    var P, Q, R := p.b1 * p.b2, q.b1 * q.b2, r.b1 * r.b2;
    var tp, tq, tr := p.shares * p.shares, q.shares * q.shares, r.shares * r.shares;
    PositiveProduct(q.shares, q.shares);
    Times(Q * tr, R * tq, tp);
    Times(P * tq, Q * tp, tr);
    assert R * tq * tp == R * tp * tq;
    assert P * tq * tr == P * tr * tq;
    assert Q * tr * tp == Q * tp * tr;
    CancelFactor(P * tr, R * tp, tq);
  }

  /** Over every run of joins, exits and swaps the pool's value per share never falls, a pool with shares has both
      reserves positive, and a pool all of whose shares have left is empty. */
  lemma {:induction false} ValueNeverFalls(p: Pool, ops: seq<Op>)
    requires Sound(p)
    ensures Sound(Run(p, ops)) && ValueAtLeast(Run(p, ops), p)
    decreases |ops|
  {
    if ops != [] {
      var q := Step(p, ops[0]);
      StepKeepsValue(p, ops[0]);
      ValueNeverFalls(q, ops[1..]);
      if q.shares > 0 {
        ValueTransitive(Run(p, ops), q, p);
      } else {
        EmptyStaysEmpty(q, ops[1..]);
      }
    }
  }

  lemma {:induction false} EmptyStaysEmpty(p: Pool, ops: seq<Op>)
    requires Sound(p) && p.shares == 0
    ensures Run(p, ops) == p
    decreases |ops|
  {
    if ops != [] {
      StepKeepsValue(p, ops[0]);
      EmptyStaysEmpty(p, ops[1..]);
    }
  }

  // ---- no profit from rounding ----

  lemma RefundedAtMost(reserve: nat, added: nat, total: nat, minted: nat)
    requires reserve > 0 && total + minted > 0 && minted * reserve <= added * total
    ensures FloorDiv(minted * (reserve + added), total + minted) <= added
  {
    var n := minted * (reserve + added);
    assert n == minted * reserve + minted * added;
    assert added * (total + minted) == added * total + added * minted;
    FloorDivBounds(n, total + minted);
    var out := FloorDiv(n, total + minted);
    assert (added + 1) * (total + minted) == added * (total + minted) + (total + minted);
    LessFactor(out, added + 1, total + minted);
  }

  /** Joining and leaving at once returns at most what the join kept of each coin. */
  lemma JoinThenExit(p: Pool, sent1: int, sent2: int)
    requires Sound(p) && Join(p, sent1, sent2).Ok?
    ensures var j := Join(p, sent1, sent2).value;
      Exit(j.pool, j.shares).Ok? ==>
      && Exit(j.pool, j.shares).value.out1 <= j.added1
      && Exit(j.pool, j.shares).value.out2 <= j.added2
  {
    var j := Join(p, sent1, sent2).value;
    SharesCovered(p.b1, j.added1, p.shares, j.shares);
    SharesCovered(p.b2, j.added2, p.shares, j.shares);
    RefundedAtMost(p.b1, j.added1, p.shares, j.shares);
    RefundedAtMost(p.b2, j.added2, p.shares, j.shares);
  }

  /** With the product not fallen, paying back the whole output buys at most the input. */
  lemma BackAtMost(rin: nat, rout: nat, amount: nat)
    requires rin > 0 && rout > 0
    requires 0 <= Paid(rin, rout, amount) < rout
    ensures Paid(rout - Paid(rin, rout, amount), rin + amount, Paid(rin, rout, amount)) <= amount
  {
    var out := Paid(rin, rout, amount);
    PaidBounds(rin, rout, amount);
    var k := (rout - out) * (rin + amount);
    var c := CeilDiv(k, rout);
    CeilDivBounds(k, rout);
    assert c * rout >= rin * rout;
    CancelFactor(rin, c, rout);
  }

  /** Swapping there and back returns at most the input. */
  lemma ThereAndBack(p: Pool, denom: string, amount: nat)
    requires Sound(p) && Swap(p, denom, amount).Ok?
    ensures var there := Swap(p, denom, amount).value;
      var back := Swap(there.pool, there.denom, there.out);
      back.Ok? ==> back.value.out <= amount && back.value.denom == denom
  {
    SwapKeepsValue(p, denom, amount);
    hide Swap;
    var there := Swap(p, denom, amount).value;
    SwapKeepsValue(there.pool, there.denom, there.out);
    BackAtMost(ReserveIn(p, denom), ReserveOut(p, denom), amount);
  }

  function Sum(amounts: seq<nat>): nat {
    if amounts == [] then 0 else amounts[0] + Sum(amounts[1..])
  }

  /** The total output of swaps made one after the other in the same direction; all must succeed. */
  function SwapAll(p: Pool, denom: string, amounts: seq<nat>): Result<Swapped>
    decreases |amounts|
  {
    if amounts == [] then Ok(Swapped(p, 0, denom))
    else
      match Swap(p, denom, amounts[0])
      case Err(e) => Err(e)
      case Ok(first) =>
        match SwapAll(first.pool, denom, amounts[1..])
        case Err(e) => Err(e)
        case Ok(rest) => Ok(Swapped(rest.pool, first.out + rest.out, rest.denom))
  }

  function Product(p: Pool): nat {
    p.b1 * p.b2
  }

  /** What one hop does to the two reserves, with the product of the reserves as one number. */
  lemma SwapReserves(p: Pool, denom: string, amount: nat)
    requires Sound(p) && Swap(p, denom, amount).Ok?
    ensures var s := Swap(p, denom, amount).value;
      && Sound(s.pool) && s.pool.denom1 == p.denom1 && s.pool.denom2 == p.denom2
      && ReserveIn(s.pool, denom) == ReserveIn(p, denom) + amount
      && ReserveOut(s.pool, denom) == ReserveOut(p, denom) - s.out
      && Product(s.pool) >= Product(p)
  {
    SwapKeepsValue(p, denom, amount);
    hide Swap;
  }

  lemma {:induction false} SwapAllReserves(p: Pool, denom: string, amounts: seq<nat>)
    requires Sound(p) && SwapAll(p, denom, amounts).Ok?
    ensures var all := SwapAll(p, denom, amounts).value;
      && Sound(all.pool) && all.pool.denom1 == p.denom1 && all.pool.denom2 == p.denom2
      && ReserveIn(all.pool, denom) == ReserveIn(p, denom) + Sum(amounts)
      && ReserveOut(all.pool, denom) == ReserveOut(p, denom) - all.out
      && Product(all.pool) >= Product(p)
    decreases |amounts|
  {
    hide Swap, Sound, Product, ReserveIn, ReserveOut;
    if amounts != [] {
      var first := Swap(p, denom, amounts[0]).value;
      SwapReserves(p, denom, amounts[0]);
      SwapAllReserves(first.pool, denom, amounts[1..]);
    }
  }

  lemma ProductBySide(p: Pool, denom: string)
    ensures Product(p) == ReserveIn(p, denom) * ReserveOut(p, denom)
  {
  }

  lemma SwapOutput(p: Pool, denom: string, amount: nat)
    requires Sound(p) && Swap(p, denom, amount).Ok?
    ensures ReserveIn(p, denom) + amount > 0
    ensures Swap(p, denom, amount).value.out
         == ReserveOut(p, denom) - CeilDiv(Product(p), ReserveIn(p, denom) + amount)
  {
    SwapKeepsValue(p, denom, amount);
    hide Swap;
    ProductBySide(p, denom);
  }

  /** A swap of a coin of the pool succeeds when it pays something. */
  lemma SwapSucceeds(p: Pool, denom: string, amount: nat)
    requires Sound(p) && p.shares > 0 && denom in {p.denom1, p.denom2}
    requires ReserveOut(p, denom) > CeilDiv(Product(p), ReserveIn(p, denom) + amount)
    ensures Swap(p, denom, amount).Ok?
  {
    ProductBySide(p, denom);
    PaidBounds(p.b1, p.b2, amount);
    PaidBounds(p.b2, p.b1, amount);
  }

  lemma FirstSwap(p: Pool, denom: string, amounts: seq<nat>)
    requires Sound(p) && SwapAll(p, denom, amounts).Ok? && amounts != []
    ensures p.shares > 0 && denom in {p.denom1, p.denom2} && SwapAll(p, denom, amounts).value.out > 0
  {
    SwapKeepsValue(p, denom, amounts[0]);
    hide Swap;
  }

  /** Splitting one swap into any number of swaps in the same direction never yields more in total: when the split succeeds, the
      single swap succeeds too and pays at least as much. */
  lemma SplittingNeverGains(p: Pool, denom: string, amounts: seq<nat>)
    requires Sound(p) && SwapAll(p, denom, amounts).Ok? && amounts != []
    ensures Swap(p, denom, Sum(amounts)).Ok?
    ensures SwapAll(p, denom, amounts).value.out <= Swap(p, denom, Sum(amounts)).value.out
  {
    hide *;
    var all := SwapAll(p, denom, amounts).value;
    FirstSwap(p, denom, amounts);
    SwapAllReserves(p, denom, amounts);
    ProductBySide(all.pool, denom);
    assert ReserveOut(all.pool, denom) * (ReserveIn(p, denom) + Sum(amounts)) >= Product(p);
    InPositive(p, denom);
    CeilDivLeast(Product(p), ReserveIn(p, denom) + Sum(amounts), ReserveOut(all.pool, denom));
    SwapSucceeds(p, denom, Sum(amounts));
    SwapOutput(p, denom, Sum(amounts));
  }

  lemma InPositive(p: Pool, denom: string)
    requires Sound(p) && p.shares > 0
    ensures ReserveIn(p, denom) > 0
  {
  }
}
