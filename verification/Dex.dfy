/** The DEX's pools and the script's balance behind them: creating, joining, leaving, and swapping along a path. */
module Dex {
  import opened Options
  import opened Totals
  import opened Bank
  import opened ConstantProduct
  import Keys

  const SCRIPT: Address := "script"
  const DYS_NAME := "whaleswap.dys"
  const INITIAL_SHARES := 100000

  type Pools = map<nat, Pool>

  ghost predicate AllSound(pools: Pools) {
    forall id :: id in pools ==> Sound(pools[id])
  }

  /** How much of a denom a pool counts among its reserves. */
  function HeldIn(d: Denom): Pool -> int {
    (p: Pool) => (if p.denom1 == d then p.b1 else 0) + (if p.denom2 == d then p.b2 else 0)
  }

  ghost function Reserve(pools: Pools, d: Denom): int {
    Total(pools, HeldIn(d))
  }

  function At(e: Denom, d: Denom, x: int): int {
    if e == d then x else 0
  }

  // ---- swapping along a path ----

  datatype Route = Route(pools: Pools, amount: nat, denom: Denom)

  function SwapPath(pools: Pools, path: seq<nat>, amount: nat, denom: Denom): Result<Route>
    decreases |path|
  {
    if path == [] then Ok(Route(pools, amount, denom))
    else if path[0] !in pools then Err(NotFound)
    else
      match Swap(pools[path[0]], denom, amount)
      case Err(e) => Err(e)
      case Ok(s) => SwapPath(pools[path[0] := s.pool], path[1..], s.out, s.denom)
  }

  lemma PoolChangesReserve(pools: Pools, id: nat, p: Pool, e: Denom)
    ensures Reserve(pools[id := p], e)
         == Reserve(pools, e) + HeldIn(e)(p) - if id in pools then HeldIn(e)(pools[id]) else 0
  {
    TotalPut(pools, HeldIn(e), id, p);
  }

  lemma HopConserves(pools: Pools, id: nat, amount: nat, denom: Denom, e: Denom)
    requires AllSound(pools) && id in pools && Swap(pools[id], denom, amount).Ok?
    ensures var s := Swap(pools[id], denom, amount).value;
      && AllSound(pools[id := s.pool]) && s.out > 0
      && Reserve(pools[id := s.pool], e) == Reserve(pools, e) + At(e, denom, amount) - At(e, s.denom, s.out)
  {
    SwapKeepsValue(pools[id], denom, amount);
    hide Swap, ValueAtLeast, Paid;
    PoolChangesReserve(pools, id, Swap(pools[id], denom, amount).value.pool, e);
  }

  /** Along any path, also one that visits a pool twice, the reserves together take in the input and give out the
      output: every denom in between nets to zero. Every reserve stays at least 1, so no hop meets the depletion guard. */
  lemma {:induction false} PathConserves(pools: Pools, path: seq<nat>, amount: nat, denom: Denom, e: Denom)
    requires AllSound(pools)
    ensures SwapPath(pools, path, amount, denom) != Err(ReserveDepleted)
    ensures SwapPath(pools, path, amount, denom).Ok? ==>
      var r := SwapPath(pools, path, amount, denom).value;
      && AllSound(r.pools) && r.pools.Keys == pools.Keys && (path != [] ==> r.amount > 0)
      && Reserve(r.pools, e) == Reserve(pools, e) + At(e, denom, amount) - At(e, r.denom, r.amount)
    decreases |path|
  {
    if path != [] && path[0] in pools {
      SwapKeepsValue(pools[path[0]], denom, amount);
      if Swap(pools[path[0]], denom, amount).Ok? {
        HopConserves(pools, path[0], amount, denom, e);
        hide Swap, Reserve, Sound, ValueAtLeast, Paid;
        var s := Swap(pools[path[0]], denom, amount).value;
        PathConserves(pools[path[0] := s.pool], path[1..], s.out, s.denom, e);
      }
    }
  }

  // ---- the share leg of an exit ----

  /** What the code does with the shares of an exit: the script sends them to the caller, then burns as many of its own. */
  function ShareLeg(b: Ledger, caller: Address, shares: Denom, amount: int): Option<Ledger> {
    match Send(b, SCRIPT, caller, shares, amount)
    case None => None
    case Some(sent) => Burn(sent, SCRIPT, shares, amount)
  }

  /** What the function's documentation says: the caller sends the shares to the script, which burns them. */
  function DocumentedShareLeg(b: Ledger, caller: Address, shares: Denom, amount: int): Option<Ledger> {
    match Send(b, caller, SCRIPT, shares, amount)
    case None => None
    case Some(sent) => Burn(sent, SCRIPT, shares, amount)
  }

  /** The two directions: the documented one succeeds exactly when the caller holds the shares, and takes them from the
      caller; the code's succeeds exactly when the script holds twice the shares, and leaves the caller with more. */
  lemma ShareLegDirections(b: Ledger, caller: Address, shares: Denom, amount: int)
    requires caller != SCRIPT
    ensures DocumentedShareLeg(b, caller, shares, amount).Some? <==> 0 < amount <= Balance(b, caller, shares)
    ensures DocumentedShareLeg(b, caller, shares, amount).Some? ==> forall a, e ::
      Balance(DocumentedShareLeg(b, caller, shares, amount).value, a, e)
        == Balance(b, a, e) - At(e, shares, if a == caller then amount else 0)
    ensures ShareLeg(b, caller, shares, amount).Some? <==> 0 < amount && 2 * amount <= Balance(b, SCRIPT, shares)
    ensures ShareLeg(b, caller, shares, amount).Some? ==> forall a, e ::
      Balance(ShareLeg(b, caller, shares, amount).value, a, e)
        == Balance(b, a, e) + At(e, shares, if a == caller then amount else if a == SCRIPT then -2 * amount else 0)
  {
    hide Send, Burn, Balance, Supply;
    SendEffect(b, SCRIPT, caller, shares, amount);
    SendEffect(b, caller, SCRIPT, shares, amount);
    var sent := Send(b, SCRIPT, caller, shares, amount);
    if sent.Some? { BurnEffect(sent.value, SCRIPT, shares, amount); }
    var documented := Send(b, caller, SCRIPT, shares, amount);
    if documented.Some? { BurnEffect(documented.value, SCRIPT, shares, amount); }
  }

  /** Nobody can leave a pool with shares of which the script holds fewer than twice as many, fresh pools above all, though
      the documented direction lets every holder leave. */
  lemma PoolCannotBeLeft(b: Ledger, caller: Address, p: Pool, amount: int)
    requires caller != SCRIPT && 0 < amount <= Balance(b, caller, p.sharesDenom)
    ensures ShareLeg(b, caller, p.sharesDenom, amount).None? <==> Balance(b, SCRIPT, p.sharesDenom) < 2 * amount
    ensures DocumentedShareLeg(b, caller, p.sharesDenom, amount).Some?
  {
    ShareLegDirections(b, caller, p.sharesDenom, amount);
  }

  /** What the code's share leg takes from the script: the shares it burns and, unless it leaves a pool itself, as many it gives
      away. */
  function ShareCost(caller: Address, amount: int): int {
    if caller == SCRIPT then amount else 2 * amount
  }

  /** The script holds what the code's bank leg of an exit takes from it: the shares and, those gone, both payouts. */
  predicate ExitPayable(b: Ledger, caller: Address, d1: Denom, d2: Denom, shares: Denom, x: Exited, amount: int) {
    && Balance(b, SCRIPT, shares) >= ShareCost(caller, amount)
    && Balance(b, SCRIPT, d1) - At(d1, shares, ShareCost(caller, amount)) >= x.out1
    && Balance(b, SCRIPT, d2) - At(d2, shares, ShareCost(caller, amount)) >= x.out2
  }

  /** Exactly when an exit succeeds. */
  ghost predicate CanExit(pools: Pools, b: Ledger, caller: Address, id: nat, sharesDenom: Denom, amount: int) {
    && id in pools && sharesDenom == pools[id].sharesDenom
    && 0 < amount <= Balance(b, caller, sharesDenom) && Supply(b, sharesDenom) == pools[id].shares
    && amount <= pools[id].shares && Exit(pools[id], amount).Ok?
    && ExitPayable(b, caller, pools[id].denom1, pools[id].denom2, sharesDenom, Exit(pools[id], amount).value, amount)
  }

  // An example: alice has made a pool, and a second one that holds two fifths of the first one's shares as a reserve.
  const SHARES := "whaleswap.dys/pools/1"
  const FIRST_POOL := Pool.Pool("a", "b", 100, 100, INITIAL_SHARES, SHARES, 0)
  const SECOND_POOL := Pool.Pool("c", SHARES, 100, 40000, INITIAL_SHARES, "whaleswap.dys/pools/2", 0)
  const TWO_POOLS: Pools := map[1 := FIRST_POOL, 2 := SECOND_POOL]
  const TWO_POOLS_BANK: Ledger := map[
    "a" := map[SCRIPT := 100], "b" := map[SCRIPT := 100], "c" := map[SCRIPT := 100],
    SHARES := map[SCRIPT := 40000, "alice" := 60000], "whaleswap.dys/pools/2" := map["alice" := INITIAL_SHARES]]

  /** The script can pay out every reserve, alice can leave the first pool with a fifth of its shares, and the exit takes more
      shares from the script than it has beyond the second pool's reserve: all of that reserve. */
  lemma ExitTakesAnotherReserve()
    ensures AllSound(TWO_POOLS)
    ensures forall d :: Balance(TWO_POOLS_BANK, SCRIPT, d) >= Reserve(TWO_POOLS, d)
    ensures CanExit(TWO_POOLS, TWO_POOLS_BANK, "alice", 1, SHARES, 20000)
    ensures Balance(TWO_POOLS_BANK, SCRIPT, SHARES) - Reserve(TWO_POOLS, SHARES) < 2 * 20000
  {
    ReservesCovered();
    AliceCanExit();
    TwoReserves(SHARES);
    ScriptHoldings();
    hide CanExit, Reserve, Balance;
  }

  lemma ReservesCovered()
    ensures AllSound(TWO_POOLS) && forall d :: Balance(TWO_POOLS_BANK, SCRIPT, d) >= Reserve(TWO_POOLS, d)
  {
    ScriptHoldings();
    hide Reserve, Balance;
    forall d ensures Balance(TWO_POOLS_BANK, SCRIPT, d) >= Reserve(TWO_POOLS, d) {
      TwoReserves(d);
    }
  }

  lemma AliceCanExit()
    ensures CanExit(TWO_POOLS, TWO_POOLS_BANK, "alice", 1, SHARES, 20000)
  {
    SharesSupply();
    FifthOut();
    ScriptHoldings();
    hide Supply, Exit, Balance;
  }

  lemma ScriptHoldings()
    ensures Balance(TWO_POOLS_BANK, "alice", SHARES) == 60000 && Balance(TWO_POOLS_BANK, SCRIPT, SHARES) == 40000
    ensures Balance(TWO_POOLS_BANK, SCRIPT, "a") == 100 && Balance(TWO_POOLS_BANK, SCRIPT, "b") == 100
    ensures Balance(TWO_POOLS_BANK, SCRIPT, "c") == 100
  {
  }

  lemma TwoReserves(d: Denom)
    ensures Reserve(TWO_POOLS, d) == HeldIn(d)(FIRST_POOL) + HeldIn(d)(SECOND_POOL)
  {
    PoolChangesReserve(map[], 1, FIRST_POOL, d);
    PoolChangesReserve(map[1 := FIRST_POOL], 2, SECOND_POOL, d);
    assert map[1 := FIRST_POOL][2 := SECOND_POOL] == TWO_POOLS;
    assert Reserve(map[], d) == 0;
  }

  lemma SharesSupply()
    ensures Supply(TWO_POOLS_BANK, SHARES) == INITIAL_SHARES
  {
    var row: Row := map[SCRIPT := 40000];
    TotalPut<Address, nat>(map[], Amount(), SCRIPT, 40000);
    TotalPut<Address, nat>(row, Amount(), "alice", 60000);
    assert row["alice" := 60000] == RowOf(TWO_POOLS_BANK, SHARES);
    assert Total<Address, nat>(map[], Amount()) == 0;
  }

  lemma FifthOut()
    ensures Exit(FIRST_POOL, 20000).Ok? && Exit(FIRST_POOL, 20000).value.out1 == 20 && Exit(FIRST_POOL, 20000).value.out2 == 20
  {
  }

  // ---- the script ----

  class Script {
    var pools: Pools
    var bank: Ledger
    var lastPool: nat

    constructor (bank: Ledger)
      ensures pools == map[] && this.bank == bank && lastPool == 0
    {
      pools, this.bank, lastPool := map[], bank, 0;
    }

    /** What the script holds of a denom beyond the pools' reserves. */
    ghost function Surplus(d: Denom): int
      reads this
    {
      Balance(bank, SCRIPT, d) - Reserve(pools, d)
    }

    ghost predicate Valid()
      reads this
    {
      AllSound(pools) && forall id :: id in pools ==> id <= lastPool
    }

    /** The script can pay out every reserve. */
    ghost predicate Solvent()
      reads this
    {
      forall d :: Surplus(d) >= 0
    }

    /** Swaps along the path, on a copy of the pools. */
    method FollowPath(path: seq<nat>, denom: Denom, amount: nat) returns (r: Result<Route>)
      ensures r == SwapPath(pools, path, amount, denom)
    {
      hide Swap;
      var ps, currentAmount, currentDenom := pools, amount, denom;
      for i := 0 to |path|
        invariant SwapPath(ps, path[i..], currentAmount, currentDenom) == SwapPath(pools, path, amount, denom)
      {
        assert path[i..][0] == path[i] && path[i..][1..] == path[i + 1..];
        if path[i] !in ps {
          return Err(NotFound);
        }
        var hop := Swap(ps[path[i]], currentDenom, currentAmount);
        if hop.Err? {
          return Err(hop.error);
        }
        ps := ps[path[i] := hop.value.pool];
        currentAmount, currentDenom := hop.value.out, hop.value.denom;
      }
      return Ok(Route(ps, currentAmount, currentDenom));
    }

    /** A swap moves the input in, the output out, and changes no surplus: so it keeps the script solvent, and a solvent
        script can always pay. */
    method SwapTokens(caller: Address, path: seq<nat>, denom: Denom, amount: int, minimum: int, outDenom: Denom)
      returns (r: Result<(Denom, nat)>)
      requires Valid()
      modifies this
      ensures Valid()
      ensures r.Err? ==> unchanged(this)
      ensures r.Ok? ==>
        && 0 < amount <= Balance(old(bank), caller, denom) && path != []
        && SwapPath(old(pools), path, amount, denom) == Ok(Route(pools, r.value.1, r.value.0))
        && r.value.0 == outDenom && r.value.1 >= minimum && r.value.1 > 0
        && (forall a, e :: Balance(bank, a, e) == Balance(old(bank), a, e)
                         + At(e, denom, Moved(a, caller, SCRIPT, amount)) + At(e, outDenom, Moved(a, SCRIPT, caller, r.value.1)))
      ensures r.Ok? && caller != SCRIPT ==> forall d :: Surplus(d) == old(Surplus(d))
      ensures old(Solvent()) && caller != SCRIPT ==>
        (r.Ok? <==>
          && 0 < amount <= Balance(old(bank), caller, denom) && path != []
          && SwapPath(old(pools), path, amount, denom).Ok?
          && SwapPath(old(pools), path, amount, denom).value.amount >= minimum
          && SwapPath(old(pools), path, amount, denom).value.denom == outDenom)
    {
      hide Swap, Sound, Total, Send;
      if amount <= 0 {
        return Err(AmountNotPositive);
      }
      if Balance(bank, caller, denom) < amount {
        return Err(InsufficientBalance);
      }
      if path == [] {
        return Err(EmptyPath);
      }
      SendEffect(bank, caller, SCRIPT, denom, amount);
      var b := Send(bank, caller, SCRIPT, denom, amount).value;
      var route := FollowPath(path, denom, amount);
      if route.Err? {
        return Err(route.error);
      }
      hide SwapPath, Balance;
      var ps, currentAmount, currentDenom := route.value.pools, route.value.amount, route.value.denom;
      forall e ensures Reserve(ps, e) == Reserve(pools, e) + At(e, denom, amount) - At(e, currentDenom, currentAmount) {
        PathConserves(pools, path, amount, denom, e);
      }
      PathConserves(pools, path, amount, denom, denom);
      if currentAmount < minimum {
        return Err(BelowMinimum);
      }
      if currentDenom != outDenom {
        return Err(WrongDenom);
      }
      TotalNotNegative(ps, outDenom);
      assert Solvent() ==> Surplus(outDenom) >= 0;
      hide Reserve;
      SendEffect(b, SCRIPT, caller, currentDenom, currentAmount);
      var paid := Send(b, SCRIPT, caller, currentDenom, currentAmount);
      if paid.None? {
        return Err(InsufficientBalance);
      }
      bank, pools := paid.value, ps;
      return Ok((currentDenom, currentAmount));
    }

    /** Takes the coins of the caller into a new pool, in the order of their denoms, and mints its first shares. */
    method CreatePool(caller: Address, denomA: Denom, amountA: int, denomB: Denom, amountB: int) returns (r: Result<nat>)
      requires Valid()
      modifies this
      ensures Valid()
      ensures r.Err? ==> unchanged(this)
      ensures r.Ok? <==> amountA > 0 && amountB > 0 && denomA != denomB
                         && Balance(old(bank), caller, denomA) >= amountA && Balance(old(bank), caller, denomB) >= amountB
      ensures r.Ok? ==>
        && r.value == lastPool == old(lastPool) + 1 && pools.Keys == old(pools).Keys + {r.value}
        && (forall id :: id in old(pools) ==> pools[id] == old(pools)[id])
        && (var p := pools[r.value];
            && p.shares == INITIAL_SHARES && p.sharesDenom == DYS_NAME + "/pools/" + Keys.Decimal(r.value) && p.trades == 0
            && (p.denom1, p.denom2, p.b1, p.b2) == (if Keys.Less(denomB, denomA) then (denomB, denomA, amountB, amountA)
                                                    else (denomA, denomB, amountA, amountB))
            && (forall a, e :: Balance(bank, a, e) == Balance(old(bank), a, e)
                  + At(e, denomA, Moved(a, caller, SCRIPT, amountA)) + At(e, denomB, Moved(a, caller, SCRIPT, amountB))
                  + At(e, p.sharesDenom, if a == caller then INITIAL_SHARES else 0)))
      ensures r.Ok? && caller != SCRIPT ==> forall d :: Surplus(d) == old(Surplus(d))
    {
      hide Total, Balance, Keys.Less, Keys.Decimal;
      if amountA <= 0 || amountB <= 0 {
        return Err(AmountNotPositive);
      }
      if denomA == denomB {
        return Err(WrongDenom);
      }
      var d1, d2, b1, b2 := denomA, denomB, amountA, amountB;
      if Keys.Less(denomB, denomA) {
        d1, d2, b1, b2 := denomB, denomA, amountB, amountA;
      }
      if Balance(bank, caller, d1) < b1 || Balance(bank, caller, d2) < b2 {
        return Err(InsufficientBalance);
      }
      var id := lastPool + 1;
      var p := Pool.Pool(d1, d2, b1, b2, INITIAL_SHARES, DYS_NAME + "/pools/" + Keys.Decimal(id), 0);
      var b := MoveInAndMint(bank, caller, d1, b1, d2, b2, p.sharesDenom, INITIAL_SHARES);
      forall e ensures Reserve(pools[id := p], e) == Reserve(pools, e) + At(e, d1, b1) + At(e, d2, b2) {
        PoolChangesReserve(pools, id, p, e);
      }
      pools := pools[id := p];
      lastPool := id;
      bank := b;
      return Ok(id);
    }

    /** Moves two coins from the caller to the script, mints shares to the script and sends them to the caller. */
    static method MoveInAndMint(bank: Ledger, caller: Address, d1: Denom, x1: nat, d2: Denom, x2: nat, shares: Denom, n: nat)
      returns (b: Ledger)
      requires x1 > 0 && x2 > 0 && n > 0 && d1 != d2
      requires Balance(bank, caller, d1) >= x1 && Balance(bank, caller, d2) >= x2
      ensures forall a, e ::
        Balance(b, a, e) == Balance(bank, a, e)
          + At(e, d1, Moved(a, caller, SCRIPT, x1)) + At(e, d2, Moved(a, caller, SCRIPT, x2))
          + At(e, shares, if a == caller then n else 0)
    {
      hide Send, Credit, Supply;
      SendEffect(bank, caller, SCRIPT, d1, x1);
      var b1 := Send(bank, caller, SCRIPT, d1, x1).value;
      SendEffect(b1, caller, SCRIPT, d2, x2);
      var b2 := Send(b1, caller, SCRIPT, d2, x2).value;
      CreditEffect(b2, SCRIPT, shares, n);
      var b3 := Credit(b2, SCRIPT, shares, n);
      SendEffect(b3, SCRIPT, caller, shares, n);
      b := Send(b3, SCRIPT, caller, shares, n).value;
    }

    /** Joins a pool: the full amounts are moved in, what does not fit the ratio is refunded, shares are minted. */
    method JoinPool(caller: Address, id: nat, denom1: Denom, sent1: int, denom2: Denom, sent2: int)
      returns (r: Result<Joined>)
      requires Valid()
      modifies this
      ensures Valid()
      ensures r.Err? ==> unchanged(this)
      ensures r.Ok? <==> id in old(pools) && denom1 == old(pools)[id].denom1 && denom2 == old(pools)[id].denom2
                         && Balance(old(bank), caller, denom1) >= sent1 && Balance(old(bank), caller, denom2) >= sent2
                         && Join(old(pools)[id], sent1, sent2).Ok?
      ensures r.Ok? ==>
        && r == Join(old(pools)[id], sent1, sent2) && pools == old(pools)[id := r.value.pool] && lastPool == old(lastPool)
        && (forall a, e :: Balance(bank, a, e) == Balance(old(bank), a, e)
              + At(e, denom1, Moved(a, caller, SCRIPT, r.value.added1)) + At(e, denom2, Moved(a, caller, SCRIPT, r.value.added2))
              + At(e, old(pools)[id].sharesDenom, if a == caller then r.value.shares else 0))
      ensures r.Ok? && caller != SCRIPT ==> forall d :: Surplus(d) == old(Surplus(d))
    {
      if sent1 <= 0 || sent2 <= 0 {
        return Err(AmountNotPositive);
      }
      hide Join, Total, ValueAtLeast, Balance;
      if id !in pools {
        return Err(NotFound);
      }
      var p := pools[id];
      if denom1 != p.denom1 || denom2 != p.denom2 {
        return Err(WrongDenom);
      }
      if Balance(bank, caller, denom1) < sent1 || Balance(bank, caller, denom2) < sent2 {
        return Err(InsufficientBalance);
      }
      r := Join(p, sent1, sent2);
      if r.Err? {
        return;
      }
      JoinKeepsValue(p, sent1, sent2);
      JoinKeepsDenoms(p, sent1, sent2);
      var j := r.value;
      var b := SettleJoin(bank, caller, j, denom1, sent1, denom2, sent2, p.sharesDenom);
      forall e ensures Reserve(pools[id := j.pool], e) == Reserve(pools, e) + At(e, denom1, j.added1) + At(e, denom2, j.added2) {
        PoolChangesReserve(pools, id, j.pool, e);
      }
      pools := pools[id := j.pool];
      bank := b;
    }

    /** The bank leg of a join: everything sent moves in, the excess moves back, and the shares are minted. */
    static method SettleJoin(bank: Ledger, caller: Address, j: Joined, d1: Denom, x1: nat, d2: Denom, x2: nat, shares: Denom)
      returns (b: Ledger)
      requires 0 < j.added1 <= x1 && 0 < j.added2 <= x2 && j.shares > 0 && d1 != d2
      requires Balance(bank, caller, d1) >= x1 && Balance(bank, caller, d2) >= x2
      ensures forall a, e ::
        Balance(b, a, e) == Balance(bank, a, e)
          + At(e, d1, Moved(a, caller, SCRIPT, j.added1)) + At(e, d2, Moved(a, caller, SCRIPT, j.added2))
          + At(e, shares, if a == caller then j.shares else 0)
    {
      b := MoveInAndMint(bank, caller, d1, x1, d2, x2, shares, j.shares);
      b := Refund(b, caller, d1, x1 - j.added1);
      b := Refund(b, caller, d2, x2 - j.added2);
    }

    static method Refund(bank: Ledger, caller: Address, d: Denom, x: nat) returns (b: Ledger)
      requires Balance(bank, SCRIPT, d) >= x
      ensures forall a, e :: Balance(b, a, e) == Balance(bank, a, e) + At(e, d, Moved(a, SCRIPT, caller, x))
    {
      hide Balance;
      b := bank;
      if x > 0 {
        hide Send, Supply;
        SendEffect(bank, SCRIPT, caller, d, x);
        b := Send(bank, SCRIPT, caller, d, x).value;
      }
    }

    /** Leaves a pool, as the code does it: the shares are sent from the script to the caller and then burnt from the
        script. The call therefore needs the script to hold twice the shares, leaves the caller with more shares than
        before, and costs the script's surplus of the share denom twice the amount. */
    method ExitPool(caller: Address, id: nat, sharesDenom: Denom, amount: int) returns (r: Result<Exited>)
      requires Valid()
      modifies this
      ensures Valid()
      ensures r.Err? ==> unchanged(this)
      ensures r.Ok? <==> CanExit(old(pools), old(bank), caller, id, sharesDenom, amount)
      ensures r.Ok? ==>
        && id in old(pools) && sharesDenom == old(pools)[id].sharesDenom
        && 0 < amount <= Balance(old(bank), caller, sharesDenom) && Supply(old(bank), sharesDenom) == old(pools)[id].shares
        && amount <= old(pools)[id].shares && r == Exit(old(pools)[id], amount) && pools == old(pools)[id := r.value.pool]
        && (forall a, e :: Balance(bank, a, e) == Balance(old(bank), a, e)
              + At(e, sharesDenom, Moved(a, SCRIPT, caller, amount) - if a == SCRIPT then amount else 0)
              + At(e, old(pools)[id].denom1, Moved(a, SCRIPT, caller, r.value.out1))
              + At(e, old(pools)[id].denom2, Moved(a, SCRIPT, caller, r.value.out2)))
      ensures r.Ok? && caller != SCRIPT ==> forall d :: Surplus(d) == old(Surplus(d)) - At(d, sharesDenom, 2 * amount)
      ensures r.Ok? && caller != SCRIPT && old(Solvent()) ==> (Solvent() <==> old(Surplus(sharesDenom)) >= 2 * amount)
    {
      hide ExitPayable, Exit, Reserve, Supply, Balance, Sound;
      if amount <= 0 {
        return Err(AmountNotPositive);
      }
      if id !in pools {
        return Err(NotFound);
      }
      var p := pools[id];
      if sharesDenom != p.sharesDenom {
        return Err(WrongDenom);
      }
      if Balance(bank, caller, sharesDenom) < amount {
        return Err(InsufficientBalance);
      }
      var supply := SupplyOf(bank, sharesDenom);
      if supply != p.shares {
        return Err(SupplyMismatch);
      }
      BalanceWithinSupply(bank, caller, sharesDenom);
      r := Exit(p, amount);
      if r.Err? {
        return;
      }
      ExitConserves(pools, id, amount);
      var settled := SettleExit(bank, caller, r.value, p.denom1, p.denom2, sharesDenom, amount);
      if settled.None? {
        return Err(InsufficientBalance);
      }
      pools := pools[id := r.value.pool];
      bank := settled.value;
    }

    /** The bank leg of an exit, in the code's direction. For a caller other than the script it succeeds exactly when
        the script holds twice the shares and, those gone, both payouts. */
    static method SettleExit(bank: Ledger, caller: Address, x: Exited, d1: Denom, d2: Denom, shares: Denom, amount: int)
      returns (r: Option<Ledger>)
      requires amount > 0 && d1 != d2
      ensures r.Some? <==> ExitPayable(bank, caller, d1, d2, shares, x, amount)
      ensures r.Some? ==> forall a, e ::
        Balance(r.value, a, e) == Balance(bank, a, e)
          + At(e, shares, Moved(a, SCRIPT, caller, amount) - if a == SCRIPT then amount else 0)
          + At(e, d1, Moved(a, SCRIPT, caller, x.out1)) + At(e, d2, Moved(a, SCRIPT, caller, x.out2))
    {
      hide Send, Burn, Supply, Balance;
      SendEffect(bank, SCRIPT, caller, shares, amount);
      var sent := Send(bank, SCRIPT, caller, shares, amount);
      if sent.None? {
        return None;
      }
      BurnEffect(sent.value, SCRIPT, shares, amount);
      r := ShareLeg(bank, caller, shares, amount);
      if r.None? {
        return;
      }
      var b := r.value;
      if Balance(b, SCRIPT, d1) < x.out1 {
        return None;
      }
      b := Refund(b, caller, d1, x.out1);
      if Balance(b, SCRIPT, d2) < x.out2 {
        return None;
      }
      b := Refund(b, caller, d2, x.out2);
      return Some(b);
    }
  }

  lemma TotalNotNegative(pools: Pools, d: Denom)
    ensures Reserve(pools, d) >= 0
  {
    TotalAtLeast(pools, HeldIn(d));
  }

  lemma JoinKeepsDenoms(p: Pool, sent1: int, sent2: int)
    requires Join(p, sent1, sent2).Ok?
    ensures var q := Join(p, sent1, sent2).value.pool; q.denom1 == p.denom1 && q.denom2 == p.denom2
  {
  }

  lemma ExitConserves(pools: Pools, id: nat, amount: int)
    requires AllSound(pools) && id in pools && amount <= pools[id].shares && Exit(pools[id], amount).Ok?
    ensures var p, x := pools[id], Exit(pools[id], amount).value;
      && p.denom1 != p.denom2 && AllSound(pools[id := x.pool])
      && forall e :: Reserve(pools[id := x.pool], e) == Reserve(pools, e) - At(e, p.denom1, x.out1) - At(e, p.denom2, x.out2)
  {
    var p, x := pools[id], Exit(pools[id], amount).value;
    ExitKeepsValue(p, amount);
    assert x.pool.denom1 == p.denom1 && x.pool.denom2 == p.denom2;
    assert x.pool.b1 == p.b1 - x.out1 && x.pool.b2 == p.b2 - x.out2;
    hide Exit, ValueAtLeast, Total;
    forall e ensures Reserve(pools[id := x.pool], e) == Reserve(pools, e) - At(e, p.denom1, x.out1) - At(e, p.denom2, x.out2) {
      PoolChangesReserve(pools, id, x.pool, e);
    }
  }

  /** The bank's supply query. */
  method SupplyOf(b: Ledger, d: Denom) returns (n: int)
    ensures n == Supply(b, d)
  {
    var row := RowOf(b, d);
    var left := row;
    n := 0;
    while left != map[]
      invariant left.Keys <= row.Keys && forall a :: a in left ==> left[a] == row[a]
      invariant n + Total<Address, nat>(left, Amount()) == Supply(b, d)
      decreases |left|
    {
      var a :| a in left;
      TotalRemove<Address, nat>(left, Amount(), a);
      n := n + left[a];
      left := left - {a};
    }
  }
}
