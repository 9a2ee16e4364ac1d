/** The order book as the script runs it: records and balances updated in place, dictionaries filled in loops. Every method
    leaves exactly the state its specification in LiquidBook gives, or fails and changes nothing. */
module LiquidScript {
  import opened Options
  import opened Bank
  import opened Dicts
  import opened BatchSums
  import opened Backing
  import LB = LiquidBook
  import Lots

  type Coin = LB.Coin
  type Info = LB.Info
  type Trade = LB.Trade
  type Legs = LB.Legs
  type Act = LB.Act

  // ---- reading loops ----

  /** The attached amounts by denom. */
  method SumAttachments(att: seq<Coin>) returns (m: Dict<Denom>)
    ensures forall d :: SumOf(m, d) == LB.Attached(att, d)
  {
    m := [];
    for i := 0 to |att|
      invariant forall d :: LB.Attached(att, d) == SumOf(m, d) + LB.Attached(att[i..], d)
    {
      ghost var was := m;
      m := AddTo(m, att[i].denom, att[i].amount);
      assert att[i..][1..] == att[i + 1..];
      forall d ensures LB.Attached(att, d) == SumOf(m, d) + LB.Attached(att[i + 1..], d) {
        AddToSum(was, att[i].denom, att[i].amount, d);
      }
    }
  }

  lemma {:induction false} PrefixFails(offers: LB.Offers, trades: seq<Trade>, k: nat)
    requires k <= |trades| && LB.Infos(offers, trades[..k]).Err?
    ensures LB.Infos(offers, trades) == LB.Infos(offers, trades[..k])
    decreases |trades|
  {
    if k < |trades| {
      assert trades[..|trades| - 1][..k] == trades[..k];
      PrefixFails(offers, trades[..|trades| - 1], k);
    } else {
      assert trades[..k] == trades;
    }
  }

  /** Checks the trades one by one and computes what each moves. */
  method CollectTrades(offers: LB.Offers, trades: seq<Trade>) returns (r: LB.Result<seq<Info>>)
    ensures r == LB.Infos(offers, trades)
  {
    var infos: seq<Info> := [];
    for i := 0 to |trades|
      invariant LB.Infos(offers, trades[..i]) == LB.Ok(infos)
    {
      assert trades[..i + 1][..i] == trades[..i];
      var next := LB.CheckTrade(offers, trades[i], infos);
      match next {
        case Err(e) =>
          PrefixFails(offers, trades, i + 1);
          return LB.Err(e);
        case Ok(info) => infos := infos + [info];
      }
    }
    assert trades[..|trades|] == trades;
    r := LB.Ok(infos);
  }

  method CollectRequired(infos: seq<Info>) returns (m: Dict<Denom>)
    ensures m == LB.Required(infos)
  {
    m := [];
    for i := 0 to |infos|
      invariant m == LB.Required(infos[..i])
    {
      m := AddTo(m, infos[i].wantDenom, infos[i].sent);
      assert LB.Init(infos[..i + 1]) == infos[..i];
    }
    assert infos[..|infos|] == infos;
  }

  /** What is left to pay in liquid coins, unless more of a wanted denom is attached than the trades need. */
  method CollectRemainder(env: LB.Env, required: Dict<Denom>, att: seq<Coin>) returns (r: LB.Result<Dict<Denom>>)
    ensures r == if LB.OverAttached(required, att) then LB.Err(LB.ExcessAttached) else LB.Ok(LB.Remainder(env, required, att))
  {
    var attached := SumAttachments(att);
    var m: Dict<Denom> := [];
    for i := 0 to |required|
      invariant LB.OverAttached(required, att) == LB.OverAttached(required[i..], att)
      invariant !LB.OverAttached(required, att) ==> LB.Remainder(env, required, att) == m + LB.Remainder(env, required[i..], att)
    {
      var (d, x) := required[i];
      assert required[i..][0] == required[i] && required[i..][1..] == required[i + 1..];
      if SumOf(attached, d) > x {
        return LB.Err(LB.ExcessAttached);
      }
      if x - SumOf(attached, d) > 0 {
        m := m + [(env.quote(d), x - SumOf(attached, d))];
      }
    }
    assert m + [] == m;
    r := LB.Ok(m);
  }

  lemma {:induction false} LegsPrefixFails(env: LB.Env, infos: seq<Info>, k: nat)
    requires k <= |infos| && LB.LegsOf(env, infos[..k]).Err?
    ensures LB.LegsOf(env, infos) == LB.LegsOf(env, infos[..k])
    decreases |infos|
  {
    if k < |infos| {
      assert LB.Init(infos)[..k] == infos[..k];
      LegsPrefixFails(env, LB.Init(infos), k);
    } else {
      assert infos[..k] == infos;
    }
  }

  method CollectLegs(env: LB.Env, infos: seq<Info>) returns (r: LB.Result<Legs>)
    ensures r == LB.LegsOf(env, infos)
  {
    var legs: Legs := LB.Legs([], [], []);
    for i := 0 to |infos|
      invariant LB.LegsOf(env, infos[..i]) == LB.Ok(legs)
    {
      assert LB.Init(infos[..i + 1]) == infos[..i];
      var next := LB.AddLeg(env, legs, infos[i]);
      match next {
        case Err(e) =>
          LegsPrefixFails(env, infos, i + 1);
          return LB.Err(e);
        case Ok(l) => legs := l;
      }
    }
    assert infos[..|infos|] == infos;
    r := LB.Ok(legs);
  }

  // ---- bank loops ----

  method PayCoins(b0: Ledger, from: Address, to: Address, m: Dict<Denom>) returns (r: Option<Ledger>)
    ensures r == LB.Exec(b0, LB.Payments(from, to, m))
  {
    var b := b0;
    for i := 0 to |m|
      invariant LB.Exec(b0, LB.Payments(from, to, m)) == LB.Exec(b, LB.Payments(from, to, m[i..]))
    {
      assert m[i..][1..] == m[i + 1..];
      ghost var all := LB.Payments(from, to, m[i..]);
      if m[i].1 > 0 {
        assert all[0] == LB.Transfer(from, to, m[i].0, m[i].1) && all[1..] == LB.Payments(from, to, m[i + 1..]);
        var sent := Send(b, from, to, m[i].0, m[i].1);
        if sent.None? {
          return None;
        }
        b := sent.value;
      } else {
        assert all == LB.Payments(from, to, m[i + 1..]);
      }
    }
    r := Some(b);
  }

  /** The liquid coins of the makers, moved to the script. */
  method PayIn(b0: Ledger, mm: Nested<Address, Denom>) returns (r: Option<Ledger>)
    ensures r == LB.Exec(b0, LB.PaymentsFrom(mm))
  {
    var b := b0;
    for i := 0 to |mm|
      invariant LB.Exec(b0, LB.PaymentsFrom(mm)) == LB.Exec(b, LB.PaymentsFrom(mm[i..]))
    {
      assert mm[i..][1..] == mm[i + 1..];
      var paid := PayCoins(b, mm[i].0, LB.SCRIPT, mm[i].1);
      ExecConcat(b, LB.Payments(mm[i].0, LB.SCRIPT, mm[i].1), LB.PaymentsFrom(mm[i + 1..]));
      if paid.None? {
        return None;
      }
      b := paid.value;
    }
    r := Some(b);
  }

  /** The solid coins the script forwards to the makers. */
  method PayOut(b0: Ledger, mm: Nested<Address, Denom>) returns (r: Option<Ledger>)
    ensures r == LB.Exec(b0, LB.PaymentsTo(mm))
  {
    var b := b0;
    for i := 0 to |mm|
      invariant LB.Exec(b0, LB.PaymentsTo(mm)) == LB.Exec(b, LB.PaymentsTo(mm[i..]))
    {
      assert mm[i..][1..] == mm[i + 1..];
      var paid := PayCoins(b, LB.SCRIPT, mm[i].0, mm[i].1);
      ExecConcat(b, LB.Payments(LB.SCRIPT, mm[i].0, mm[i].1), LB.PaymentsTo(mm[i + 1..]));
      if paid.None? {
        return None;
      }
      b := paid.value;
    }
    r := Some(b);
  }

  method MovedOutputs(moves: seq<Act>) returns (m: Dict<Denom>)
    ensures m == LB.MovedByDenom(moves)
  {
    m := [];
    for i := 0 to |moves|
      invariant m == LB.MovedByDenom(moves[..i])
    {
      m := AddTo(m, moves[i].denom, moves[i].amount);
      assert moves[..i + 1][..i] == moves[..i];
    }
    assert moves[..|moves|] == moves;
  }

  method BurnAll(b0: Ledger, m: Dict<Denom>) returns (r: Option<Ledger>)
    ensures r == LB.Exec(b0, LB.Burns(m))
  {
    var b := b0;
    for i := 0 to |m|
      invariant LB.Exec(b0, LB.Burns(m)) == LB.Exec(b, LB.Burns(m[i..]))
    {
      assert m[i..][1..] == m[i + 1..];
      assert LB.Burns(m[i..])[1..] == LB.Burns(m[i + 1..]);
      var burnt := Burn(b, LB.SCRIPT, m[i].0, m[i].1);
      if burnt.None? {
        return None;
      }
      b := burnt.value;
    }
    r := Some(b);
  }

  /** Moves the liquid coins of the taker and the makers to the script and burns them. */
  method MoveAndBurn(b: Ledger, taker: Address, remainder: Dict<Denom>, legs: Legs) returns (r: Option<Ledger>)
    ensures
      var moves := LB.MoveActs(taker, remainder, legs);
      r == (match LB.Exec(b, moves) case None => None case Some(b1) => LB.Exec(b1, LB.Burns(LB.MovedByDenom(moves))))
  {
    ExecConcat(b, LB.Payments(taker, LB.SCRIPT, remainder), LB.PaymentsFrom(legs.makerLiquid));
    var b1 := PayCoins(b, taker, LB.SCRIPT, remainder);
    if b1.None? {
      return None;
    }
    var b2 := PayIn(b1.value, legs.makerLiquid);
    if b2.None? {
      return None;
    }
    var out := MovedOutputs(LB.MoveActs(taker, remainder, legs));
    r := BurnAll(b2.value, out);
  }

  /** Forwards the solid coins to the taker and to each maker. */
  method Forward(b: Ledger, taker: Address, legs: Legs) returns (r: Option<Ledger>)
    ensures r == LB.Exec(b, LB.SendActs(taker, legs))
  {
    ExecConcat(b, LB.Payments(LB.SCRIPT, taker, legs.toTaker), LB.PaymentsTo(legs.toMaker));
    var b1 := PayCoins(b, LB.SCRIPT, taker, legs.toTaker);
    if b1.None? {
      return None;
    }
    r := PayOut(b1.value, legs.toMaker);
  }

  lemma {:induction false} ReleasePrefixFails(b: Ledger, offers: LB.Offers, infos: seq<Info>, taker: Address, k: nat)
    requires k <= |infos| && LB.Exec(b, LB.Releases(offers, infos[..k], taker)).None?
    ensures LB.Exec(b, LB.Releases(offers, infos, taker)).None?
    decreases |infos|
  {
    if k < |infos| {
      assert LB.Init(infos)[..k] == infos[..k];
      ReleasePrefixFails(b, offers, LB.Init(infos), taker, k);
      ExecConcat(b, LB.Releases(offers, LB.Init(infos), taker), LB.ReleaseOne(offers, LB.Last(infos), taker));
    } else {
      assert infos[..k] == infos;
    }
  }

  // ---- the script ----

  /** The outcome r of a call is the one specified: the new state, or an error and no change. */
  predicate Did(r: LB.Result<()>, spec: LB.Result<LB.State>, before: LB.State, after: LB.State) {
    match spec
    case Ok(s) => r == LB.Ok(()) && after == s
    case Err(e) => r == LB.Err(e) && after == before
  }

  class Script {
    const env: LB.Env
    var bank: Ledger
    var offers: LB.Offers
    var lastId: nat
    var pfandPerOffer: nat

    constructor (env: LB.Env, bank: Ledger, pfandPerOffer: nat)
      ensures this.env == env && Value() == LB.State(bank, map[], 0, pfandPerOffer)
    {
      this.env := env;
      this.bank := bank;
      this.offers := map[];
      this.lastId := 0;
      this.pfandPerOffer := pfandPerOffer;
    }

    function Value(): LB.State
      reads this
    {
      LB.State(bank, offers, lastId, pfandPerOffer)
    }

    method ConvertToLiquid(caller: Address, att: seq<Coin>, d: Denom, amount: int) returns (r: LB.Result<()>)
      requires env.feeDen > 0
      modifies this`bank
      ensures Did(r, LB.ConvertToLiquid(env, old(Value()), caller, att, d, amount), old(Value()), Value())
    {
      if amount <= 0 {
        return LB.Err(LB.AmountNotPositive);
      }
      var attached := SumAttachments(att);
      var fee := LB.MintFee(env, amount);
      hide SumOf, Credit, Send, LB.MintFee;
      if SumOf(attached, d) < (if d == LB.UDYS then amount + fee else amount) {
        return LB.Err(LB.InsufficientAttached);
      }
      if SumOf(attached, LB.UDYS) < fee {
        return LB.Err(LB.InsufficientAttached);
      }
      var liquid := env.quote(d);
      var minted := LB.Mint(env, bank, att, liquid, amount);
      if minted.Err? {
        return LB.Err(minted.error);
      }
      var sent := Send(minted.value, LB.SCRIPT, caller, liquid, amount);
      if sent.None? {
        return LB.Err(LB.SendFailed);
      }
      bank := sent.value;
      r := LB.Ok(());
    }

    method ConvertToSolid(caller: Address, liquid: Denom, amount: int) returns (r: LB.Result<()>)
      modifies this`bank
      ensures Did(r, LB.ConvertToSolid(env, old(Value()), caller, liquid, amount), old(Value()), Value())
    {
      if !env.isLiquid(liquid) {
        return LB.Err(LB.NotLiquid);
      }
      var decoded := env.decode(liquid);
      if decoded.None? {
        return LB.Err(LB.BadEncoding);
      }
      if amount <= 0 {
        return LB.Err(LB.AmountNotPositive);
      }
      if Balance(bank, caller, liquid) < amount || Balance(bank, LB.SCRIPT, decoded.value) < amount {
        return LB.Err(LB.InsufficientBalance);
      }
      hide Send, Burn, Balance;
      var moved := Send(bank, caller, LB.SCRIPT, liquid, amount);
      if moved.None? {
        return LB.Err(LB.MoveFailed);
      }
      var burnt := Burn(moved.value, LB.SCRIPT, liquid, amount);
      if burnt.None? {
        return LB.Err(LB.MoveFailed);
      }
      var sent := Send(burnt.value, LB.SCRIPT, caller, decoded.value, amount);
      if sent.None? {
        return LB.Err(LB.SendFailed);
      }
      bank := sent.value;
      r := LB.Ok(());
    }

    method Store(maker: Address, have: Coin, want: Coin, pfand: nat)
      requires have.amount > 0 && want.amount > 0
      modifies this`offers, this`lastId
      ensures Value() == LB.AddOffer(old(Value()), bank, LB.NewOffer(maker, have, want, pfand))
    {
      var lot := Lots.Split(have.amount, want.amount);
      lastId := lastId + 1;
      offers := offers[lastId := LB.Offer(maker, LB.Open, have.denom, want.denom, have.amount, want.amount,
                                          lot.unitHave, lot.unitWant, lot.units, pfand)];
    }

    method MakeOffer(caller: Address, att: seq<Coin>, have: Coin, want: Coin) returns (r: LB.Result<()>)
      modifies this`bank, this`offers, this`lastId
      ensures Did(r, LB.MakeOffer(env, old(Value()), caller, att, have, want), old(Value()), Value())
    {
      if have.amount == 0 || want.amount == 0 {
        return LB.Err(LB.AmountNotPositive);
      }
      if have.denom == want.denom {
        return LB.Err(LB.SameDenom);
      }
      if env.isLiquid(want.denom) {
        return LB.Err(LB.WantLiquid);
      }
      var attached := SumAttachments(att);
      hide SumOf, Send, Balance, LB.AnyLiquid;
      if LB.AnyLiquid(env, att) {
        return LB.Err(LB.LiquidAttached);
      }
      if env.isLiquid(have.denom) {
        if SumOf(attached, have.denom) > 0 {
          return LB.Err(LB.LiquidAttached);
        }
        if Balance(bank, caller, LB.PFAND) < pfandPerOffer {
          return LB.Err(LB.InsufficientPfand);
        }
        var moved := Send(bank, caller, LB.SCRIPT, LB.PFAND, pfandPerOffer);
        if moved.None? {
          return LB.Err(LB.MoveFailed);
        }
        bank := moved.value;
        Store(caller, have, want, pfandPerOffer);
      } else {
        if SumOf(attached, have.denom) != have.amount {
          return LB.Err(LB.BadEscrow);
        }
        Store(caller, have, want, 0);
      }
      r := LB.Ok(());
    }

    /** Cancels an open offer and pays its deposit, if any, to whoever cancels. */
    method CancelOffer(caller: Address, id: nat) returns (r: LB.Result<()>)
      modifies this`bank, this`offers
      ensures Did(r, LB.CancelOffer(env, old(Value()), caller, id), old(Value()), Value())
    {
      if id !in offers {
        return LB.Err(LB.NotFound);
      }
      var o := offers[id];
      if !o.status.Open? {
        return LB.Err(LB.NotOpen);
      }
      var eligible := caller == o.maker;
      if !eligible && o.pfand > 0 {
        if env.isLiquid(o.haveDenom) {
          eligible := Balance(bank, o.maker, o.haveDenom) < o.unitHave;
        }
      }
      if !eligible {
        return LB.Err(LB.NotEligible);
      }
      if o.pfand > 0 {
        var paid := Send(bank, LB.SCRIPT, caller, LB.PFAND, o.pfand);
        if paid.None? {
          return LB.Err(LB.SendFailed);
        }
        bank := paid.value;
      }
      offers := offers[id := o.(status := LB.Cancelled)];
      r := LB.Ok(());
    }

    /** Updates the taken offers one by one, releasing the deposit of each liquid offer that closes. */
    method FillAndRelease(b0: Ledger, taker: Address, infos: seq<Info>) returns (r: Option<(Ledger, LB.Offers)>)
      requires Genuine(offers, infos)
      ensures r == (match LB.Exec(b0, LB.Releases(offers, infos, taker))
                    case None => None
                    case Some(b) => Some((b, LB.Fill(offers, infos))))
    {
      var b, book := b0, offers;
      for i := 0 to |infos|
        invariant book == LB.Fill(offers, infos[..i])
        invariant LB.Exec(b0, LB.Releases(offers, infos[..i], taker)) == Some(b)
      {
        var info := infos[i];
        ghost var part := infos[..i + 1];
        assert LB.Init(part) == infos[..i] && LB.Last(part) == info;
        assert Genuine(offers, part);
        ghost var o := FillLast(offers, part);
        ExecConcat(b0, LB.Releases(offers, infos[..i], taker), LB.ReleaseOne(offers, info, taker));
        var left := book[info.id].units - info.units;
        hide Genuine, LB.Fill, Send;
        if left <= 0 && info.pfand > 0 {
          var paid := Send(b, LB.SCRIPT, taker, LB.PFAND, info.pfand);
          ReleaseStep(b, offers, info, taker);
          if paid.None? {
            ReleasePrefixFails(b0, offers, infos, taker, i + 1);
            return None;
          }
          b := paid.value;
        } else {
          ReleaseStep(b, offers, info, taker);
        }
        book := book[info.id := LB.TakeUnits(book[info.id], info.units)];
      }
      assert infos[..|infos|] == infos;
      r := Some((b, book));
    }

    method TakeOffer(caller: Address, att: seq<Coin>, trades: seq<Trade>) returns (r: LB.Result<()>)
      modifies this`bank, this`offers
      ensures Did(r, LB.TakeOffer(env, old(Value()), caller, att, trades), old(Value()), Value())
    {
      if trades == [] {
        return LB.Err(LB.NoTrades);
      }
      var collected := CollectTrades(offers, trades);
      if collected.Err? {
        return LB.Err(collected.error);
      }
      var infos := collected.value;
      InfosGenuine(offers, trades);
      hide Genuine, LB.Infos, LB.Required, LB.Remainder, LB.OverAttached, LB.LegsOf, LB.Exec, LB.MovedByDenom, LB.Burns,
        LB.Fill, LB.Releases, LB.MoveActs, LB.SendActs;
      var required := CollectRequired(infos);
      var remainder := CollectRemainder(env, required, att);
      if remainder.Err? {
        return LB.Err(LB.ExcessAttached);
      }
      var legs := CollectLegs(env, infos);
      if legs.Err? {
        return LB.Err(legs.error);
      }
      var moved := MoveAndBurn(bank, caller, remainder.value, legs.value);
      if moved.None? {
        return LB.Err(LB.MoveFailed);
      }
      var forwarded := Forward(moved.value, caller, legs.value);
      if forwarded.None? {
        return LB.Err(LB.SendFailed);
      }
      var filled := FillAndRelease(forwarded.value, caller, infos);
      if filled.None? {
        return LB.Err(LB.SendFailed);
      }
      bank, offers := filled.value.0, filled.value.1;
      r := LB.Ok(());
    }
  }

  lemma ReleaseStep(b: Ledger, offers: LB.Offers, info: Info, taker: Address)
    requires info.id in offers
    ensures LB.Exec(b, LB.ReleaseOne(offers, info, taker))
         == if info.units >= offers[info.id].units && info.pfand > 0
            then Send(b, LB.SCRIPT, taker, LB.PFAND, info.pfand) else Some(b)
  {
  }
}
