/** Backing: in every denom the script's balance covers the liquid supply, the open escrow and the locked deposits, over
    every run; a batch keeps the surplus exactly; and no send of the script can fail for want of coins. */
module Backing {
  import opened Options
  import opened Totals
  import opened Bank
  import opened Dicts
  import opened BatchSums
  import opened LiquidBook
  import Lots

  // ---- liabilities ----

  function EscrowIn(d: Denom): Offer -> int {
    (o: Offer) => if o.status.Open? && o.pfand == 0 && o.haveDenom == d then o.have else 0
  }

  function Deposit(): Offer -> int {
    (o: Offer) => if o.status.Open? then o.pfand else 0
  }

  /** The coins of d escrowed by the open normal offers. */
  ghost function Escrow(offers: Offers, d: Denom): int {
    Total<nat, Offer>(offers, EscrowIn(d))
  }

  /** The deposits locked by the open offers. */
  ghost function Locked(offers: Offers): int {
    Total<nat, Offer>(offers, Deposit())
  }

  ghost function Liabilities(env: Env, s: State, d: Denom): int {
    Supply(s.bank, env.quote(d)) + Escrow(s.offers, d) + if d == PFAND then Locked(s.offers) else 0
  }

  /** What the script holds of d beyond what it owes. */
  ghost function Surplus(env: Env, s: State, d: Denom): int {
    Balance(s.bank, SCRIPT, d) - Liabilities(env, s, d)
  }

  // ---- the invariant ----

  predicate OfferOk(env: Env, o: Offer) {
    && o.maker != SCRIPT
    && (o.pfand > 0 <==> env.isLiquid(o.haveDenom))
    && !env.isLiquid(o.wantDenom)
    && (o.status.Open? ==>
          && o.units > 0 && o.unitHave > 0 && o.unitWant > 0
          && o.have == o.units * o.unitHave && o.want == o.units * o.unitWant)
  }

  /** Liquid coins exist only in denoms the script itself mints, and the stored offers are well formed. */
  ghost predicate Sound(env: Env, s: State) {
    && (forall l :: env.isLiquid(l) && !Canonical(env, l) ==> Supply(s.bank, l) == 0)
    && (forall id :: id in s.offers ==> id <= s.lastId && OfferOk(env, s.offers[id]))
  }

  /** The script covers its liabilities and, on top, the coins attached to the call at hand. */
  ghost predicate Covered(env: Env, s: State, att: seq<Coin>) {
    forall d :: Surplus(env, s, d) >= Attached(att, d)
  }

  ghost predicate Solvent(env: Env, s: State) {
    Sound(env, s) && Covered(env, s, [])
  }

  // ---- the trades and the offers ----

  /** The trades are of distinct open offers, for at least one and at most all of their units. */
  ghost predicate Genuine(offers: Offers, infos: seq<Info>) {
    && (forall i :: 0 <= i < |infos| ==>
          && infos[i].id in offers && offers[infos[i].id].status.Open?
          && 1 <= infos[i].units <= offers[infos[i].id].units
          && infos[i] == InfoOf(offers[infos[i].id], infos[i].id, infos[i].units))
    && (forall i, j :: 0 <= i < j < |infos| ==> infos[i].id != infos[j].id)
  }

  lemma {:induction false} InfosGenuine(offers: Offers, trades: seq<Trade>)
    requires Infos(offers, trades).Ok?
    ensures Genuine(offers, Infos(offers, trades).value)
    ensures |Infos(offers, trades).value| == |trades|
    ensures forall i :: 0 <= i < |trades| ==> Infos(offers, trades).value[i].id == trades[i].offerId
    decreases |trades|
  {
    if trades != [] {
      InfosGenuine(offers, trades[..|trades| - 1]);
    }
  }

  lemma GenuineInit(offers: Offers, infos: seq<Info>)
    requires Genuine(offers, infos) && infos != []
    ensures Genuine(offers, Init(infos))
    ensures forall i :: 0 <= i < |Init(infos)| ==> Init(infos)[i].id != Last(infos).id
  {
  }

  lemma {:induction false} FillElsewhere(offers: Offers, infos: seq<Info>, id: nat)
    requires forall i :: 0 <= i < |infos| ==> infos[i].id != id
    ensures Fill(offers, infos).Keys == offers.Keys
    ensures id in offers ==> Fill(offers, infos)[id] == offers[id]
    decreases |infos|
  {
    if infos != [] {
      FillElsewhere(offers, Init(infos), id);
      FillKeys(offers, Init(infos));
    }
  }

  lemma {:induction false} FillKeys(offers: Offers, infos: seq<Info>)
    ensures Fill(offers, infos).Keys == offers.Keys
    decreases |infos|
  {
    if infos != [] {
      FillKeys(offers, Init(infos));
    }
  }

  lemma LotDifference(u: nat, n: nat, k: nat)
    requires n <= u
    ensures (u - n) * k == u * k - n * k
  {
  }

  lemma TakeUnitsOk(env: Env, o: Offer, n: nat, d: Denom)
    requires OfferOk(env, o) && o.status.Open? && n <= o.units
    ensures OfferOk(env, TakeUnits(o, n))
    ensures EscrowIn(d)(TakeUnits(o, n)) == EscrowIn(d)(o) - Plain(d)(InfoOf(o, 0, n))
    ensures Deposit()(TakeUnits(o, n)) == Deposit()(o) - if n == o.units then o.pfand else 0
  {
    LotDifference(o.units, n, o.unitHave);
    LotDifference(o.units, n, o.unitWant);
  }

  /** The last trade of a batch meets its offer as it was stored, since no other trade names it. */
  lemma FillLast(offers: Offers, infos: seq<Info>) returns (o: Offer)
    requires Genuine(offers, infos) && infos != []
    ensures Last(infos).id in offers && o == offers[Last(infos).id] && o.status.Open?
    ensures Last(infos).units <= o.units && Last(infos) == InfoOf(o, Last(infos).id, Last(infos).units)
    ensures Last(infos).id in Fill(offers, Init(infos)) && Fill(offers, Init(infos))[Last(infos).id] == o
    ensures Fill(offers, infos) == Fill(offers, Init(infos))[Last(infos).id := TakeUnits(o, Last(infos).units)]
    ensures Genuine(offers, Init(infos))
  {
    var t := Last(infos);
    o := offers[t.id];
    GenuineInit(offers, infos);
    FillElsewhere(offers, Init(infos), t.id);
    hide TakeUnits;
  }

  /** Filling takes exactly what is delivered out of escrow. */
  lemma {:induction false} FillEscrow(env: Env, offers: Offers, infos: seq<Info>, d: Denom)
    requires Genuine(offers, infos)
    requires forall id :: id in offers ==> OfferOk(env, offers[id])
    ensures Escrow(Fill(offers, infos), d) == Escrow(offers, d) - SumInfos(infos, Plain(d))
    decreases |infos|
  {
    if infos != [] {
      hide Fill, Genuine;
      var t := Last(infos);
      var o := FillLast(offers, infos);
      hide Total;
      FillEscrow(env, offers, Init(infos), d);
      TakeUnitsOk(env, o, t.units, d);
      TotalPut(Fill(offers, Init(infos)), EscrowIn(d), t.id, TakeUnits(o, t.units));
      hide TakeUnits, EscrowIn, OfferOk;
    }
  }

  /** Filling keeps the stored offers well formed. */
  lemma {:induction false} FillKeepsOffers(env: Env, offers: Offers, infos: seq<Info>)
    requires Genuine(offers, infos)
    requires forall id :: id in offers ==> OfferOk(env, offers[id])
    ensures forall id :: id in Fill(offers, infos) ==> OfferOk(env, Fill(offers, infos)[id])
    decreases |infos|
  {
    if infos != [] {
      hide Fill, Genuine;
      var t := Last(infos);
      var o := FillLast(offers, infos);
      FillKeepsOffers(env, offers, Init(infos));
      TakeUnitsOk(env, o, t.units, PFAND);
      hide TakeUnits, OfferOk;
    }
  }

  /** The deposits released are those of the offers the batch closes. */
  lemma {:induction false} ReleaseEffect(env: Env, offers: Offers, infos: seq<Info>, taker: Address)
    requires Genuine(offers, infos)
    requires forall id :: id in offers ==> OfferOk(env, offers[id])
    ensures Locked(Fill(offers, infos)) == Locked(offers) - Weight(Releases(offers, infos, taker), PFAND)
    decreases |infos|
  {
    if infos != [] {
      hide Fill, Genuine;
      var init, t := Init(infos), Last(infos);
      var o := FillLast(offers, infos);
      hide Total;
      ReleaseEffect(env, offers, init, taker);
      TakeUnitsOk(env, o, t.units, PFAND);
      TotalPut(Fill(offers, init), Deposit(), t.id, TakeUnits(o, t.units));
      WeightConcat(Releases(offers, init, taker), ReleaseOne(offers, t, taker), PFAND);
      assert Weight(ReleaseOne(offers, t, taker), PFAND) == if t.units == o.units then o.pfand else 0;
      hide TakeUnits, Deposit, OfferOk, Weight, ReleaseOne;
    }
  }

  lemma {:induction false} ReleasesOutgoing(offers: Offers, infos: seq<Info>, taker: Address, d: Denom)
    requires taker != SCRIPT
    ensures Outgoing(Releases(offers, infos, taker))
    ensures d != PFAND ==> Weight(Releases(offers, infos, taker), d) == 0
    decreases |infos|
  {
    if infos != [] {
      var before, one := Releases(offers, Init(infos), taker), ReleaseOne(offers, Last(infos), taker);
      ReleasesOutgoing(offers, Init(infos), taker, d);
      WeightConcat(before, one, d);
      assert Outgoing(one) && (d != PFAND ==> Weight(one, d) == 0);
      PartiesAppend(before, one);
      hide Outgoing, Incoming, Weight, ReleaseOne;
    }
  }

  // ---- the batch ----

  /** What attaching coins to a call does: the script's balances rise by them, and nothing is minted. */
  lemma {:induction false} AttachEffect(b: Ledger, caller: Address, att: seq<Coin>, d: Denom)
    requires caller != SCRIPT && Attach(b, caller, att).Some?
    ensures Balance(Attach(b, caller, att).value, SCRIPT, d) == Balance(b, SCRIPT, d) + Attached(att, d)
    ensures Supply(Attach(b, caller, att).value, d) == Supply(b, d)
    decreases |att|
  {
    if att != [] {
      SendEffect(b, caller, SCRIPT, att[0].denom, att[0].amount);
      AttachEffect(Send(b, caller, SCRIPT, att[0].denom, att[0].amount).value, caller, att[1..], d);
      hide Supply, Send, Balance;
    }
  }

  /** The parts of a batch that passed its checks. */
  datatype Batch = Batch(infos: seq<Info>, legs: Legs, moves: seq<Act>, sends: seq<Act>, releases: seq<Act>)

  ghost predicate BatchOf(env: Env, s: State, taker: Address, att: seq<Coin>, x: Batch) {
    && Genuine(s.offers, x.infos)
    && !OverAttached(Required(x.infos), att)
    && LegsOf(env, x.infos) == Ok(x.legs)
    && x.moves == MoveActs(taker, Remainder(env, Required(x.infos), att), x.legs)
    && x.sends == SendActs(taker, x.legs)
    && x.releases == Releases(s.offers, x.infos, taker)
  }

  lemma PaymentsIncoming(from: Address, m: Dict<Denom>)
    requires from != SCRIPT
    ensures Incoming(Payments(from, SCRIPT, m))
  {
    PaymentsParties(from, SCRIPT, m);
    hide Payments;
  }

  lemma PaymentsOutgoing(to: Address, m: Dict<Denom>)
    requires to != SCRIPT
    ensures Outgoing(Payments(SCRIPT, to, m))
  {
    PaymentsParties(SCRIPT, to, m);
    hide Payments;
  }

  lemma PartiesAppend(a: seq<Act>, b: seq<Act>)
    ensures Incoming(a) && Incoming(b) ==> Incoming(a + b)
    ensures Outgoing(a) && Outgoing(b) ==> Outgoing(a + b)
  {
  }

  lemma BatchParties(env: Env, s: State, taker: Address, att: seq<Coin>, x: Batch)
    requires Sound(env, s) && taker != SCRIPT && BatchOf(env, s, taker, att, x)
    ensures Incoming(x.moves) && Outgoing(x.sends) && Outgoing(x.releases)
  {
    forall i | 0 <= i < |x.infos| ensures x.infos[i].maker != SCRIPT {
      assert OfferOk(env, s.offers[x.infos[i].id]);
    }
    hide Incoming, Outgoing, Sound, Genuine, Payments, PaymentsFrom, PaymentsTo, Releases, OuterKeys, Remainder, Required, OverAttached, LegsOf;
    LegParties(env, x.infos);
    PaymentsFromIncoming(x.legs.makerLiquid);
    PaymentsToOutgoing(x.legs.toMaker);
    PaymentsIncoming(taker, Remainder(env, Required(x.infos), att));
    PaymentsOutgoing(taker, x.legs.toTaker);
    ReleasesOutgoing(s.offers, x.infos, taker, PFAND);
    PartiesAppend(Payments(taker, SCRIPT, Remainder(env, Required(x.infos), att)), PaymentsFrom(x.legs.makerLiquid));
    PartiesAppend(Payments(SCRIPT, taker, x.legs.toTaker), PaymentsTo(x.legs.toMaker));
    assert x.moves == MoveActs(taker, Remainder(env, Required(x.infos), att), x.legs);
  }

  /** What the taker still owes in d after the attached coins. */
  ghost function Due(infos: seq<Info>, att: seq<Coin>, d: Denom): int {
    SumInfos(infos, Owed(d)) - if Wanted(infos, d) then Attached(att, d) else 0
  }

  ghost predicate Wanted(infos: seq<Info>, d: Denom) {
    exists i :: 0 <= i < |infos| && infos[i].wantDenom == d
  }

  lemma NothingOwed(infos: seq<Info>, d: Denom)
    requires !Wanted(infos, d)
    ensures SumInfos(infos, Owed(d)) == 0
  {
    RequiredSum(infos, d);
    SumOfAbsent(Required(infos), d);
  }

  /** Liquid coins moved, solid coins forwarded: the totals of a batch in one denom. */
  lemma BatchTotals(env: Env, s: State, taker: Address, att: seq<Coin>, x: Batch, d: Denom)
    requires ValidEnv(env) && BatchOf(env, s, taker, att, x)
    ensures Weight(x.moves, env.quote(d)) == Due(x.infos, att, d) + SumInfos(x.infos, Liquid(env.quote(d)))
    ensures Weight(x.sends, d) == SumInfos(x.infos, Delivered(env, d)) + SumInfos(x.infos, Owed(d))
  {
    var l, required := env.quote(d), Required(x.infos);
    var remainder := Remainder(env, required, att);
    RequiredSum(x.infos, d);
    if !Wanted(x.infos, d) { NothingOwed(x.infos, d); }
    RemainderSum(env, required, att, d);
    LegSums(env, x.infos, l);
    LegSums(env, x.infos, d);
    PaymentsWeight(taker, SCRIPT, remainder, l);
    PaymentsFromWeight(x.legs.makerLiquid, l);
    PaymentsWeight(SCRIPT, taker, x.legs.toTaker, d);
    PaymentsToWeight(x.legs.toMaker, d);
    WeightConcat(Payments(taker, SCRIPT, remainder), PaymentsFrom(x.legs.makerLiquid), l);
    WeightConcat(Payments(SCRIPT, taker, x.legs.toTaker), PaymentsTo(x.legs.toMaker), d);
    hide Weight, SumInfos, SumOf, SumNested, LegsOf, Required, Remainder, Payments, PaymentsFrom, PaymentsTo, HasKey;
  }

  lemma MovesAndBurns(b: Ledger, moves: seq<Act>, d: Denom)
    requires Incoming(moves) && Exec(b, moves).Some?
    requires Exec(Exec(b, moves).value, Burns(MovedByDenom(moves))).Some?
    ensures Balance(Exec(Exec(b, moves).value, Burns(MovedByDenom(moves))).value, SCRIPT, d) == Balance(b, SCRIPT, d)
    ensures Supply(Exec(Exec(b, moves).value, Burns(MovedByDenom(moves))).value, d) == Supply(b, d) - Weight(moves, d)
    ensures Weight(moves, d) <= Supply(b, d)
  {
    IncomingEffect(b, moves, d);
    BurnsWeight(MovedByDenom(moves), d);
    MovedWeight(moves, d);
    BurningEffect(Exec(b, moves).value, Burns(MovedByDenom(moves)), d);
    BalanceWithinSupply(Exec(Exec(b, moves).value, Burns(MovedByDenom(moves))).value, SCRIPT, d);
    hide Exec, Weight, Supply, Balance, Burns, MovedByDenom;
  }

  /** A move that succeeds moves only liquid coins the script has minted. */
  lemma MovesCanonical(env: Env, s: State, taker: Address, att: seq<Coin>, x: Batch)
    requires ValidEnv(env) && Sound(env, s) && taker != SCRIPT && BatchOf(env, s, taker, att, x)
    requires Exec(s.bank, x.moves).Some?
    ensures AllCanonical(env, x.infos)
  {
    BatchParties(env, s, taker, att, x);
    forall i | 0 <= i < |x.infos| && x.infos[i].pfand > 0 ensures Canonical(env, x.infos[i].haveDenom) {
      MoveCanonical(env, s, taker, att, x, i);
    }
  }

  lemma MoveCanonical(env: Env, s: State, taker: Address, att: seq<Coin>, x: Batch, i: nat)
    requires Sound(env, s) && BatchOf(env, s, taker, att, x) && Incoming(x.moves) && Exec(s.bank, x.moves).Some?
    requires i < |x.infos| && x.infos[i].pfand > 0
    ensures Canonical(env, x.infos[i].haveDenom)
  {
    var l := x.infos[i].haveDenom;
    var o := s.offers[x.infos[i].id];
    assert OfferOk(env, o) && x.infos[i] == InfoOf(o, x.infos[i].id, x.infos[i].units);
    Lots.Positive(x.infos[i].units, o.unitHave);
    SumInfosMember(x.infos, Liquid(l), i);
    LegSums(env, x.infos, l);
    PaymentsFromWeight(x.legs.makerLiquid, l);
    WeightConcat(Payments(taker, SCRIPT, Remainder(env, Required(x.infos), att)), PaymentsFrom(x.legs.makerLiquid), l);
    IncomingEffect(s.bank, x.moves, l);
    hide Exec, Weight, Supply, SumInfos, SumNested, SumOf, LegsOf, Required, Remainder, Payments, PaymentsFrom, Genuine;
  }

  lemma LiabilitiesNatural(env: Env, s: State, d: Denom)
    ensures Liabilities(env, s, d) >= Supply(s.bank, env.quote(d)) >= 0
    ensures Escrow(s.offers, d) >= 0 && Locked(s.offers) >= 0
    ensures Liabilities(env, s, d) >= Escrow(s.offers, d)
    ensures forall id :: id in s.offers && s.offers[id].status.Open? ==> s.offers[id].pfand <= Locked(s.offers)
  {
    BalanceWithinSupply(s.bank, SCRIPT, env.quote(d));
    TotalAtLeast<nat, Offer>(s.offers, EscrowIn(d));
    TotalAtLeast<nat, Offer>(s.offers, Deposit());
    hide Total, Supply, Balance;
    forall id | id in s.offers && s.offers[id].status.Open? ensures s.offers[id].pfand <= Locked(s.offers) {
      assert Deposit()(s.offers[id]) <= Total<nat, Offer>(s.offers, Deposit());
    }
  }

  /** After the liquid coins moved and burnt, the script can pay everything it forwards and releases in d. */
  lemma Affordable(env: Env, s: State, taker: Address, att: seq<Coin>, x: Batch, b: Ledger, d: Denom)
    requires ValidEnv(env) && Sound(env, s) && Covered(env, s, att) && taker != SCRIPT && BatchOf(env, s, taker, att, x)
    requires AllCanonical(env, x.infos)
    requires Balance(b, SCRIPT, d) == Balance(s.bank, SCRIPT, d)
    requires Weight(x.moves, env.quote(d)) <= Supply(s.bank, env.quote(d))
    ensures Weight(x.sends, d) + Weight(x.releases, d) <= Balance(b, SCRIPT, d)
  {
    BatchTotals(env, s, taker, att, x, d);
    DeliveredSplits(env, x.infos, d);
    if !Wanted(x.infos, d) { NothingOwed(x.infos, d); }
    FillEscrow(env, s.offers, x.infos, d);
    ReleaseEffect(env, s.offers, x.infos, taker);
    ReleasesOutgoing(s.offers, x.infos, taker, d);
    LiabilitiesNatural(env, s.(offers := Fill(s.offers, x.infos)), d);
    assert Surplus(env, s, d) >= Attached(att, d);
    hide Weight, SumInfos, Fill, Releases, Escrow, Locked, Supply, Balance, Wanted, Attached, Genuine, LegsOf;
  }

  /** Once the liquid moves and the burns of a batch succeed, no forward and no deposit release can fail: the balance check
      the script skips is not needed. */
  lemma ForwardsNeverFail(env: Env, s: State, taker: Address, att: seq<Coin>, x: Batch)
    requires ValidEnv(env) && Sound(env, s) && Covered(env, s, att) && taker != SCRIPT && BatchOf(env, s, taker, att, x)
    ensures Settle(s.bank, x.moves, x.sends, x.releases) != Err(SendFailed)
  {
    BatchParties(env, s, taker, att, x);
    var moved := Exec(s.bank, x.moves);
    if moved.Some? && Exec(moved.value, Burns(MovedByDenom(x.moves))).Some? {
      var b := Exec(moved.value, Burns(MovedByDenom(x.moves))).value;
      MovesCanonical(env, s, taker, att, x);
      hide *;
      forall d ensures Weight(x.sends + x.releases, d) <= Balance(b, SCRIPT, d) {
        MovesAndBurns(s.bank, x.moves, d);
        MovesAndBurns(s.bank, x.moves, env.quote(d));
        Affordable(env, s, taker, att, x, b, d);
        WeightConcat(x.sends, x.releases, d);
      }
      OutgoingBoth(x.sends, x.releases);
      OutgoingRuns(b, x.sends + x.releases);
      ExecConcat(b, x.sends, x.releases);
      SettleOk(s.bank, x.moves, x.sends, x.releases);
    }
  }

  lemma OutgoingBoth(x: seq<Act>, y: seq<Act>)
    requires Outgoing(x) && Outgoing(y)
    ensures Outgoing(x + y)
  {
  }

  lemma SettleOk(b: Ledger, moves: seq<Act>, sends: seq<Act>, releases: seq<Act>)
    requires Exec(b, moves).Some? && Exec(Exec(b, moves).value, Burns(MovedByDenom(moves))).Some?
    requires
      var b2 := Exec(Exec(b, moves).value, Burns(MovedByDenom(moves))).value;
      Exec(b2, sends).Some? && Exec(Exec(b2, sends).value, releases).Some?
    ensures Settle(b, moves, sends, releases).Ok?
  {
  }

  /** What a settled batch leaves in the bank, in one denom. */
  lemma SettleEffect(b: Ledger, moves: seq<Act>, sends: seq<Act>, releases: seq<Act>, d: Denom)
    requires Incoming(moves) && Outgoing(sends) && Outgoing(releases)
    requires Settle(b, moves, sends, releases).Ok?
    ensures Balance(Settle(b, moves, sends, releases).value, SCRIPT, d)
         == Balance(b, SCRIPT, d) - Weight(sends, d) - Weight(releases, d)
    ensures Supply(Settle(b, moves, sends, releases).value, d) == Supply(b, d) - Weight(moves, d)
  {
    MovesAndBurns(b, moves, d);
    var b2 := Exec(Exec(b, moves).value, Burns(MovedByDenom(moves))).value;
    OutgoingEffect(b2, sends, d);
    OutgoingEffect(Exec(b2, sends).value, releases, d);
    hide Exec, Weight, Supply, Balance, Burns, MovedByDenom;
  }

  /** A settled batch keeps the surplus in every denom it wants, less the coins attached to pay for it, and in every other
      denom exactly. */
  lemma BatchSurplus(env: Env, s: State, taker: Address, att: seq<Coin>, x: Batch, d: Denom)
    requires ValidEnv(env) && Sound(env, s) && taker != SCRIPT && BatchOf(env, s, taker, att, x)
    requires Settle(s.bank, x.moves, x.sends, x.releases).Ok?
    ensures
      var b := Settle(s.bank, x.moves, x.sends, x.releases).value;
      Surplus(env, s.(bank := b, offers := Fill(s.offers, x.infos)), d)
        == Surplus(env, s, d) - if Wanted(x.infos, d) then Attached(att, d) else 0
  {
    BatchParties(env, s, taker, att, x);
    assert Exec(s.bank, x.moves).Some?;
    MovesCanonical(env, s, taker, att, x);
    SettleEffect(s.bank, x.moves, x.sends, x.releases, d);
    SettleEffect(s.bank, x.moves, x.sends, x.releases, env.quote(d));
    BatchTotals(env, s, taker, att, x, d);
    DeliveredSplits(env, x.infos, d);
    FillEscrow(env, s.offers, x.infos, d);
    ReleaseEffect(env, s.offers, x.infos, taker);
    ReleasesOutgoing(s.offers, x.infos, taker, d);
    hide Weight, SumInfos, Fill, Releases, Escrow, Locked, Supply, Balance, Wanted, Attached, Genuine, LegsOf, Settle, Exec;
  }

  lemma BatchSound(env: Env, s: State, taker: Address, att: seq<Coin>, x: Batch)
    requires Sound(env, s) && taker != SCRIPT && BatchOf(env, s, taker, att, x)
    requires Settle(s.bank, x.moves, x.sends, x.releases).Ok?
    ensures
      var b := Settle(s.bank, x.moves, x.sends, x.releases).value;
      Sound(env, s.(bank := b, offers := Fill(s.offers, x.infos)))
  {
    BatchParties(env, s, taker, att, x);
    var b := Settle(s.bank, x.moves, x.sends, x.releases).value;
    FillKeepsOffers(env, s.offers, x.infos);
    FillKeys(s.offers, x.infos);
    hide Settle, Fill, OfferOk, Supply, Genuine;
    forall l | env.isLiquid(l) && !Canonical(env, l) ensures Supply(b, l) == 0 {
      SettleEffect(s.bank, x.moves, x.sends, x.releases, l);
      BalanceWithinSupply(b, SCRIPT, l);
    }
  }

  lemma TakeIsBatch(env: Env, s: State, taker: Address, att: seq<Coin>, trades: seq<Trade>) returns (x: Batch)
    requires TakeOffer(env, s, taker, att, trades).Ok? || TakeOffer(env, s, taker, att, trades) == Err(SendFailed)
    ensures BatchOf(env, s, taker, att, x) && Infos(s.offers, trades) == Ok(x.infos)
    ensures TakeOffer(env, s, taker, att, trades) ==
      (match Settle(s.bank, x.moves, x.sends, x.releases)
       case Err(e) => Err(e)
       case Ok(b) => Ok(s.(bank := b, offers := Fill(s.offers, x.infos))))
  {
    ErrorsOf(s.offers, trades);
    var infos := Infos(s.offers, trades).value;
    InfosGenuine(s.offers, trades);
    LegErrors(env, infos);
    hide Infos, LegsOf, Genuine, Settle, OverAttached, Required, Remainder, Releases, Fill;
    var legs := LegsOf(env, infos).value;
    x := Batch(infos, legs, MoveActs(taker, Remainder(env, Required(infos), att), legs), SendActs(taker, legs),
               Releases(s.offers, infos, taker));
  }

  lemma {:induction false} ErrorsOf(offers: Offers, trades: seq<Trade>)
    ensures Infos(offers, trades) != Err(SendFailed)
    decreases |trades|
  {
    if trades != [] { ErrorsOf(offers, trades[..|trades| - 1]); }
  }

  lemma {:induction false} LegErrors(env: Env, infos: seq<Info>)
    ensures LegsOf(env, infos) != Err(SendFailed)
    decreases |infos|
  {
    if infos != [] { LegErrors(env, Init(infos)); }
  }

  // ---- the other calls ----

  /** A call kept the script solvent, or failed before the script itself had to pay. */
  ghost predicate Fine(env: Env, r: Result<State>) {
    (r.Ok? ==> Solvent(env, r.value)) && r != Err(SendFailed)
  }

  lemma MintLiquid(env: Env, s: State, caller: Address, att: seq<Coin>, d: Denom, amount: nat, b: Ledger, e: Denom)
    requires ValidEnv(env) && caller != SCRIPT && amount > 0
    requires Mint(env, s.bank, att, env.quote(d), amount).Ok?
    requires Send(Mint(env, s.bank, att, env.quote(d), amount).value, SCRIPT, caller, env.quote(d), amount) == Some(b)
    ensures Balance(b, SCRIPT, e) == Balance(s.bank, SCRIPT, e) - if e == UDYS then MintFee(env, amount) else 0
    ensures Supply(b, e) == Supply(s.bank, e) + if e == env.quote(d) then amount else 0
  {
    var fee := MintFee(env, amount);
    var paid := if fee == 0 then s.bank else Send(s.bank, SCRIPT, COMMUNITY_POOL, UDYS, fee).value;
    SendEffect(s.bank, SCRIPT, COMMUNITY_POOL, UDYS, fee);
    CreditEffect(paid, SCRIPT, env.quote(d), amount);
    SendEffect(Credit(paid, SCRIPT, env.quote(d), amount), SCRIPT, caller, env.quote(d), amount);
    hide Supply, Send, Balance, Credit, MintFee;
  }

  /** The script holds the attached coins of a covered call. */
  lemma HoldsAttached(env: Env, s: State, att: seq<Coin>, d: Denom)
    requires Covered(env, s, att)
    ensures Balance(s.bank, SCRIPT, d) >= Attached(att, d)
  {
    LiabilitiesNatural(env, s, d);
    assert Surplus(env, s, d) >= Attached(att, d);
  }

  lemma ToLiquidFine(env: Env, s: State, caller: Address, att: seq<Coin>, d: Denom, amount: int)
    requires ValidEnv(env) && Sound(env, s) && Covered(env, s, att) && caller != SCRIPT
    ensures Fine(env, ConvertToLiquid(env, s, caller, att, d, amount))
  {
    HoldsAttached(env, s, att, UDYS);
    if amount > 0 {
      SendEffect(s.bank, SCRIPT, COMMUNITY_POOL, UDYS, MintFee(env, amount));
    }
    hide Supply, Send, Credit, Attached, MintFee, Sound, Covered;
    if amount > 0 && Mint(env, s.bank, att, env.quote(d), amount).Ok? {
      var m := Mint(env, s.bank, att, env.quote(d), amount).value;
      MintedHeld(env, s.bank, att, env.quote(d), amount);
      SendEffect(m, SCRIPT, caller, env.quote(d), amount);
    }
    var r := ConvertToLiquid(env, s, caller, att, d, amount);
    if r.Ok? {
      ToLiquidSound(env, s, caller, att, d, amount);
    }
  }

  lemma MintedHeld(env: Env, b: Ledger, att: seq<Coin>, l: Denom, amount: nat)
    requires env.feeDen > 0 && Mint(env, b, att, l, amount).Ok?
    ensures Balance(Mint(env, b, att, l, amount).value, SCRIPT, l) >= amount
  {
    var fee := MintFee(env, amount);
    var paid := if fee == 0 then b else Send(b, SCRIPT, COMMUNITY_POOL, UDYS, fee).value;
    CreditEffect(paid, SCRIPT, l, amount);
    hide Supply, Send, Balance, Credit, MintFee;
  }

  lemma ToLiquidSound(env: Env, s: State, caller: Address, att: seq<Coin>, d: Denom, amount: int)
    requires ValidEnv(env) && Sound(env, s) && Covered(env, s, att) && caller != SCRIPT
    requires ConvertToLiquid(env, s, caller, att, d, amount).Ok?
    ensures Solvent(env, ConvertToLiquid(env, s, caller, att, d, amount).value)
  {
    var s' := ConvertToLiquid(env, s, caller, att, d, amount).value;
    forall e ensures Surplus(env, s', e) >= 0 {
      ToLiquidCovered(env, s, caller, att, d, amount, e);
    }
    forall l | env.isLiquid(l) && !Canonical(env, l) ensures Supply(s'.bank, l) == 0 {
      MintLiquid(env, s, caller, att, d, amount, s'.bank, l);
      assert env.decode(env.quote(d)) == Some(d);
      hide Supply, Send, Balance, Credit, MintFee, Mint;
    }
    hide Surplus, OfferOk, Supply, Send, Mint, Credit;
  }

  lemma ToLiquidCovered(env: Env, s: State, caller: Address, att: seq<Coin>, d: Denom, amount: int, e: Denom)
    requires ValidEnv(env) && Covered(env, s, att) && caller != SCRIPT
    requires ConvertToLiquid(env, s, caller, att, d, amount).Ok?
    ensures Surplus(env, ConvertToLiquid(env, s, caller, att, d, amount).value, e) >= 0
  {
    var s' := ConvertToLiquid(env, s, caller, att, d, amount).value;
    hide Supply, Send, Balance, Credit, MintFee, Escrow, Locked, Attached, Mint;
    MintLiquid(env, s, caller, att, d, amount, s'.bank, e);
    MintLiquid(env, s, caller, att, d, amount, s'.bank, env.quote(e));
    assert Surplus(env, s, e) >= Attached(att, e);
    QuoteInjective(env, d, e);
  }

  lemma QuoteInjective(env: Env, d: Denom, e: Denom)
    requires ValidEnv(env)
    ensures env.quote(d) == env.quote(e) <==> d == e
  {
    assert env.decode(env.quote(d)) == Some(d) && env.decode(env.quote(e)) == Some(e);
  }

  lemma ToSolidFine(env: Env, s: State, caller: Address, att: seq<Coin>, liquid: Denom, amount: int)
    requires ValidEnv(env) && Sound(env, s) && Covered(env, s, att) && caller != SCRIPT
    ensures Fine(env, ConvertToSolid(env, s, caller, liquid, amount))
  {
    if env.isLiquid(liquid) && env.decode(liquid).Some? && amount > 0
       && Balance(s.bank, caller, liquid) >= amount && Balance(s.bank, SCRIPT, env.decode(liquid).value) >= amount
    {
      ToSolidBank(env, s, caller, liquid, amount);
      ToSolidCovered(env, s, att, liquid, amount, ConvertToSolid(env, s, caller, liquid, amount).value);
      hide Supply, Send, Balance, Burn, ConvertToSolid, OfferOk, Surplus;
    }
  }

  lemma ToSolidCovered(env: Env, s: State, att: seq<Coin>, liquid: Denom, amount: int, s': State)
    requires ValidEnv(env) && Covered(env, s, att) && amount > 0
    requires env.decode(liquid).Some? && env.quote(env.decode(liquid).value) == liquid && s' == s.(bank := s'.bank)
    requires forall e :: Balance(s'.bank, SCRIPT, e) == Balance(s.bank, SCRIPT, e) - if e == env.decode(liquid).value then amount else 0
    requires forall e :: Supply(s'.bank, e) == Supply(s.bank, e) - if e == liquid then amount else 0
    ensures Covered(env, s', [])
  {
    hide Supply, Balance, Escrow, Locked;
    forall e ensures Surplus(env, s', e) >= 0 {
      assert Surplus(env, s, e) >= Attached(att, e) >= 0;
      QuoteInjective(env, env.decode(liquid).value, e);
    }
    hide Surplus;
    NoAttachments(env, s');
  }

  /** A conversion that passes the balance checks burns liquid coins and releases as many solid ones. */
  lemma ToSolidBank(env: Env, s: State, caller: Address, liquid: Denom, amount: int)
    requires Sound(env, s) && caller != SCRIPT && amount > 0
    requires env.isLiquid(liquid) && env.decode(liquid).Some? && Balance(s.bank, caller, liquid) >= amount
    requires Balance(s.bank, SCRIPT, env.decode(liquid).value) >= amount
    ensures env.quote(env.decode(liquid).value) == liquid
    ensures ConvertToSolid(env, s, caller, liquid, amount).Ok?
    ensures
      var s' := ConvertToSolid(env, s, caller, liquid, amount).value;
      var d := env.decode(liquid).value;
      && s' == s.(bank := s'.bank)
      && (forall e :: Balance(s'.bank, SCRIPT, e) == Balance(s.bank, SCRIPT, e) - if e == d then amount else 0)
      && (forall e :: Supply(s'.bank, e) == Supply(s.bank, e) - if e == liquid then amount else 0)
  {
    var d := env.decode(liquid).value;
    BalanceWithinSupply(s.bank, caller, liquid);
    SendEffect(s.bank, caller, SCRIPT, liquid, amount);
    var b := Send(s.bank, caller, SCRIPT, liquid, amount).value;
    BurnEffect(b, SCRIPT, liquid, amount);
    var b' := Burn(b, SCRIPT, liquid, amount).value;
    SendEffect(b', SCRIPT, caller, d, amount);
    hide Supply, Send, Balance, Burn, OfferOk;
  }

  lemma NewOfferOk(env: Env, maker: Address, have: Coin, want: Coin, pfand: nat)
    requires have.amount > 0 && want.amount > 0 && maker != SCRIPT && (pfand > 0 <==> env.isLiquid(have.denom))
    requires !env.isLiquid(want.denom)
    ensures OfferOk(env, NewOffer(maker, have, want, pfand))
  {
    Lots.FinestLots(have.amount, want.amount);
  }

  lemma AddOfferLiabilities(s: State, b: Ledger, o: Offer, d: Denom)
    requires s.lastId + 1 !in s.offers && o.status.Open?
    ensures Escrow(AddOffer(s, b, o).offers, d)
         == Escrow(s.offers, d) + if o.pfand == 0 && o.haveDenom == d then o.have else 0
    ensures Locked(AddOffer(s, b, o).offers) == Locked(s.offers) + o.pfand
  {
    TotalPut<nat, Offer>(s.offers, EscrowIn(d), s.lastId + 1, o);
    TotalPut<nat, Offer>(s.offers, Deposit(), s.lastId + 1, o);
    hide Total;
  }

  lemma AddOfferSolvent(env: Env, s: State, b: Ledger, o: Offer, att: seq<Coin>)
    requires Sound(env, s) && Covered(env, s, att) && OfferOk(env, o) && o.status.Open?
    requires forall d :: Supply(b, d) == Supply(s.bank, d)
    requires forall d :: Balance(b, SCRIPT, d) == Balance(s.bank, SCRIPT, d) + if d == PFAND then o.pfand else 0
    requires o.pfand == 0 ==> o.have <= Attached(att, o.haveDenom)
    ensures Solvent(env, AddOffer(s, b, o))
  {
    var s' := AddOffer(s, b, o);
    hide Supply, Balance, Escrow, Locked, Attached, OfferOk;
    assert s.lastId + 1 !in s.offers;
    forall d ensures Surplus(env, s', d) >= 0 {
      assert Surplus(env, s, d) >= Attached(att, d);
      AddOfferLiabilities(s, b, o, d);
    }
    NoAttachments(env, s');
  }

  lemma NoAttachments(env: Env, s: State)
    requires forall d :: Surplus(env, s, d) >= 0
    ensures Covered(env, s, [])
  {
  }

  lemma MakeFine(env: Env, s: State, caller: Address, att: seq<Coin>, have: Coin, want: Coin)
    requires Sound(env, s) && Covered(env, s, att) && caller != SCRIPT
    ensures Fine(env, MakeOffer(env, s, caller, att, have, want))
  {
    var r := MakeOffer(env, s, caller, att, have, want);
    if r.Ok? {
      if env.isLiquid(have.denom) {
        SendEffect(s.bank, caller, SCRIPT, PFAND, s.pfandPerOffer);
        NewOfferOk(env, caller, have, want, s.pfandPerOffer);
        hide Supply, Send, Balance, OfferOk, Sound, Covered, AnyLiquid, Attached;
        var b := Send(s.bank, caller, SCRIPT, PFAND, s.pfandPerOffer).value;
        AddOfferSolvent(env, s, b, NewOffer(caller, have, want, s.pfandPerOffer), att);
      } else {
        NewOfferOk(env, caller, have, want, 0);
        hide Supply, Send, Balance, OfferOk, Sound, Covered, AnyLiquid, Attached;
        AddOfferSolvent(env, s, s.bank, NewOffer(caller, have, want, 0), att);
      }
    }
  }

  lemma CancelLiabilities(s: State, id: nat, d: Denom)
    requires id in s.offers && s.offers[id].status.Open?
    ensures
      var o := s.offers[id];
      && Escrow(s.offers[id := o.(status := Cancelled)], d)
           == Escrow(s.offers, d) - (if o.pfand == 0 && o.haveDenom == d then o.have else 0)
      && Locked(s.offers[id := o.(status := Cancelled)]) == Locked(s.offers) - o.pfand
  {
    var o := s.offers[id];
    TotalPut(s.offers, EscrowIn(d), id, o.(status := Cancelled));
    TotalPut(s.offers, Deposit(), id, o.(status := Cancelled));
    hide Total;
  }

  /** Cancelling gives back a deposit exactly, but never an escrow: what a normal offer still had stays with the script and
      is owed to nobody. */
  lemma CancelSurplus(env: Env, s: State, caller: Address, id: nat, d: Denom)
    requires caller != SCRIPT && CancelOffer(env, s, caller, id).Ok?
    ensures id in s.offers
    ensures Surplus(env, CancelOffer(env, s, caller, id).value, d)
         == Surplus(env, s, d) + if s.offers[id].pfand == 0 && s.offers[id].haveDenom == d then s.offers[id].have else 0
    ensures forall e :: Supply(CancelOffer(env, s, caller, id).value.bank, e) == Supply(s.bank, e)
  {
    var o := s.offers[id];
    SendEffect(s.bank, SCRIPT, caller, PFAND, o.pfand);
    CancelLiabilities(s, id, d);
    hide Supply, Send, Balance, Escrow, Locked;
  }

  /** A cancel keeps every surplus, and with it exact backing, if and only if the offer is a liquid one. */
  lemma CancelKeepsBacking(env: Env, s: State, caller: Address, id: nat)
    requires Sound(env, s) && caller != SCRIPT && CancelOffer(env, s, caller, id).Ok?
    ensures id in s.offers
    ensures (forall d :: Surplus(env, CancelOffer(env, s, caller, id).value, d) == Surplus(env, s, d))
       <==> env.isLiquid(s.offers[id].haveDenom)
  {
    assert id in s.offers && s.offers[id].status.Open?;
    var o := s.offers[id];
    assert OfferOk(env, o);
    Lots.Positive(o.units, o.unitHave);
    hide Sound, CancelOffer, Surplus;
    forall d ensures Surplus(env, CancelOffer(env, s, caller, id).value, d)
                  == Surplus(env, s, d) + if o.pfand == 0 && o.haveDenom == d then o.have else 0
    {
      CancelSurplus(env, s, caller, id, d);
    }
    CancelSurplus(env, s, caller, id, o.haveDenom);
  }

  lemma CancelFine(env: Env, s: State, caller: Address, att: seq<Coin>, id: nat)
    requires Sound(env, s) && Covered(env, s, att) && caller != SCRIPT
    ensures Fine(env, CancelOffer(env, s, caller, id))
  {
    var r := CancelOffer(env, s, caller, id);
    if id in s.offers && s.offers[id].status.Open? {
      LiabilitiesNatural(env, s, PFAND);
      assert Surplus(env, s, PFAND) >= Attached(att, PFAND);
      SendEffect(s.bank, SCRIPT, caller, PFAND, s.offers[id].pfand);
    }
    hide Supply, Send, Balance, Escrow, Locked;
    if r.Ok? {
      forall d ensures Surplus(env, r.value, d) >= 0 {
        CancelSurplus(env, s, caller, id, d);
        assert Surplus(env, s, d) >= Attached(att, d);
      }
      CancelSurplus(env, s, caller, id, PFAND);
      hide Surplus;
      NoAttachments(env, r.value);
    }
  }

  lemma TakeFine(env: Env, s: State, caller: Address, att: seq<Coin>, trades: seq<Trade>)
    requires ValidEnv(env) && Sound(env, s) && Covered(env, s, att) && caller != SCRIPT
    ensures Fine(env, TakeOffer(env, s, caller, att, trades))
  {
    var r := TakeOffer(env, s, caller, att, trades);
    if r.Ok? || r == Err(SendFailed) {
      var x := TakeIsBatch(env, s, caller, att, trades);
      ForwardsNeverFail(env, s, caller, att, x);
      hide TakeOffer, Settle, BatchOf, Sound, Surplus;
      if r.Ok? {
        BatchSound(env, s, caller, att, x);
        forall d ensures Surplus(env, r.value, d) >= 0 {
          BatchSurplus(env, s, caller, att, x, d);
          assert Surplus(env, s, d) >= Attached(att, d);
        }
        NoAttachments(env, r.value);
      }
    }
  }

  /** Liquid coins attached to a take pay for nothing: it does what it does without them. */
  lemma LiquidPaysNothing(env: Env, s: State, taker: Address, att: seq<Coin>, x: Coin, trades: seq<Trade>)
    requires Sound(env, s) && env.isLiquid(x.denom)
    ensures TakeOffer(env, s, taker, att + [x], trades) == TakeOffer(env, s, taker, att, trades)
  {
    if Infos(s.offers, trades).Ok? {
      var infos := Infos(s.offers, trades).value;
      InfosGenuine(s.offers, trades);
      RequiredSum(infos, x.denom);
      forall i | 0 <= i < |infos| ensures infos[i].wantDenom != x.denom {
        assert OfferOk(env, s.offers[infos[i].id]);
      }
      hide Infos, Sound, Required, HasKey;
      RemainderIgnores(env, Required(infos), att, x);
      hide Remainder, OverAttached;
    }
  }

  // ---- runs ----

  /** What others may do: no one but the script's own code acts as the script, and only the script mints liquid coins. */
  predicate WellFormed(env: Env, tx: Tx) {
    match tx
    case Call(caller, _, _) => caller != SCRIPT
    case SetPfand(_) => true
    case UserSend(from, _, _, _) => from != SCRIPT
    case UserMint(_, d, _) => !env.isLiquid(d)
  }

  lemma AttachedCovers(env: Env, s: State, caller: Address, att: seq<Coin>)
    requires Solvent(env, s) && caller != SCRIPT && Attach(s.bank, caller, att).Some?
    ensures Sound(env, s.(bank := Attach(s.bank, caller, att).value))
    ensures Covered(env, s.(bank := Attach(s.bank, caller, att).value), att)
    ensures forall d :: Surplus(env, s.(bank := Attach(s.bank, caller, att).value), d) == Surplus(env, s, d) + Attached(att, d)
  {
    var s' := s.(bank := Attach(s.bank, caller, att).value);
    forall d ensures Surplus(env, s', d) == Surplus(env, s, d) + Attached(att, d) && Surplus(env, s, d) >= 0 {
      AttachEffect(s.bank, caller, att, d);
      AttachEffect(s.bank, caller, att, env.quote(d));
      assert Surplus(env, s, d) >= Attached([], d);
      hide Supply, Balance, Escrow, Locked, Attached, Attach;
    }
    forall l | env.isLiquid(l) && !Canonical(env, l) ensures Supply(s'.bank, l) == 0 {
      AttachEffect(s.bank, caller, att, l);
    }
    hide Supply, Balance, Escrow, Locked, Attached, Attach, Surplus, OfferOk;
  }

  /** Every call leaves the script solvent, and none fails because the script could not pay what it meant to send. */
  lemma CallFine(env: Env, s: State, caller: Address, att: seq<Coin>, op: Op)
    requires ValidEnv(env) && Solvent(env, s) && caller != SCRIPT
    ensures Fine(env, Apply(env, s, Call(caller, att, op)))
  {
    var b := Attach(s.bank, caller, att);
    if b.Some? {
      AttachedCovers(env, s, caller, att);
      hide Attach, Sound, Covered, Solvent, ConvertToLiquid, ConvertToSolid, MakeOffer, TakeOffer, CancelOffer;
      var s' := s.(bank := b.value);
      match op {
        case ToLiquid(d, x) => ToLiquidFine(env, s', caller, att, d, x);
        case ToSolid(l, x) => ToSolidFine(env, s', caller, att, l, x);
        case Make(have, want) => MakeFine(env, s', caller, att, have, want);
        case Take(trades) => TakeFine(env, s', caller, att, trades);
        case Cancel(id) => CancelFine(env, s', caller, att, id);
      }
    }
  }

  /** Whatever raises the script's balances and mints no liquid coin keeps it solvent. */
  lemma OthersKeepSolvent(env: Env, s: State, b: Ledger)
    requires ValidEnv(env) && Solvent(env, s)
    requires forall d :: Balance(b, SCRIPT, d) >= Balance(s.bank, SCRIPT, d)
    requires forall d :: env.isLiquid(d) ==> Supply(b, d) == Supply(s.bank, d)
    ensures Solvent(env, s.(bank := b))
  {
    var s' := s.(bank := b);
    hide Supply, Balance, Escrow, Locked, OfferOk;
    forall d ensures Surplus(env, s', d) >= 0 {
      assert Surplus(env, s, d) >= Attached([], d);
      assert env.isLiquid(env.quote(d));
    }
  }

  lemma StepKeepsSolvent(env: Env, s: State, tx: Tx)
    requires ValidEnv(env) && Solvent(env, s) && WellFormed(env, tx)
    ensures Solvent(env, Step(env, s, tx))
  {
    match tx {
      case Call(caller, att, op) =>
        CallFine(env, s, caller, att, op);
      case SetPfand(v) =>
        hide Supply, Balance, Escrow, Locked, OfferOk;
        forall d ensures Surplus(env, s.(pfandPerOffer := v), d) >= 0 {
          assert Surplus(env, s, d) >= Attached([], d);
        }
      case UserSend(from, to, d, x) =>
        SendEffect(s.bank, from, to, d, x);
        hide Supply, Balance, Send, Solvent;
        if Send(s.bank, from, to, d, x).Some? {
          OthersKeepSolvent(env, s, Send(s.bank, from, to, d, x).value);
        }
      case UserMint(to, d, x) =>
        CreditEffect(s.bank, to, d, x);
        hide Supply, Balance, Credit, Solvent;
        OthersKeepSolvent(env, s, Credit(s.bank, to, d, x));
    }
  }

  /** In every state a run reaches, the script's balance covers its liabilities in every denom. */
  lemma {:induction false} SolventForever(env: Env, s: State, txs: seq<Tx>)
    requires ValidEnv(env) && Solvent(env, s)
    requires forall i :: 0 <= i < |txs| ==> WellFormed(env, txs[i])
    ensures Solvent(env, Run(env, s, txs))
    ensures forall d :: Balance(Run(env, s, txs).bank, SCRIPT, d) >= Liabilities(env, Run(env, s, txs), d)
    decreases |txs|
  {
    if txs != [] {
      hide Solvent, Step;
      StepKeepsSolvent(env, s, txs[0]);
      SolventForever(env, Step(env, s, txs[0]), txs[1..]);
    } else {
      forall d ensures Balance(s.bank, SCRIPT, d) >= Liabilities(env, s, d) {
        assert Surplus(env, s, d) >= Attached([], d);
      }
    }
  }

  /** A chain without offers and without liquid coins is where runs start. */
  lemma StartsSolvent(env: Env, s: State)
    requires ValidEnv(env) && s.offers == map[]
    requires forall l :: env.isLiquid(l) ==> Supply(s.bank, l) == 0
    ensures Solvent(env, s)
  {
    hide Supply, Balance;
    forall d ensures Surplus(env, s, d) >= 0 {
      BalanceWithinSupply(s.bank, SCRIPT, d);
      assert env.isLiquid(env.quote(d));
    }
  }

  /** A batch take changes the surplus of no denom it pays in: afterwards it is what it was before the attached coins
      arrived, plus the coins attached in denoms no taken offer wants. */
  lemma TakeKeepsSurplus(env: Env, s: State, taker: Address, att: seq<Coin>, trades: seq<Trade>, d: Denom)
    requires ValidEnv(env) && Solvent(env, s) && taker != SCRIPT
    requires Apply(env, s, Call(taker, att, Take(trades))).Ok?
    ensures forall i :: 0 <= i < |trades| ==> trades[i].offerId in s.offers
    ensures
      var wanted := exists i :: 0 <= i < |trades| && s.offers[trades[i].offerId].wantDenom == d;
      Surplus(env, Apply(env, s, Call(taker, att, Take(trades))).value, d)
        == Surplus(env, s, d) + if wanted then 0 else Attached(att, d)
  {
    AttachedCovers(env, s, taker, att);
    hide Attach, Solvent, Sound, Covered, Surplus, Attached, TakeOffer;
    var s' := s.(bank := Attach(s.bank, taker, att).value);
    var x := TakeIsBatch(env, s', taker, att, trades);
    BatchSurplus(env, s', taker, att, x, d);
    hide BatchOf, Settle, Fill;
    InfosGenuine(s.offers, trades);
    WantedByTrades(s.offers, trades, x.infos, d);
  }

  lemma WantedByTrades(offers: Offers, trades: seq<Trade>, infos: seq<Info>, d: Denom)
    requires Genuine(offers, infos) && |infos| == |trades|
    requires forall i :: 0 <= i < |trades| ==> infos[i].id == trades[i].offerId
    ensures forall i :: 0 <= i < |trades| ==> trades[i].offerId in offers
    ensures Wanted(infos, d) <==> exists i :: 0 <= i < |trades| && offers[trades[i].offerId].wantDenom == d
  {
    forall i | 0 <= i < |trades|
      ensures trades[i].offerId in offers && offers[trades[i].offerId].wantDenom == infos[i].wantDenom
    {
      assert infos[i].id in offers;
    }
    if Wanted(infos, d) {
      var i :| 0 <= i < |infos| && infos[i].wantDenom == d;
      assert offers[trades[i].offerId].wantDenom == d;
    }
  }
}
