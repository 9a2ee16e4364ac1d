/** The DEX order book as a stored object: make, take and cancel update the offers, the trade log and the index. */
module OfferBookModule {
  import opened Options
  import opened Bank
  import opened Dicts
  import opened DexSettlement
  import opened Keys
  import opened Lots
  import opened OfferIndex

  datatype Error =
    | AmountNotPositive
    | SameDenom
    | InsufficientBalance
    | NoTrades
    | DuplicateOffer
    | NotFound
    | NotOpen
    | BadUnits
    | NotMaker
    | MoveFailed

  datatype Result<T> = Ok(value: T) | Err(error: Error)

  /** A requested take: an offer and a number of units, or none for all that remain. */
  datatype Take = Take(offerId: nat, units: Option<int>)

  function UnitsOf(o: Offer, t: Take): int {
    if t.units.None? then o.units else t.units.value
  }

  predicate Takeable(offers: Offers, t: Take) {
    t.offerId in offers && offers[t.offerId].status.Open? && 1 <= UnitsOf(offers[t.offerId], t) <= offers[t.offerId].units
  }

  /** No offer twice, and every offer open with at least the units asked for. */
  ghost predicate AllTakeable(offers: Offers, takes: seq<Take>) {
    && (forall i, j :: 0 <= i < j < |takes| ==> takes[i].offerId != takes[j].offerId)
    && (forall i :: 0 <= i < |takes| ==> Takeable(offers, takes[i]))
  }

  /** The offers and the trade log after the first n takes of a batch. */
  ghost function TakeFirst(offers: Offers, trades: seq<Trade>, takes: seq<Take>, taker: string, n: nat): (Offers, seq<Trade>)
    requires n <= |takes| && AllTakeable(offers, takes)
    ensures forall i :: n <= i < |takes| ==>
      takes[i].offerId in TakeFirst(offers, trades, takes, taker, n).0
      && TakeFirst(offers, trades, takes, taker, n).0[takes[i].offerId] == offers[takes[i].offerId]
  {
    if n == 0 then (offers, trades)
    else
      var (os, ts) := TakeFirst(offers, trades, takes, taker, n - 1);
      var o := os[takes[n - 1].offerId];
      var units := UnitsOf(o, takes[n - 1]);
      (os[takes[n - 1].offerId := TakeUnits(o, units)], ts + [TradeOf(o, taker, units)])
  }

  function LegOf(o: Offer, n: nat): Leg {
    Leg(o.maker, o.wantDenom, o.haveDenom, n * o.unitWant, n * o.unitHave)
  }

  /** What the takes of a batch move. */
  ghost function LegsOf(offers: Offers, takes: seq<Take>): seq<Leg>
    requires AllTakeable(offers, takes)
  {
    seq(|takes|, i requires 0 <= i < |takes| => LegOf(offers[takes[i].offerId], UnitsOf(offers[takes[i].offerId], takes[i])))
  }

  lemma NewOfferNamed(id: nat, maker: string, haveDenom: string, have: nat, wantDenom: string, want: nat)
    requires have > 0 && want > 0
    ensures
      var o := NewOffer(id, maker, haveDenom, have, wantDenom, want);
      o.id == id && o.maker == maker && o.remainingHave == o.initialHave && o.remainingWant == o.initialWant
  {
    hide Split;
  }

  lemma CancelledSound(offers: Offers, trades: seq<Trade>, o: Offer)
    requires Sound(o) && o.status.Open? && o.id in offers && offers[o.id] == o && FillsAddUp(offers, trades)
    ensures Sound(o.(status := Cancelled)) && FillsAddUp(offers[o.id := o.(status := Cancelled)], trades)
  {
    hide Split, Gcd;
  }

  class OfferBook {
    var bank: Ledger
    var offers: Offers
    var index: Index
    var trades: seq<Trade>
    var lastId: nat

    /** At all times: the index is the exact image of the offers, ids are given out once, and fills add up. */
    ghost predicate Valid()
      reads this
    {
      && Agrees(offers, index)
      && (forall id :: id in offers ==> 1 <= id <= lastId && offers[id].maker != MODULE)
      && FillsAddUp(offers, trades)
    }

    constructor (bank: Ledger)
      ensures Valid() && this.bank == bank && offers == map[] && trades == []
    {
      this.bank, offers, index, trades, lastId := bank, map[], map[], [], 0;
    }

    /** Writes an offer and brings its secondary keys up to date. */
    method Store(o: Offer, ghost before: set<string>)
      requires Agrees(offers, index) && Sound(o)
      requires before == if o.id in offers then Indexes(offers[o.id]) else {}
      modifies this`offers, this`index
      ensures offers == old(offers)[o.id := o] && Agrees(offers, index)
    {
      var oldIndexes := if o.id in offers then Indexes(offers[o.id]) else {};
      var newIndexes := Indexes(o);
      ReindexAgrees(offers, index, o);
      index := index - (oldIndexes - newIndexes);
      index := index + (map k | k in newIndexes :: OfferKey(o.id));
      offers := offers[o.id := o];
    }

    /** Creates an offer; the maker must hold what it offers. */
    method Make(maker: Address, haveDenom: Denom, have: int, wantDenom: Denom, want: int) returns (r: Result<nat>)
      requires Valid() && maker != MODULE
      modifies this`offers, this`index, this`lastId
      ensures Valid()
      ensures r.Ok? <==> have > 0 && want > 0 && haveDenom != wantDenom && Balance(bank, maker, haveDenom) >= have
      ensures r.Ok? ==>
        && r.value == lastId == old(lastId) + 1 && r.value !in old(offers)
        && offers == old(offers)[r.value := NewOffer(r.value, maker, haveDenom, have, wantDenom, want)]
        && trades == old(trades)
      ensures r.Err? ==> unchanged(this)
    {
      hide Agrees, FillsAddUp, Sound, NewOffer, Indexes, Balance;
      if have <= 0 || want <= 0 {
        return Err(AmountNotPositive);
      }
      if haveDenom == wantDenom {
        return Err(SameDenom);
      }
      if Balance(bank, maker, haveDenom) < have {
        return Err(InsufficientBalance);
      }
      lastId := lastId + 1;
      var o := NewOffer(lastId, maker, haveDenom, have, wantDenom, want);
      NewOfferSound(lastId, maker, haveDenom, have, wantDenom, want);
      NewOfferNamed(lastId, maker, haveDenom, have, wantDenom, want);
      NewOfferFills(offers, trades, o);
      Store(o, {});
      return Ok(lastId);
    }

    /** The first pass of a batch take: every offer named once, open, and with at least the units asked for. */
    method CheckTakes(takes: seq<Take>) returns (r: Result<seq<Leg>>)
      ensures r.Ok? <==> takes != [] && AllTakeable(offers, takes)
      ensures r.Ok? ==> r.value == LegsOf(offers, takes)
    {
      if takes == [] {
        return Err(NoTrades);
      }
      var seen: set<nat> := {};
      var legs: seq<Leg> := [];
      for i := 0 to |takes|
        invariant forall j :: 0 <= j < i ==> Takeable(offers, takes[j])
        invariant seen == set j | 0 <= j < i :: takes[j].offerId
        invariant forall j, k :: 0 <= j < k < i ==> takes[j].offerId != takes[k].offerId
        invariant |legs| == i
        invariant forall j :: 0 <= j < i ==> legs[j] == LegOf(offers[takes[j].offerId], UnitsOf(offers[takes[j].offerId], takes[j]))
      {
        var t := takes[i];
        if t.offerId in seen {
          return Err(DuplicateOffer);
        }
        seen := seen + {t.offerId};
        if t.offerId !in offers {
          return Err(NotFound);
        }
        if !offers[t.offerId].status.Open? {
          return Err(NotOpen);
        }
        if !(1 <= UnitsOf(offers[t.offerId], t) <= offers[t.offerId].units) {
          return Err(BadUnits);
        }
        legs := legs + [LegOf(offers[t.offerId], UnitsOf(offers[t.offerId], t))];
      }
      return Ok(legs);
    }

    /** Adds up what each account sends and receives. */
    static method CollectSums(legs: seq<Leg>) returns (s: Sums)
      ensures s == Collect(legs)
    {
      s := Sums([], [], [], []);
      for i := 0 to |legs|
        invariant s == Collect(legs[..i])
      {
        assert legs[..i + 1][..i] == legs[..i];
        s := DexSettlement.AddLeg(s, legs[i]);
      }
      assert legs[..|legs|] == legs;
    }

    /** Checks each account's balance against each amount it sends. */
    static method CheckBalances(b: Ledger, inputs: Nested<Address, Denom>) returns (ok: bool)
      ensures ok == Checked(b, inputs)
    {
      for i := 0 to |inputs|
        invariant Checked(b, inputs[..i])
      {
        var (a, m) := inputs[i];
        for j := 0 to |m|
          invariant forall k :: 0 <= k < j ==> m[k].1 <= Balance(b, a, m[k].0)
        {
          if Balance(b, a, m[j].0) < m[j].1 {
            return false;
          }
        }
      }
      assert inputs[..|inputs|] == inputs;
      ok := true;
    }

    static method MoveIn(b0: Ledger, inputs: Nested<Address, Denom>) returns (r: Option<Ledger>)
      ensures r == PayAllIn(b0, inputs)
    {
      var b := b0;
      for i := 0 to |inputs|
        invariant PayAllIn(b0, inputs) == PayAllIn(b, inputs[i..])
      {
        assert inputs[i..][0] == inputs[i] && inputs[i..][1..] == inputs[i + 1..];
        hide PayIn;
        var paid := PayIn(b, inputs[i].0, inputs[i].1);
        if paid.None? {
          return None;
        }
        b := paid.value;
      }
      r := Some(b);
    }

    static method MoveOut(b0: Ledger, outputs: Nested<Address, Denom>) returns (r: Option<Ledger>)
      ensures r == PayAllOut(b0, outputs)
    {
      var b := b0;
      for i := 0 to |outputs|
        invariant PayAllOut(b0, outputs) == PayAllOut(b, outputs[i..])
      {
        assert outputs[i..][0] == outputs[i] && outputs[i..][1..] == outputs[i + 1..];
        hide PayOut;
        var paid := PayOut(b, outputs[i].0, outputs[i].1);
        if paid.None? {
          return None;
        }
        b := paid.value;
      }
      r := Some(b);
    }

    /** The balance checks and the single move. The checks look at one amount at a time, so they can pass where the move fails;
        the call as a whole succeeds exactly when every account covers all its legs. */
    static method MoveCoins(b: Ledger, taker: Address, legs: seq<Leg>) returns (r: Result<Ledger>)
      requires taker != MODULE && forall i :: 0 <= i < |legs| ==> legs[i].maker != MODULE
      ensures r.Ok? <==> Covers(b, taker, legs)
      ensures r.Ok? ==> forall a, d ::
        Balance(r.value, a, d) == Balance(b, a, d) - Gives(taker, legs, a, d) + Gets(taker, legs, a, d)
    {
      var s := CollectSums(legs);
      SettleEffect(b, taker, legs);
      var ok := CheckBalances(b, Inputs(taker, s));
      if Covers(b, taker, legs) { CoveredIsChecked(b, taker, legs); }
      hide Collect, Gives, Gets, Balance, PayAllIn, PayAllOut, Checked;
      if !ok {
        return Err(InsufficientBalance);
      }
      var paid := MoveIn(b, Inputs(taker, s));
      if paid.None? {
        return Err(MoveFailed);
      }
      var settled := MoveOut(paid.value, Outputs(taker, s));
      if settled.None? {
        return Err(MoveFailed);
      }
      r := Ok(settled.value);
    }

    /** The second pass for one offer: records the trade and updates the offer and its keys. */
    method Fill(taker: string, t: Take)
      requires Valid() && Takeable(offers, t)
      modifies this`offers, this`index, this`trades
      ensures Valid() && lastId == old(lastId)
      ensures var o := old(offers)[t.offerId];
        && offers == old(offers)[t.offerId := TakeUnits(o, UnitsOf(o, t))]
        && trades == old(trades) + [TradeOf(o, taker, UnitsOf(o, t))]
    {
      hide Sound, Indexes, Sent, Received;
      var o := offers[t.offerId];
      var units := UnitsOf(o, t);
      FillRecorded(offers, trades, taker, t.offerId, units);
      TakeUnitsSound(o, units);
      trades := trades + [TradeOf(o, taker, units)];
      Store(TakeUnits(o, units), Indexes(o));
    }

    /** Takes units of several offers in one transaction, settled by one move of coins. The whole call is reverted when an
        offer is not takeable, is named twice, or some account does not cover what it sends. */
    method TakeBatch(taker: Address, takes: seq<Take>) returns (r: Result<()>)
      requires Valid() && taker != MODULE
      modifies this
      ensures Valid()
      ensures r.Ok? <==>
        takes != [] && AllTakeable(old(offers), takes) && Covers(old(bank), taker, LegsOf(old(offers), takes))
      ensures r.Ok? ==> (offers, trades) == TakeFirst(old(offers), old(trades), takes, taker, |takes|)
      ensures r.Ok? ==>
        var legs := LegsOf(old(offers), takes);
        forall a, d :: Balance(bank, a, d) == Balance(old(bank), a, d) - Gives(taker, legs, a, d) + Gets(taker, legs, a, d)
      ensures r.Ok? ==> lastId == old(lastId)
      ensures r.Err? ==> unchanged(this)
    {
      hide Agrees, FillsAddUp, Gives, Gets, Balance, Covers, TakeUnits;
      var checked := CheckTakes(takes);
      if checked.Err? {
        return Err(checked.error);
      }
      var moved := MoveCoins(bank, taker, checked.value);
      if moved.Err? {
        return Err(moved.error);
      }
      for i := 0 to |takes|
        invariant Valid() && lastId == old(lastId) && bank == old(bank)
        invariant (offers, trades) == TakeFirst(old(offers), old(trades), takes, taker, i)
      {
        assert Takeable(old(offers), takes[i]);
        Fill(taker, takes[i]);
      }
      bank := moved.value;
      r := Ok(());
    }

    /** Cancelling keeps the remaining amounts and drops the offer's book keys. */
    method Cancel(caller: Address, offerId: nat) returns (r: Result<()>)
      requires Valid()
      modifies this`offers, this`index
      ensures Valid()
      ensures r.Ok? <==> offerId in old(offers) && old(offers)[offerId].maker == caller && old(offers)[offerId].status.Open?
      ensures r.Ok? ==> offers == old(offers)[offerId := old(offers)[offerId].(status := Cancelled)]
      ensures r.Ok? ==> trades == old(trades) && lastId == old(lastId)
      ensures r.Err? ==> unchanged(this)
    {
      hide Indexes, FillsAddUp, Sound;
      if offerId !in offers {
        return Err(NotFound);
      }
      var o := offers[offerId];
      if caller != o.maker {
        return Err(NotMaker);
      }
      if !o.status.Open? {
        return Err(NotOpen);
      }
      CancelledSound(offers, trades, o);
      Store(o.(status := Cancelled), Indexes(o));
      return Ok(());
    }
  }
}
