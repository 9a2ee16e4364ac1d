/** Offers of the DEX order book and the secondary storage keys that point at them. */
module OfferIndex {
  import opened Keys
  import opened Lots

  datatype Status = Open | Closed | Cancelled

  datatype Offer = Offer(
    id: nat, status: Status, maker: string,
    haveDenom: string, wantDenom: string, initialHave: nat, initialWant: nat,
    remainingHave: nat, remainingWant: nat, unitHave: nat, unitWant: nat, units: nat)

  function StatusText(s: Status): string {
    match s
    case Open => "open"
    case Closed => "closed"
    case Cancelled => "cancelled"
  }

  /** A new offer, split into its finest units. */
  function NewOffer(id: nat, maker: string, haveDenom: string, have: nat, wantDenom: string, want: nat): Offer
    requires have > 0 && want > 0
  {
    var lot := Split(have, want);
    Offer(id, Open, maker, haveDenom, wantDenom, have, want, have, want, lot.unitHave, lot.unitWant, lot.units)
  }

  /** The offer after n of its units were taken. */
  function TakeUnits(o: Offer, n: nat): Offer
    requires n <= o.units
  {
    var left := o.units - n;
    if left == 0 then o.(status := Closed, units := 0, remainingHave := 0, remainingWant := 0)
    else o.(units := left, remainingHave := left * o.unitHave, remainingWant := left * o.unitWant)
  }

  /** What holds of every offer at all times: the unit amounts are those of the initial amounts, in lowest terms, and
      what remains is a whole number of units of each side. An offer is closed exactly when nothing remains. */
  ghost predicate Sound(o: Offer) {
    && o.initialHave > 0 && o.initialWant > 0 && o.unitHave > 0 && o.unitWant > 0
    && Coprime(o.unitHave, o.unitWant)
    && o.unitHave == Split(o.initialHave, o.initialWant).unitHave
    && o.unitWant == Split(o.initialHave, o.initialWant).unitWant
    && o.remainingHave == o.units * o.unitHave && o.remainingWant == o.units * o.unitWant
    && (o.status.Closed? <==> o.units == 0)
  }

  lemma RemainingPositive(o: Offer)
    requires Sound(o) && o.units > 0
    ensures o.remainingHave > 0 && o.remainingWant > 0
  {
    Positive(o.units, o.unitHave);
    Positive(o.units, o.unitWant);
  }

  lemma NewOfferSound(id: nat, maker: string, haveDenom: string, have: nat, wantDenom: string, want: nat)
    requires have > 0 && want > 0
    ensures Sound(NewOffer(id, maker, haveDenom, have, wantDenom, want))
  {
    FinestLots(have, want);
  }

  /** Filling keeps an offer sound and its price exactly what it was at the start. */
  lemma TakeUnitsSound(o: Offer, n: nat)
    requires Sound(o) && o.status.Open? && n <= o.units
    ensures Sound(TakeUnits(o, n))
    ensures TakeUnits(o, n).remainingHave + n * o.unitHave == o.remainingHave
    ensures TakeUnits(o, n).remainingWant + n * o.unitWant == o.remainingWant
  {
    hide Split, Gcd;
    Distribute(o.unitHave, o.units, n);
    Distribute(o.unitWant, o.units, n);
  }

  /** Over every run the remaining amounts keep the initial price exactly. */
  lemma PriceKept(o: Offer)
    requires Sound(o)
    ensures o.remainingHave * o.initialWant == o.remainingWant * o.initialHave
  {
    FinestLots(o.initialHave, o.initialWant);
    hide Split, Gcd;
    var n := Split(o.initialHave, o.initialWant).units;
    CrossProducts(o.units, o.unitHave, o.unitWant, n);
  }

  lemma CrossProducts(m: nat, x: nat, y: nat, n: nat)
    ensures m * x * (n * y) == m * y * (n * x)
  {
    assert m * x * (n * y) == (m * n) * (x * y);
    assert m * y * (n * x) == (m * n) * (x * y);
  }

  // ---- keys ----

  function OfferKey(id: nat): string {
    "oid|" + Pad(id, 10)
  }

  function OwnerIndex(o: Offer): string {
    "maker|" + o.maker + "|status|" + StatusText(o.status) + "|id|" + Pad(o.id, 10)
  }

  function WantIndex(o: Offer): string
    requires Sound(o) && o.status.Open?
  {
    RemainingPositive(o);
    "w|" + o.wantDenom + "|h|" + o.haveDenom + "|" + PriceKey(o.remainingHave, o.remainingWant) + "|" + OfferKey(o.id)
  }

  function HaveIndex(o: Offer): string
    requires Sound(o) && o.status.Open?
  {
    RemainingPositive(o);
    "h|" + o.haveDenom + "|w|" + o.wantDenom + "|" + PriceKey(o.remainingWant, o.remainingHave) + "|" + OfferKey(o.id)
  }

  /** The rounded price of an open offer, want per have. */
  function HavePrice(o: Offer): nat
    requires Sound(o) && o.status.Open?
  {
    RemainingPositive(o);
    RoundedPrice(o.remainingWant, o.remainingHave)
  }

  /** The rounded price of an open offer, have per want. */
  function WantPrice(o: Offer): nat
    requires Sound(o) && o.status.Open?
  {
    RemainingPositive(o);
    RoundedPrice(o.remainingHave, o.remainingWant)
  }

  /** The secondary keys of an offer: one for its maker, and while it is open one for each side of the book. */
  function Indexes(o: Offer): set<string>
    requires Sound(o)
  {
    if o.status.Open? then {OwnerIndex(o), WantIndex(o), HaveIndex(o)} else {OwnerIndex(o)}
  }

  lemma EndsInOfferKey(pre: string, id: nat)
    ensures Number(LastPart(pre + "|" + OfferKey(id))) == id
  {
    PadReads(id, 10);
    hide Pad, LastPart, Number;
    LastPartOf(pre + "|oid", Pad(id, 10));
    assert pre + "|" + OfferKey(id) == pre + "|oid" + "|" + Pad(id, 10);
  }

  lemma EndsInPaddedId(pre: string, id: nat)
    ensures Number(LastPart(pre + "|id|" + Pad(id, 10))) == id
  {
    PadReads(id, 10);
    hide Pad, LastPart, Number;
    LastPartOf(pre + "|id", Pad(id, 10));
    assert pre + "|id|" + Pad(id, 10) == pre + "|id" + "|" + Pad(id, 10);
  }

  /** Every secondary key ends in the id of its offer. */
  lemma KeyEndsInId(o: Offer, k: string)
    requires Sound(o) && k in Indexes(o)
    ensures Number(LastPart(k)) == o.id
  {
    hide Pad, LastPart, Number, PriceKey, OfferKey, Split, Gcd;
    if k == OwnerIndex(o) {
      EndsInPaddedId("maker|" + o.maker + "|status|" + StatusText(o.status), o.id);
    } else {
      RemainingPositive(o);
      if k == WantIndex(o) {
        EndsInOfferKey("w|" + o.wantDenom + "|h|" + o.haveDenom + "|" + PriceKey(o.remainingHave, o.remainingWant), o.id);
      } else {
        EndsInOfferKey("h|" + o.haveDenom + "|w|" + o.wantDenom + "|" + PriceKey(o.remainingWant, o.remainingHave), o.id);
      }
    }
  }

  /** Keys of distinct offers never collide, whatever their makers and denoms. */
  lemma KeysNeverCollide(o: Offer, p: Offer)
    requires Sound(o) && Sound(p) && o.id != p.id
    ensures Indexes(o) !! Indexes(p)
  {
    hide Indexes, Sound;
    forall k | k in Indexes(o) && k in Indexes(p) ensures false {
      KeyEndsInId(o, k);
      KeyEndsInId(p, k);
    }
  }

  /** A partial fill leaves every key unchanged, because it leaves the price ratio unchanged. */
  lemma PartialFillKeepsKeys(o: Offer, n: nat)
    requires Sound(o) && o.status.Open? && n < o.units
    ensures Sound(TakeUnits(o, n)) && Indexes(TakeUnits(o, n)) == Indexes(o)
  {
    TakeUnitsSound(o, n);
    var p := TakeUnits(o, n);
    RemainingPositive(o);
    RemainingPositive(p);
    CrossProducts(o.units, o.unitHave, o.unitWant, p.units);
    CrossProducts(o.units, o.unitWant, o.unitHave, p.units);
    PriceSameRatio(o.remainingHave, o.remainingWant, p.remainingHave, p.remainingWant);
    PriceSameRatio(o.remainingWant, o.remainingHave, p.remainingWant, p.remainingHave);
    hide PriceKey, Split, Gcd;
  }

  /** Two open offers of one market: their keys on the have side are listed by rounded price, ties by id. */
  lemma BookOrder(o: Offer, p: Offer)
    requires Sound(o) && Sound(p) && o.status.Open? && p.status.Open?
    requires o.haveDenom == p.haveDenom && o.wantDenom == p.wantDenom
    requires o.id < Pow10(10) && p.id < Pow10(10)
    requires HavePrice(o) < Pow10(INT_WIDTH) * Pow10(DIGITS) && HavePrice(p) < Pow10(INT_WIDTH) * Pow10(DIGITS)
    ensures Less(HaveIndex(o), HaveIndex(p)) <==> HavePrice(o) < HavePrice(p) || (HavePrice(o) == HavePrice(p) && o.id < p.id)
  {
    assert HaveIndex(o) == BookKey("h|" + o.haveDenom + "|w|" + o.wantDenom + "|", HavePrice(o), o.id);
    assert HaveIndex(p) == BookKey("h|" + o.haveDenom + "|w|" + o.wantDenom + "|", HavePrice(p), p.id);
    hide *;
    BookKeyOrder("h|" + o.haveDenom + "|w|" + o.wantDenom + "|", HavePrice(o), o.id, HavePrice(p), p.id);
  }

  /** The same on the want side, where the price is have per want. */
  lemma BookOrderWant(o: Offer, p: Offer)
    requires Sound(o) && Sound(p) && o.status.Open? && p.status.Open?
    requires o.haveDenom == p.haveDenom && o.wantDenom == p.wantDenom
    requires o.id < Pow10(10) && p.id < Pow10(10)
    requires WantPrice(o) < Pow10(INT_WIDTH) * Pow10(DIGITS) && WantPrice(p) < Pow10(INT_WIDTH) * Pow10(DIGITS)
    ensures Less(WantIndex(o), WantIndex(p)) <==> WantPrice(o) < WantPrice(p) || (WantPrice(o) == WantPrice(p) && o.id < p.id)
  {
    assert WantIndex(o) == BookKey("w|" + o.wantDenom + "|h|" + o.haveDenom + "|", WantPrice(o), o.id);
    assert WantIndex(p) == BookKey("w|" + o.wantDenom + "|h|" + o.haveDenom + "|", WantPrice(p), p.id);
    hide *;
    BookKeyOrder("w|" + o.wantDenom + "|h|" + o.haveDenom + "|", WantPrice(o), o.id, WantPrice(p), p.id);
  }

  function BookKey(market: string, price: nat, id: nat): string {
    market + PriceText(price) + "|" + OfferKey(id)
  }

  lemma BookKeyOrder(market: string, x: nat, i: nat, y: nat, j: nat)
    requires x < Pow10(INT_WIDTH) * Pow10(DIGITS) && y < Pow10(INT_WIDTH) * Pow10(DIGITS)
    requires i < Pow10(10) && j < Pow10(10)
    ensures Less(BookKey(market, x, i), BookKey(market, y, j)) <==> x < y || (x == y && i < j)
  {
    hide PriceText, Pow10, Pad, Less;
    PriceTextOrder(x, y);
    PadOrder(i, j, 10);
    var s, t := "|oid|" + Pad(i, 10), "|oid|" + Pad(j, 10);
    LessPrefix("|oid|", Pad(i, 10), Pad(j, 10));
    LessConcat(PriceText(x), PriceText(y), s, t);
    LessPrefix(market, PriceText(x) + s, PriceText(y) + t);
    assert BookKey(market, x, i) == market + (PriceText(x) + s);
    assert BookKey(market, y, j) == market + (PriceText(y) + t);
  }

  /** A strictly better price is never listed later than a worse one, unless both round to the same number. */
  lemma BookOrderFollowsPrice(r1: nat, o1: nat, r2: nat, o2: nat)
    requires o1 > 0 && o2 > 0 && r1 * o2 <= r2 * o1
    ensures RoundedPrice(r1, o1) <= RoundedPrice(r2, o2)
  {
    var p := Pow10(DIGITS);
    assert r1 * p * o2 == r1 * o2 * p;
    assert r2 * p * o1 == r2 * o1 * p;
    Cancel(r1 * o2, r2 * o1, p);
    RoundMonotone(r1 * p, o1, r2 * p, o2);
  }

  // ---- the index ----

  type Offers = map<nat, Offer>
  type Index = map<string, string>

  ghost predicate AllSound(offers: Offers) {
    forall id :: id in offers ==> offers[id].id == id && Sound(offers[id])
  }

  /** The index holds exactly the secondary keys of the offers, each pointing at its offer. */
  ghost predicate Agrees(offers: Offers, index: Index) {
    && AllSound(offers)
    && (forall id, k :: id in offers && k in Indexes(offers[id]) ==> k in index && index[k] == OfferKey(id))
    && (forall k :: k in index ==> exists id :: id in offers && k in Indexes(offers[id]))
  }

  /** Deleting the keys an offer no longer has and setting those it has now. */
  function Reindex(index: Index, before: set<string>, now: set<string>, target: string): Index {
    index - (before - now) + (map k | k in now :: target)
  }

  /** Rewriting one offer and its keys keeps the index the exact image of the offers. */
  lemma ReindexAgrees(offers: Offers, index: Index, o: Offer)
    requires Agrees(offers, index) && Sound(o)
    ensures var before := if o.id in offers then Indexes(offers[o.id]) else {};
      Agrees(offers[o.id := o], Reindex(index, before, Indexes(o), OfferKey(o.id)))
  {
    hide Indexes, Sound, OfferKey;
    var before := if o.id in offers then Indexes(offers[o.id]) else {};
    var offers', index' := offers[o.id := o], Reindex(index, before, Indexes(o), OfferKey(o.id));
    forall id, k | id in offers' && k in Indexes(offers'[id]) ensures k in index' && index'[k] == OfferKey(id) {
      if id != o.id {
        KeysNeverCollide(offers[id], o);
        if o.id in offers { KeysNeverCollide(offers[id], offers[o.id]); }
      }
    }
    forall k | k in index' ensures exists id :: id in offers' && k in Indexes(offers'[id]) {
      if k in Indexes(o) {
        assert o.id in offers' && k in Indexes(offers'[o.id]);
      } else {
        var id :| id in offers && k in Indexes(offers[id]);
        assert id != o.id;
        assert id in offers' && k in Indexes(offers'[id]);
      }
    }
  }

  // ---- fills ----

  datatype Trade = Trade(offerId: nat, taker: string, units: nat, sent: nat, received: nat)

  function Sent(trades: seq<Trade>, id: nat): nat {
    if trades == [] then 0
    else
      var last := trades[|trades| - 1];
      Sent(trades[..|trades| - 1], id) + if last.offerId == id then last.sent else 0
  }

  function Received(trades: seq<Trade>, id: nat): nat {
    if trades == [] then 0
    else
      var last := trades[|trades| - 1];
      Received(trades[..|trades| - 1], id) + if last.offerId == id then last.received else 0
  }

  /** For every offer, also a cancelled one: the fills recorded for it plus what remains are the initial amounts. */
  ghost predicate FillsAddUp(offers: Offers, trades: seq<Trade>) {
    && (forall id :: id in offers ==>
        && Received(trades, id) + offers[id].remainingHave == offers[id].initialHave
        && Sent(trades, id) + offers[id].remainingWant == offers[id].initialWant)
    && (forall t :: t in trades ==> t.offerId in offers)
  }

  lemma {:induction false} NoTradesYet(trades: seq<Trade>, id: nat)
    requires forall t :: t in trades ==> t.offerId != id
    ensures Sent(trades, id) == 0 && Received(trades, id) == 0
  {
    if trades != [] {
      assert trades[|trades| - 1] in trades;
      NoTradesYet(trades[..|trades| - 1], id);
    }
  }

  /** A new offer has no fills, so all of it remains. */
  lemma NewOfferFills(offers: Offers, trades: seq<Trade>, o: Offer)
    requires FillsAddUp(offers, trades) && o.id !in offers
    requires o.remainingHave == o.initialHave && o.remainingWant == o.initialWant
    ensures FillsAddUp(offers[o.id := o], trades)
  {
    NoTradesYet(trades, o.id);
  }

  function TradeOf(o: Offer, taker: string, n: nat): Trade {
    Trade(o.id, taker, n, n * o.unitWant, n * o.unitHave)
  }

  lemma FillRecorded(offers: Offers, trades: seq<Trade>, taker: string, id: nat, n: nat)
    requires AllSound(offers) && FillsAddUp(offers, trades)
    requires id in offers && offers[id].status.Open? && n <= offers[id].units
    ensures FillsAddUp(offers[id := TakeUnits(offers[id], n)], trades + [TradeOf(offers[id], taker, n)])
  {
    var trade := TradeOf(offers[id], taker, n);
    var filled := TakeUnits(offers[id], n);
    TakeUnitsSound(offers[id], n);
    assert trade.offerId == id && trade.received == n * offers[id].unitHave && trade.sent == n * offers[id].unitWant;
    assert filled.initialHave == offers[id].initialHave && filled.initialWant == offers[id].initialWant;
    hide TakeUnits, TradeOf, Sent, Received;
    forall k ensures Sent(trades + [trade], k) == Sent(trades, k) + if k == id then trade.sent else 0
      ensures Received(trades + [trade], k) == Received(trades, k) + if k == id then trade.received else 0
    {
      OneMoreTrade(trades, trade, k);
    }
  }

  lemma OneMoreTrade(trades: seq<Trade>, trade: Trade, id: nat)
    ensures Sent(trades + [trade], id) == Sent(trades, id) + if trade.offerId == id then trade.sent else 0
    ensures Received(trades + [trade], id) == Received(trades, id) + if trade.offerId == id then trade.received else 0
  {
    assert (trades + [trade])[..|trades|] == trades;
  }
}
