/** The single move of coins that settles a batch of takes: amounts are added up per account and denom, all inputs go to the
    nameservice module's account, then all outputs leave it. */
module DexSettlement {
  import opened Options
  import opened Totals
  import opened Bank
  import opened Dicts

  const MODULE: Address := "nameservice"

  /** One take: what the taker sends to the maker and what it receives. */
  datatype Leg = Leg(maker: Address, wantDenom: Denom, haveDenom: Denom, sent: nat, received: nat)

  /** The amounts of a batch, by account and denom. */
  datatype Sums = Sums(
    takerSent: Dict<Denom>, takerReceived: Dict<Denom>,
    makerSent: Nested<Address, Denom>, makerReceived: Nested<Address, Denom>)

  function AddLeg(s: Sums, leg: Leg): Sums {
    Sums(AddTo(s.takerSent, leg.wantDenom, leg.sent), AddTo(s.takerReceived, leg.haveDenom, leg.received),
         AddNested(s.makerSent, leg.maker, leg.haveDenom, leg.received),
         AddNested(s.makerReceived, leg.maker, leg.wantDenom, leg.sent))
  }

  function Collect(legs: seq<Leg>): Sums
    decreases |legs|
  {
    if legs == [] then Sums([], [], [], []) else AddLeg(Collect(legs[..|legs| - 1]), legs[|legs| - 1])
  }

  function Inputs(taker: Address, s: Sums): Nested<Address, Denom> {
    [(taker, s.takerSent)] + s.makerSent
  }

  function Outputs(taker: Address, s: Sums): Nested<Address, Denom> {
    [(taker, s.takerReceived)] + s.makerReceived
  }

  // ---- the two phases of a move ----

  /** Moves one account's coins to the module's account. */
  function PayIn(b: Ledger, from: Address, m: Dict<Denom>): Option<Ledger>
    decreases |m|
  {
    if m == [] then Some(b)
    else if m[0].1 == 0 then PayIn(b, from, m[1..])
    else
      match Send(b, from, MODULE, m[0].0, m[0].1)
      case None => None
      case Some(b') => PayIn(b', from, m[1..])
  }

  function PayAllIn(b: Ledger, mm: Nested<Address, Denom>): Option<Ledger>
    decreases |mm|
  {
    if mm == [] then Some(b)
    else
      match PayIn(b, mm[0].0, mm[0].1)
      case None => None
      case Some(b') => PayAllIn(b', mm[1..])
  }

  function PayOut(b: Ledger, to: Address, m: Dict<Denom>): Option<Ledger>
    decreases |m|
  {
    if m == [] then Some(b)
    else if m[0].1 == 0 then PayOut(b, to, m[1..])
    else
      match Send(b, MODULE, to, m[0].0, m[0].1)
      case None => None
      case Some(b') => PayOut(b', to, m[1..])
  }

  function PayAllOut(b: Ledger, mm: Nested<Address, Denom>): Option<Ledger>
    decreases |mm|
  {
    if mm == [] then Some(b)
    else
      match PayOut(b, mm[0].0, mm[0].1)
      case None => None
      case Some(b') => PayAllOut(b', mm[1..])
  }

  function Settle(b: Ledger, taker: Address, legs: seq<Leg>): Option<Ledger> {
    match PayAllIn(b, Inputs(taker, Collect(legs)))
    case None => None
    case Some(b') => PayAllOut(b', Outputs(taker, Collect(legs)))
  }

  // ---- what each phase does ----

  /** The amount of d under account a. */
  function Under(mm: Nested<Address, Denom>, a: Address, d: Denom): nat
    decreases |mm|
  {
    if mm == [] then 0 else (if mm[0].0 == a then SumOf(mm[0].1, d) else 0) + Under(mm[1..], a, d)
  }

  ghost predicate Apart(mm: Nested<Address, Denom>) {
    forall i :: 0 <= i < |mm| ==> mm[i].0 != MODULE
  }

  lemma {:induction false} PayInEffect(b: Ledger, from: Address, m: Dict<Denom>)
    requires from != MODULE
    ensures PayIn(b, from, m).Some? <==> forall d :: SumOf(m, d) <= Balance(b, from, d)
    ensures PayIn(b, from, m).Some? ==> forall a, d ::
      Balance(PayIn(b, from, m).value, a, d) == Balance(b, a, d) + Moved(a, from, MODULE, SumOf(m, d))
    decreases |m|
  {
    if m != [] {
      if m[0].1 == 0 {
        PayInEffect(b, from, m[1..]);
        hide Balance, Send;
        assert forall d :: SumOf(m, d) == SumOf(m[1..], d);
      } else {
        PayInStep(b, from, m);
      }
    }
  }

  lemma {:induction false} PayInStep(b: Ledger, from: Address, m: Dict<Denom>)
    requires from != MODULE && m != [] && m[0].1 > 0
    ensures PayIn(b, from, m).Some? <==> forall d :: SumOf(m, d) <= Balance(b, from, d)
    ensures PayIn(b, from, m).Some? ==> forall a, d ::
      Balance(PayIn(b, from, m).value, a, d) == Balance(b, a, d) + Moved(a, from, MODULE, SumOf(m, d))
    decreases |m|, 0
  {
    var e, x, rest := m[0].0, m[0].1, m[1..];
    SendEffect(b, from, MODULE, e, x);
    var sent := Send(b, from, MODULE, e, x);
    assert forall d :: SumOf(m, d) == SumOf(rest, d) + if d == e then x else 0;
    hide Balance, Send, Supply;
    if sent.Some? {
      PayInEffect(sent.value, from, rest);
      hide PayIn;
      assert PayIn(sent.value, from, rest).Some? <==> forall d :: SumOf(m, d) <= Balance(b, from, d) by {
        assert forall d :: SumOf(rest, d) <= Balance(sent.value, from, d) <==> SumOf(m, d) <= Balance(b, from, d);
      }
    } else {
      assert SumOf(m, e) > Balance(b, from, e);
    }
  }

  lemma {:induction false} PayAllInEffect(b: Ledger, mm: Nested<Address, Denom>)
    requires Apart(mm)
    ensures PayAllIn(b, mm).Some? <==> forall a, d :: Under(mm, a, d) <= Balance(b, a, d)
    ensures PayAllIn(b, mm).Some? ==> forall a, d ::
      Balance(PayAllIn(b, mm).value, a, d)
        == Balance(b, a, d) - Under(mm, a, d) + if a == MODULE then SumNested(mm, d) else 0
    decreases |mm|
  {
    if mm != [] {
      var from, m, rest := mm[0].0, mm[0].1, mm[1..];
      PayInEffect(b, from, m);
      var paid := PayIn(b, from, m);
      assert forall a, d :: Under(mm, a, d) == Under(rest, a, d) + if a == from then SumOf(m, d) else 0;
      assert Apart(rest);
      hide Balance, PayIn;
      if paid.Some? {
        PayAllInEffect(paid.value, rest);
        UnderModule(rest);
        hide Apart;
        assert forall a, d :: a != MODULE ==>
          (Under(rest, a, d) <= Balance(paid.value, a, d) <==> Under(mm, a, d) <= Balance(b, a, d));
      } else {
        var d :| SumOf(m, d) > Balance(b, from, d);
        assert Under(mm, from, d) > Balance(b, from, d);
      }
    }
  }

  lemma {:induction false} UnderModule(mm: Nested<Address, Denom>)
    requires Apart(mm)
    ensures forall d :: Under(mm, MODULE, d) == 0
    decreases |mm|
  {
    if mm != [] { UnderModule(mm[1..]); }
  }

  lemma {:induction false} PayOutEffect(b: Ledger, to: Address, m: Dict<Denom>)
    requires to != MODULE && forall d :: SumOf(m, d) <= Balance(b, MODULE, d)
    ensures PayOut(b, to, m).Some?
    ensures forall a, d :: Balance(PayOut(b, to, m).value, a, d) == Balance(b, a, d) + Moved(a, MODULE, to, SumOf(m, d))
    decreases |m|
  {
    if m != [] {
      var e, x, rest := m[0].0, m[0].1, m[1..];
      assert forall d :: SumOf(m, d) == SumOf(rest, d) + if d == e then x else 0;
      if x == 0 {
        hide Balance, Send;
        PayOutEffect(b, to, rest);
      } else {
        assert x <= SumOf(m, e) <= Balance(b, MODULE, e);
        SendEffect(b, MODULE, to, e, x);
        hide Balance, Send, Supply;
        PayOutEffect(Send(b, MODULE, to, e, x).value, to, rest);
      }
    }
  }

  lemma {:induction false} PayAllOutEffect(b: Ledger, mm: Nested<Address, Denom>)
    requires Apart(mm) && forall d :: SumNested(mm, d) <= Balance(b, MODULE, d)
    ensures PayAllOut(b, mm).Some?
    ensures forall a, d ::
      Balance(PayAllOut(b, mm).value, a, d)
        == Balance(b, a, d) + Under(mm, a, d) - if a == MODULE then SumNested(mm, d) else 0
    decreases |mm|
  {
    if mm != [] {
      var to, m, rest := mm[0].0, mm[0].1, mm[1..];
      assert forall d :: SumNested(mm, d) == SumOf(m, d) + SumNested(rest, d);
      assert forall a, d :: Under(mm, a, d) == Under(rest, a, d) + if a == to then SumOf(m, d) else 0;
      forall d ensures SumOf(m, d) <= Balance(b, MODULE, d) {
        assert SumNested(mm, d) <= Balance(b, MODULE, d);
      }
      PayOutEffect(b, to, m);
      var paid := PayOut(b, to, m).value;
      assert Apart(rest);
      hide Balance, PayOut;
      forall d ensures SumNested(rest, d) <= Balance(paid, MODULE, d) {
        assert SumNested(mm, d) <= Balance(b, MODULE, d);
      }
      PayAllOutEffect(paid, rest);
    }
  }

  // ---- the batch, leg by leg ----

  /** What account a gives in d, over all legs. */
  function Gives(taker: Address, legs: seq<Leg>, a: Address, d: Denom): nat
    decreases |legs|
  {
    if legs == [] then 0
    else
      var leg := legs[|legs| - 1];
      Gives(taker, legs[..|legs| - 1], a, d)
        + (if a == taker && leg.wantDenom == d then leg.sent else 0)
        + if a == leg.maker && leg.haveDenom == d then leg.received else 0
  }

  /** What account a gets in d, over all legs. */
  function Gets(taker: Address, legs: seq<Leg>, a: Address, d: Denom): nat
    decreases |legs|
  {
    if legs == [] then 0
    else
      var leg := legs[|legs| - 1];
      Gets(taker, legs[..|legs| - 1], a, d)
        + (if a == taker && leg.haveDenom == d then leg.received else 0)
        + if a == leg.maker && leg.wantDenom == d then leg.sent else 0
  }

  lemma {:induction false} AddUnder(mm: Nested<Address, Denom>, a: Address, k: Denom, x: nat, o: Address, d: Denom)
    ensures Under(AddNested(mm, a, k, x), o, d) == Under(mm, o, d) + if o == a && d == k then x else 0
    decreases |mm|
  {
    var r := AddNested(mm, a, k, x);
    if mm == [] {
      AddToSum([], k, x, d);
      assert r[1..] == [];
    } else if mm[0].0 == a {
      AddToSum(mm[0].1, k, x, d);
      assert r[1..] == mm[1..];
    } else {
      AddUnder(mm[1..], a, k, x, o, d);
      assert r[1..] == AddNested(mm[1..], a, k, x);
    }
  }

  /** The dictionaries hold exactly what each account gives and gets, and inputs and outputs balance in every denom. */
  lemma {:induction false} CollectSums(taker: Address, legs: seq<Leg>, a: Address, d: Denom)
    ensures var s := Collect(legs);
      && Under(s.makerSent, a, d) + (if a == taker then SumOf(s.takerSent, d) else 0) == Gives(taker, legs, a, d)
      && Under(s.makerReceived, a, d) + (if a == taker then SumOf(s.takerReceived, d) else 0) == Gets(taker, legs, a, d)
      && SumOf(s.takerSent, d) == SumNested(s.makerReceived, d)
      && SumOf(s.takerReceived, d) == SumNested(s.makerSent, d)
    decreases |legs|
  {
    if legs != [] {
      var front, leg := legs[..|legs| - 1], legs[|legs| - 1];
      CollectSums(taker, front, a, d);
      var s := Collect(front);
      AddToSum(s.takerSent, leg.wantDenom, leg.sent, d);
      AddToSum(s.takerReceived, leg.haveDenom, leg.received, d);
      AddUnder(s.makerSent, leg.maker, leg.haveDenom, leg.received, a, d);
      AddUnder(s.makerReceived, leg.maker, leg.wantDenom, leg.sent, a, d);
      AddNestedSum(s.makerSent, leg.maker, leg.haveDenom, leg.received, d);
      AddNestedSum(s.makerReceived, leg.maker, leg.wantDenom, leg.sent, d);
      hide Under, SumOf, SumNested, AddTo, AddNested;
    }
  }

  function NotModule(): Address -> bool {
    (a: Address) => a != MODULE
  }

  lemma {:induction false} CollectApart(legs: seq<Leg>)
    requires forall i :: 0 <= i < |legs| ==> legs[i].maker != MODULE
    ensures OuterKeys(Collect(legs).makerSent, NotModule()) && OuterKeys(Collect(legs).makerReceived, NotModule())
    decreases |legs|
  {
    if legs != [] {
      var front, leg := legs[..|legs| - 1], legs[|legs| - 1];
      CollectApart(front);
      AddNestedKeys(Collect(front).makerSent, leg.maker, leg.haveDenom, leg.received, NotModule());
      AddNestedKeys(Collect(front).makerReceived, leg.maker, leg.wantDenom, leg.sent, NotModule());
      hide OuterKeys, AddTo, AddNested;
    }
  }

  lemma MoveSums(taker: Address, legs: seq<Leg>, a: Address, d: Denom)
    ensures Under(Inputs(taker, Collect(legs)), a, d) == Gives(taker, legs, a, d)
    ensures Under(Outputs(taker, Collect(legs)), a, d) == Gets(taker, legs, a, d)
    ensures SumNested(Inputs(taker, Collect(legs)), d) == SumNested(Outputs(taker, Collect(legs)), d)
  {
    var s := Collect(legs);
    CollectSums(taker, legs, a, d);
    assert Inputs(taker, s)[1..] == s.makerSent && Outputs(taker, s)[1..] == s.makerReceived;
    hide Collect, Gives, Gets;
  }

  lemma MoveApart(taker: Address, legs: seq<Leg>)
    requires taker != MODULE && forall i :: 0 <= i < |legs| ==> legs[i].maker != MODULE
    ensures Apart(Inputs(taker, Collect(legs))) && Apart(Outputs(taker, Collect(legs)))
  {
    CollectApart(legs);
    var s := Collect(legs);
    hide Collect;
    assert forall i :: 0 <= i < |s.makerSent| ==> NotModule()(s.makerSent[i].0);
    assert forall i :: 0 <= i < |s.makerReceived| ==> NotModule()(s.makerReceived[i].0);
  }

  /** The single move settles every leg at once: it succeeds exactly when each account covers what all legs together take from
      it, then gives each account exactly what the legs give it, and leaves nothing in the module's account. */
  lemma SettleEffect(b: Ledger, taker: Address, legs: seq<Leg>)
    requires taker != MODULE && forall i :: 0 <= i < |legs| ==> legs[i].maker != MODULE
    ensures Settle(b, taker, legs).Some? <==> forall a, d :: Gives(taker, legs, a, d) <= Balance(b, a, d)
    ensures Settle(b, taker, legs).Some? ==> forall a, d ::
      Balance(Settle(b, taker, legs).value, a, d) == Balance(b, a, d) - Gives(taker, legs, a, d) + Gets(taker, legs, a, d)
  {
    MoveApart(taker, legs);
    var ins, outs := Inputs(taker, Collect(legs)), Outputs(taker, Collect(legs));
    forall a, d
      ensures Under(ins, a, d) == Gives(taker, legs, a, d) && Under(outs, a, d) == Gets(taker, legs, a, d)
      ensures SumNested(ins, d) == SumNested(outs, d)
    {
      MoveSums(taker, legs, a, d);
    }
    PayAllInEffect(b, ins);
    UnderModule(ins);
    hide Collect, Under, SumNested, Balance, PayAllIn, PayAllOut, Apart, Inputs, Outputs, Gives, Gets;
    if PayAllIn(b, ins).Some? {
      var paid := PayAllIn(b, ins).value;
      forall d ensures SumNested(outs, d) <= Balance(paid, MODULE, d) {
        assert Under(ins, MODULE, d) <= Balance(b, MODULE, d);
      }
      PayAllOutEffect(paid, outs);
    }
  }

  // ---- the balance checks before the move ----

  /** Every account covers what all legs together take from it. */
  ghost predicate Covers(b: Ledger, taker: Address, legs: seq<Leg>) {
    forall a, d :: Gives(taker, legs, a, d) <= Balance(b, a, d)
  }

  lemma {:induction false} EntryWithin(m: Dict<Denom>, i: nat)
    requires i < |m|
    ensures m[i].1 <= SumOf(m, m[i].0)
    decreases |m|
  {
    if i > 0 { EntryWithin(m[1..], i - 1); }
  }

  lemma {:induction false} AccountWithin(mm: Nested<Address, Denom>, i: nat, d: Denom)
    requires i < |mm|
    ensures SumOf(mm[i].1, d) <= Under(mm, mm[i].0, d)
    decreases |mm|
  {
    if i > 0 { AccountWithin(mm[1..], i - 1, d); }
  }

  /** Each account holds each amount it sends, looked at one at a time. */
  predicate Checked(b: Ledger, inputs: Nested<Address, Denom>) {
    forall i, j :: 0 <= i < |inputs| && 0 <= j < |inputs[i].1| ==> inputs[i].1[j].1 <= Balance(b, inputs[i].0, inputs[i].1[j].0)
  }

  /** A move that succeeds has passed the checks. */
  lemma CoveredIsChecked(b: Ledger, taker: Address, legs: seq<Leg>)
    requires Covers(b, taker, legs)
    ensures Checked(b, Inputs(taker, Collect(legs)))
  {
    var inputs := Inputs(taker, Collect(legs));
    forall i, j | 0 <= i < |inputs| && 0 <= j < |inputs[i].1|
      ensures inputs[i].1[j].1 <= Balance(b, inputs[i].0, inputs[i].1[j].0)
    {
      EntryWithin(inputs[i].1, j);
      AccountWithin(inputs, i, inputs[i].1[j].0);
      MoveSums(taker, legs, inputs[i].0, inputs[i].1[j].0);
    }
  }

  /** Every account once, and under it every denom once. */
  ghost predicate EachOnce(mm: Nested<Address, Denom>) {
    && (forall i, j :: 0 <= i < j < |mm| ==> mm[i].0 != mm[j].0)
    && (forall i :: 0 <= i < |mm| ==> Distinct(mm[i].1))
  }

  lemma {:induction false} AddNestedHas(mm: Nested<Address, Denom>, a: Address, k: Denom, x: nat, i: nat)
    requires i < |AddNested(mm, a, k, x)|
    ensures AddNested(mm, a, k, x)[i].0 == a || exists j :: 0 <= j < |mm| && mm[j].0 == AddNested(mm, a, k, x)[i].0
    decreases |mm|
  {
    if mm != [] && mm[0].0 != a && i > 0 {
      var rest := mm[1..];
      AddNestedHas(rest, a, k, x, i - 1);
      if j :| 0 <= j < |rest| && rest[j].0 == AddNested(rest, a, k, x)[i - 1].0 {
        assert mm[j + 1] == rest[j];
      }
    } else if mm != [] {
      assert i > 0 ==> AddNested(mm, a, k, x)[i] == mm[i];
      assert mm[0].0 == AddNested(mm, a, k, x)[0].0;
    }
  }

  lemma {:induction false} AddNestedOnce(mm: Nested<Address, Denom>, a: Address, k: Denom, x: nat)
    requires EachOnce(mm)
    ensures EachOnce(AddNested(mm, a, k, x))
    decreases |mm|
  {
    if mm == [] {
      assert AddNested(mm, a, k, x) == [(a, [(k, x)])];
    } else if mm[0].0 == a {
      AddToDistinct(mm[0].1, k, x);
    } else {
      var rest := mm[1..];
      AddNestedOnce(rest, a, k, x);
      var r := AddNested(rest, a, k, x);
      forall i | 0 <= i < |r| ensures r[i].0 != mm[0].0 {
        AddNestedHas(rest, a, k, x, i);
      }
      OnceCons(mm[0], r);
    }
  }

  lemma OnceCons(e: (Address, Dict<Denom>), mm: Nested<Address, Denom>)
    requires EachOnce(mm) && Distinct(e.1) && forall i :: 0 <= i < |mm| ==> mm[i].0 != e.0
    ensures EachOnce([e] + mm)
  {
    hide Distinct;
  }

  lemma {:induction false} CollectOnce(legs: seq<Leg>)
    ensures EachOnce(Collect(legs).makerSent)
    decreases |legs|
  {
    if legs != [] {
      var front, leg := legs[..|legs| - 1], legs[|legs| - 1];
      CollectOnce(front);
      AddNestedOnce(Collect(front).makerSent, leg.maker, leg.haveDenom, leg.received);
      hide EachOnce, AddNested, AddTo;
    }
  }

  lemma {:induction false} SumWithin(m: Dict<Denom>, d: Denom, bound: nat)
    requires Distinct(m) && forall j :: 0 <= j < |m| && m[j].0 == d ==> m[j].1 <= bound
    ensures SumOf(m, d) <= bound
    decreases |m|
  {
    if m != [] {
      DistinctHead(m);
      if m[0].0 == d {
        SumOfAbsent(m[1..], d);
      } else {
        SumWithin(m[1..], d, bound);
      }
    }
  }

  lemma {:induction false} UnderWithin(mm: Nested<Address, Denom>, a: Address, d: Denom, bound: nat)
    requires EachOnce(mm)
    requires forall i, j :: 0 <= i < |mm| && 0 <= j < |mm[i].1| && mm[i].0 == a && mm[i].1[j].0 == d ==> mm[i].1[j].1 <= bound
    ensures Under(mm, a, d) <= bound
    decreases |mm|
  {
    if mm != [] {
      if mm[0].0 == a {
        SumWithin(mm[0].1, d, bound);
        UnderAbsent(mm[1..], a, d);
      } else {
        UnderWithin(mm[1..], a, d, bound);
      }
    }
  }

  lemma {:induction false} UnderAbsent(mm: Nested<Address, Denom>, a: Address, d: Denom)
    requires forall i :: 0 <= i < |mm| ==> mm[i].0 != a
    ensures Under(mm, a, d) == 0
    decreases |mm|
  {
    if mm != [] { UnderAbsent(mm[1..], a, d); }
  }

  lemma MakerCovered(b: Ledger, taker: Address, legs: seq<Leg>, a: Address, d: Denom)
    requires Checked(b, Inputs(taker, Collect(legs))) && a != taker
    ensures Gives(taker, legs, a, d) <= Balance(b, a, d)
  {
    var s := Collect(legs);
    CollectSums(taker, legs, a, d);
    CollectOnce(legs);
    hide Collect, Gives, Gets, EachOnce, Balance, Under, SumOf;
    forall i, j | 0 <= i < |s.makerSent| && 0 <= j < |s.makerSent[i].1| && s.makerSent[i].0 == a && s.makerSent[i].1[j].0 == d
      ensures s.makerSent[i].1[j].1 <= Balance(b, a, d)
    {
      assert Inputs(taker, s)[i + 1] == s.makerSent[i];
    }
    UnderWithin(s.makerSent, a, d, Balance(b, a, d));
  }

  /** Once the balance checks pass, the move can only fail for what the taker gives in one denom on both sides together. */
  lemma ChecksLeaveTaker(b: Ledger, taker: Address, legs: seq<Leg>)
    requires Checked(b, Inputs(taker, Collect(legs)))
    ensures Covers(b, taker, legs) <==> forall d :: Gives(taker, legs, taker, d) <= Balance(b, taker, d)
  {
    forall a, d | a != taker ensures Gives(taker, legs, a, d) <= Balance(b, a, d) {
      MakerCovered(b, taker, legs, a, d);
    }
    hide Gives, Balance;
  }

  // An example: alice takes bob's offer, paying five of a, and her own offer of five a.
  const EXAMPLE_BANK: Ledger := map["a" := map["alice" := 5], "b" := map["alice" := 1], "c" := map["bob" := 1]]
  const BOBS_LEG := Leg("bob", "a", "c", 5, 1)
  const OWN_LEG := Leg("alice", "b", "a", 1, 5)

  lemma ExampleSums()
    ensures Collect([BOBS_LEG, OWN_LEG]).takerSent == [("a", 5), ("b", 1)]
    ensures Collect([BOBS_LEG, OWN_LEG]).makerSent == [("bob", [("c", 1)]), ("alice", [("a", 5)])]
  {
    assert [BOBS_LEG, OWN_LEG][..1] == [BOBS_LEG] && [BOBS_LEG][..0] == [];
    var s1 := AddLeg(Sums([], [], [], []), BOBS_LEG);
    assert Collect([BOBS_LEG]) == s1;
    assert s1.takerSent == [("a", 5)] && s1.makerSent == [("bob", [("c", 1)])];
    assert Collect([BOBS_LEG, OWN_LEG]) == AddLeg(s1, OWN_LEG);
  }

  lemma ExampleGives()
    ensures Gives("alice", [BOBS_LEG, OWN_LEG], "alice", "a") == 10
  {
    assert [BOBS_LEG, OWN_LEG][..1] == [BOBS_LEG] && [BOBS_LEG][..0] == [];
    assert Gives("alice", [BOBS_LEG], "alice", "a") == 5;
  }

  lemma ExampleBalances()
    ensures Balance(EXAMPLE_BANK, "alice", "a") == 5
    ensures Balance(EXAMPLE_BANK, "alice", "b") == 1
    ensures Balance(EXAMPLE_BANK, "bob", "c") == 1
  {
  }

  lemma ExampleChecked(inputs: Nested<Address, Denom>)
    requires inputs == [("alice", [("a", 5), ("b", 1)]), ("bob", [("c", 1)]), ("alice", [("a", 5)])]
    ensures Checked(EXAMPLE_BANK, inputs)
  {
    hide Balance;
    ExampleBalances();
  }

  /** A taker who is also a maker can pass every balance check and fail the move: with five of a, alice passes, and owes ten. */
  lemma CheckedMoveFails()
    ensures Checked(EXAMPLE_BANK, Inputs("alice", Collect([BOBS_LEG, OWN_LEG])))
    ensures Settle(EXAMPLE_BANK, "alice", [BOBS_LEG, OWN_LEG]).None?
  {
    hide Collect, Gives, Gets, Settle, Balance, Checked;
    ExampleSums();
    ExampleGives();
    ExampleBalances();
    ExampleChecked(Inputs("alice", Collect([BOBS_LEG, OWN_LEG])));
    SettleEffect(EXAMPLE_BANK, "alice", [BOBS_LEG, OWN_LEG]);
  }
}
