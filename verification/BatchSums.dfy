/** The bank legs of a batch as sums: what a list of transfers does to the script's balance, and how the dictionaries a
    batch accumulates add up to its trades. */
module BatchSums {
  import opened Options
  import opened Bank
  import opened Dicts
  import opened LiquidBook

  // ---- bank actions as sums ----

  /** The amount of d over the actions. */
  function Weight(acts: seq<Act>, d: Denom): nat
    decreases |acts|
  {
    if acts == [] then 0 else (if acts[0].denom == d then acts[0].amount else 0) + Weight(acts[1..], d)
  }

  lemma {:induction false} WeightConcat(x: seq<Act>, y: seq<Act>, d: Denom)
    ensures Weight(x + y, d) == Weight(x, d) + Weight(y, d)
    decreases |x|
  {
    if x == [] {
      assert x + y == y;
    } else {
      WeightConcat(x[1..], y, d);
      assert (x + y)[1..] == x[1..] + y;
    }
  }

  predicate Incoming(acts: seq<Act>) {
    forall i :: 0 <= i < |acts| ==> acts[i].Transfer? && acts[i].from != SCRIPT && acts[i].to == SCRIPT
  }

  predicate Outgoing(acts: seq<Act>) {
    forall i :: 0 <= i < |acts| ==>
      acts[i].Transfer? && acts[i].from == SCRIPT && acts[i].to != SCRIPT && acts[i].amount > 0
  }

  predicate Burning(acts: seq<Act>) {
    forall i :: 0 <= i < |acts| ==> acts[i].Destroy?
  }

  /** Coins moved to the script raise its balance by what was moved and keep every supply. */
  lemma {:induction false} IncomingEffect(b: Ledger, acts: seq<Act>, d: Denom)
    requires Incoming(acts) && Exec(b, acts).Some?
    ensures Balance(Exec(b, acts).value, SCRIPT, d) == Balance(b, SCRIPT, d) + Weight(acts, d)
    ensures Supply(Exec(b, acts).value, d) == Supply(b, d)
    ensures Weight(acts, d) > 0 ==> Supply(b, d) > 0
    decreases |acts|
  {
    if acts != [] {
      var a := acts[0];
      SendEffect(b, a.from, a.to, a.denom, a.amount);
      BalanceWithinSupply(b, a.from, a.denom);
      IncomingEffect(ExecOne(b, a).value, acts[1..], d);
      hide Supply, Send, Balance;
    }
  }

  lemma {:induction false} BurningEffect(b: Ledger, acts: seq<Act>, d: Denom)
    requires Burning(acts) && Exec(b, acts).Some?
    ensures Balance(Exec(b, acts).value, SCRIPT, d) == Balance(b, SCRIPT, d) - Weight(acts, d)
    ensures Supply(Exec(b, acts).value, d) == Supply(b, d) - Weight(acts, d)
    decreases |acts|
  {
    if acts != [] {
      BurnEffect(b, SCRIPT, acts[0].denom, acts[0].amount);
      BurningEffect(ExecOne(b, acts[0]).value, acts[1..], d);
      hide Supply, Burn, Balance;
    }
  }

  lemma {:induction false} OutgoingEffect(b: Ledger, acts: seq<Act>, d: Denom)
    requires Outgoing(acts) && Exec(b, acts).Some?
    ensures Balance(Exec(b, acts).value, SCRIPT, d) == Balance(b, SCRIPT, d) - Weight(acts, d)
    ensures Supply(Exec(b, acts).value, d) == Supply(b, d)
    decreases |acts|
  {
    if acts != [] {
      var a := acts[0];
      SendEffect(b, a.from, a.to, a.denom, a.amount);
      OutgoingEffect(ExecOne(b, a).value, acts[1..], d);
      hide Supply, Send, Balance;
    }
  }

  /** Sends out of the script succeed when its balances cover their totals. */
  lemma {:induction false} OutgoingRuns(b: Ledger, acts: seq<Act>)
    requires Outgoing(acts)
    requires forall d :: Weight(acts, d) <= Balance(b, SCRIPT, d)
    ensures Exec(b, acts).Some?
    decreases |acts|
  {
    if acts != [] {
      var a := acts[0];
      assert Weight(acts, a.denom) <= Balance(b, SCRIPT, a.denom);
      SendEffect(b, a.from, a.to, a.denom, a.amount);
      hide Send, Balance;
      var b' := ExecOne(b, a).value;
      forall d ensures Weight(acts[1..], d) <= Balance(b', SCRIPT, d) {
        assert Weight(acts, d) <= Balance(b, SCRIPT, d);
      }
      OutgoingRuns(b', acts[1..]);
    }
  }

  lemma {:induction false} ExecConcat(b: Ledger, x: seq<Act>, y: seq<Act>)
    ensures Exec(b, x + y) == (match Exec(b, x) case None => None case Some(b') => Exec(b', y))
    decreases |x|
  {
    if x == [] {
      assert x + y == y;
    } else {
      assert (x + y)[1..] == x[1..] + y;
      if ExecOne(b, x[0]).Some? {
        ExecConcat(ExecOne(b, x[0]).value, x[1..], y);
      }
    }
  }

  // ---- the actions of a batch as sums over its dictionaries ----

  lemma {:induction false} PaymentsWeight(from: Address, to: Address, m: Dict<Denom>, d: Denom)
    ensures Weight(Payments(from, to, m), d) == SumOf(m, d)
  {
    if m != [] {
      PaymentsWeight(from, to, m[1..], d);
      var p := Payments(from, to, m);
      if m[0].1 > 0 {
        assert p[1..] == Payments(from, to, m[1..]);
      } else {
        assert p == Payments(from, to, m[1..]);
      }
    }
  }

  lemma {:induction false} PaymentsParties(from: Address, to: Address, m: Dict<Denom>)
    ensures forall i :: 0 <= i < |Payments(from, to, m)| ==>
      && Payments(from, to, m)[i].Transfer? && Payments(from, to, m)[i].from == from
      && Payments(from, to, m)[i].to == to && Payments(from, to, m)[i].amount > 0
  {
    if m != [] {
      PaymentsParties(from, to, m[1..]);
    }
  }

  lemma {:induction false} PaymentsFromWeight(mm: Nested<Address, Denom>, d: Denom)
    ensures Weight(PaymentsFrom(mm), d) == SumNested(mm, d)
  {
    if mm != [] {
      PaymentsFromWeight(mm[1..], d);
      PaymentsWeight(mm[0].0, SCRIPT, mm[0].1, d);
      WeightConcat(Payments(mm[0].0, SCRIPT, mm[0].1), PaymentsFrom(mm[1..]), d);
    }
  }

  lemma {:induction false} PaymentsToWeight(mm: Nested<Address, Denom>, d: Denom)
    ensures Weight(PaymentsTo(mm), d) == SumNested(mm, d)
  {
    if mm != [] {
      PaymentsToWeight(mm[1..], d);
      PaymentsWeight(SCRIPT, mm[0].0, mm[0].1, d);
      WeightConcat(Payments(SCRIPT, mm[0].0, mm[0].1), PaymentsTo(mm[1..]), d);
    }
  }

  function NotScript(): Address -> bool {
    (a: Address) => a != SCRIPT
  }

  lemma {:induction false} PaymentsFromIncoming(mm: Nested<Address, Denom>)
    requires OuterKeys(mm, NotScript())
    ensures Incoming(PaymentsFrom(mm))
  {
    if mm != [] {
      assert NotScript()(mm[0].0);
      assert OuterKeys(mm[1..], NotScript());
      PaymentsFromIncoming(mm[1..]);
      PaymentsParties(mm[0].0, SCRIPT, mm[0].1);
    }
  }

  lemma {:induction false} PaymentsToOutgoing(mm: Nested<Address, Denom>)
    requires OuterKeys(mm, NotScript())
    ensures Outgoing(PaymentsTo(mm))
  {
    if mm != [] {
      assert NotScript()(mm[0].0);
      assert OuterKeys(mm[1..], NotScript());
      PaymentsToOutgoing(mm[1..]);
      PaymentsParties(SCRIPT, mm[0].0, mm[0].1);
    }
  }

  lemma {:induction false} BurnsWeight(m: Dict<Denom>, d: Denom)
    ensures Weight(Burns(m), d) == SumOf(m, d) && Burning(Burns(m))
  {
    if m != [] {
      BurnsWeight(m[1..], d);
      assert Burns(m)[1..] == Burns(m[1..]);
    }
  }

  lemma {:induction false} MovedWeight(moves: seq<Act>, d: Denom)
    ensures SumOf(MovedByDenom(moves), d) == Weight(moves, d)
    decreases |moves|
  {
    if moves != [] {
      var n := |moves| - 1;
      MovedWeight(moves[..n], d);
      AddToSum(MovedByDenom(moves[..n]), moves[n].denom, moves[n].amount, d);
      WeightConcat(moves[..n], [moves[n]], d);
      assert moves[..n] + [moves[n]] == moves;
      assert [moves[n]][1..] == [];
    }
  }

  // ---- sums over the trades of a batch ----

  function SumInfos(infos: seq<Info>, f: Info -> nat): nat
    decreases |infos|
  {
    if infos == [] then 0 else SumInfos(Init(infos), f) + f(Last(infos))
  }

  /** What the taker owes in d. */
  function Owed(d: Denom): Info -> nat {
    (o: Info) => if o.wantDenom == d then o.sent else 0
  }

  /** What normal makers deliver in d, out of escrow. */
  function Plain(d: Denom): Info -> nat {
    (o: Info) => if o.pfand == 0 && o.haveDenom == d then o.received else 0
  }

  /** What liquid makers give up in the liquid denom l. */
  function Liquid(l: Denom): Info -> nat {
    (o: Info) => if o.pfand > 0 && o.haveDenom == l then o.received else 0
  }

  predicate Brings(env: Env, o: Info, d: Denom) {
    if o.pfand > 0 then env.decode(o.haveDenom) == Some(d) else o.haveDenom == d
  }

  /** What the taker receives in d. */
  function Delivered(env: Env, d: Denom): Info -> nat {
    (o: Info) => if Brings(env, o, d) then o.received else 0
  }

  lemma {:induction false} RequiredSum(infos: seq<Info>, d: Denom)
    ensures SumOf(Required(infos), d) == SumInfos(infos, Owed(d))
    ensures Distinct(Required(infos))
    ensures HasKey(Required(infos), d) <==> exists i :: 0 <= i < |infos| && infos[i].wantDenom == d
    decreases |infos|
  {
    if infos != [] {
      var init, o := Init(infos), Last(infos);
      RequiredSum(init, d);
      AddToSum(Required(init), o.wantDenom, o.sent, d);
      AddToKeys(Required(init), o.wantDenom, o.sent, d);
      AddToDistinct(Required(init), o.wantDenom, o.sent);
      hide HasKey, Distinct, AddTo, SumOf;
      if exists i :: 0 <= i < |infos| && infos[i].wantDenom == d {
        var i :| 0 <= i < |infos| && infos[i].wantDenom == d;
        assert i < |init| ==> init[i].wantDenom == d;
      }
      if exists i :: 0 <= i < |init| && init[i].wantDenom == d {
        var i :| 0 <= i < |init| && init[i].wantDenom == d;
        assert infos[i].wantDenom == d;
      }
    } else {
      assert !HasKey(Required(infos), d);
    }
  }

  /** The liquid coins the taker pays are what the attached coins leave owing. */
  lemma {:induction false} RemainderSum(env: Env, required: Dict<Denom>, att: seq<Coin>, d: Denom)
    requires ValidEnv(env) && !OverAttached(required, att) && Distinct(required)
    ensures SumOf(Remainder(env, required, att), env.quote(d))
         == if HasKey(required, d) then SumOf(required, d) - Attached(att, d) else 0
  {
    if required != [] {
      RemainderSum(env, required[1..], att, d);
      DistinctHead(required);
      HasKeyCons(required, d);
      SumOfAbsent(required[1..], required[0].0);
      hide HasKey, Distinct, Attached;
      assert env.decode(env.quote(d)) == Some(d);
      assert env.decode(env.quote(required[0].0)) == Some(required[0].0);
      var rest := Remainder(env, required[1..], att);
      var r := Remainder(env, required, att);
      if required[0].1 > Attached(att, required[0].0) {
        assert r[1..] == rest;
      }
    } else {
      assert !HasKey(required, d);
    }
  }

  lemma {:induction false} AttachedMore(att: seq<Coin>, x: Coin, d: Denom)
    ensures Attached(att + [x], d) == Attached(att, d) + if x.denom == d then x.amount else 0
    decreases |att|
  {
    if att == [] {
      assert [] + [x] == [x];
    } else {
      AttachedMore(att[1..], x, d);
      assert (att + [x])[1..] == att[1..] + [x];
    }
  }

  /** Coins of a denom that is not asked for leave as much owing. */
  lemma {:induction false} RemainderIgnores(env: Env, required: Dict<Denom>, att: seq<Coin>, x: Coin)
    requires !HasKey(required, x.denom)
    ensures OverAttached(required, att + [x]) == OverAttached(required, att)
    ensures !OverAttached(required, att) ==> Remainder(env, required, att + [x]) == Remainder(env, required, att)
    decreases |required|
  {
    if required != [] {
      HasKeyCons(required, x.denom);
      AttachedMore(att, x, required[0].0);
      hide HasKey, Attached;
      RemainderIgnores(env, required[1..], att, x);
    }
  }

  /** The three dictionaries of the batch add up, denom by denom, to the trades. */
  lemma {:induction false} LegSums(env: Env, infos: seq<Info>, d: Denom)
    requires LegsOf(env, infos).Ok?
    ensures SumNested(LegsOf(env, infos).value.toMaker, d) == SumInfos(infos, Owed(d))
    ensures SumOf(LegsOf(env, infos).value.toTaker, d) == SumInfos(infos, Delivered(env, d))
    ensures SumNested(LegsOf(env, infos).value.makerLiquid, d) == SumInfos(infos, Liquid(d))
    decreases |infos|
  {
    if infos != [] {
      var init, o := Init(infos), Last(infos);
      LegSums(env, init, d);
      var legs := LegsOf(env, init).value;
      AddNestedSum(legs.toMaker, o.maker, o.wantDenom, o.sent, d);
      if o.pfand > 0 {
        AddToSum(legs.toTaker, env.decode(o.haveDenom).value, o.received, d);
        AddNestedSum(legs.makerLiquid, o.maker, o.haveDenom, o.received, d);
      } else {
        AddToSum(legs.toTaker, o.haveDenom, o.received, d);
      }
      hide SumOf, SumNested, AddTo, AddNested;
    }
  }

  lemma {:induction false} LegParties(env: Env, infos: seq<Info>)
    requires LegsOf(env, infos).Ok?
    requires forall i :: 0 <= i < |infos| ==> infos[i].maker != SCRIPT
    ensures OuterKeys(LegsOf(env, infos).value.toMaker, NotScript())
    ensures OuterKeys(LegsOf(env, infos).value.makerLiquid, NotScript())
    decreases |infos|
  {
    if infos != [] {
      var init, o := Init(infos), Last(infos);
      LegParties(env, init);
      var legs := LegsOf(env, init).value;
      AddNestedKeys(legs.toMaker, o.maker, o.wantDenom, o.sent, NotScript());
      AddNestedKeys(legs.makerLiquid, o.maker, o.haveDenom, o.received, NotScript());
      hide OuterKeys, AddTo, AddNested;
    }
  }

  /** A liquid denom is canonical when it is the one its solid denom quotes. */
  predicate Canonical(env: Env, l: Denom) {
    env.decode(l).Some? && env.quote(env.decode(l).value) == l
  }

  /** Trades of liquid offers give up a coin whose denom decodes to what the taker receives. */
  ghost predicate AllCanonical(env: Env, infos: seq<Info>) {
    forall i :: 0 <= i < |infos| && infos[i].pfand > 0 ==> Canonical(env, infos[i].haveDenom)
  }

  lemma {:induction false} DeliveredSplits(env: Env, infos: seq<Info>, d: Denom)
    requires ValidEnv(env) && AllCanonical(env, infos)
    ensures SumInfos(infos, Delivered(env, d)) == SumInfos(infos, Plain(d)) + SumInfos(infos, Liquid(env.quote(d)))
    decreases |infos|
  {
    if infos != [] {
      DeliveredSplits(env, Init(infos), d);
      assert env.decode(env.quote(d)) == Some(d);
    }
  }

  lemma {:induction false} SumInfosMember(infos: seq<Info>, f: Info -> nat, i: nat)
    requires i < |infos|
    ensures f(infos[i]) <= SumInfos(infos, f)
    decreases |infos|
  {
    if i < |infos| - 1 {
      SumInfosMember(Init(infos), f, i);
    }
  }
}
