/** The oracle's bonds while the minimum stays fixed: a provider's status tells whether its bond is full, jail is for good, and
    who committed to the open request cannot take its bond away before the request is settled. */
module TewlBonds {
  import opened Options
  import opened Bank
  import opened Tewl
  import opened TewlQueue
  import opened TewlScoring

  /** Bonded providers hold the minimum, underbonded ones do not. */
  ghost predicate Disciplined(ps: Providers, minBond: nat) {
    forall a :: a in ps ==>
      && (ps[a].standing.Bonded? ==> ps[a].bond >= minBond)
      && (ps[a].standing.Underbonded? ==> ps[a].bond < minBond)
  }

  /** Everyone who committed to an open request is a bonded provider. */
  ghost predicate Holding(s: State) {
    forall id, a :: id in s.requests && Open(s.requests[id]) && a in s.requests[id].entries ==>
      a in s.providers && s.providers[a].standing.Bonded?
  }

  ghost predicate BondsSound(s: State) {
    Disciplined(s.providers, s.minBond) && Holding(s)
  }

  /** Nobody leaves jail. */
  ghost predicate StillJailed(ps: Providers, ps': Providers) {
    forall a :: a in ps && ps[a].standing.Jailed? ==> a in ps' && ps'[a].standing.Jailed?
  }

  // ---- slashing ----

  lemma SlashDisciplined(ps: Providers, a: Address, amount: nat, minBond: nat)
    requires Disciplined(ps, minBond)
    ensures Disciplined(Slash(ps, a, amount, minBond), minBond) && StillJailed(ps, Slash(ps, a, amount, minBond))
  {
  }

  lemma JailedTransitive(x: Providers, y: Providers, z: Providers)
    requires StillJailed(x, y) && StillJailed(y, z)
    ensures StillJailed(x, z)
  {
  }

  lemma {:induction false} SlashScoredDisciplined(ps: Providers, scores: Scores, minBond: nat)
    requires Disciplined(ps, minBond)
    ensures Disciplined(SlashScored(ps, scores, minBond), minBond) && StillJailed(ps, SlashScored(ps, scores, minBond))
    decreases |scores|
  {
    if scores != [] {
      SlashDisciplined(ps, scores[0].0, SlashAmount(minBond), minBond);
      var next := if scores[0].1 <= 0 then Slash(ps, scores[0].0, SlashAmount(minBond), minBond) else ps;
      assert StillJailed(ps, next);
      hide Slash, Disciplined, StillJailed;
      SlashScoredDisciplined(next, scores[1..], minBond);
      JailedTransitive(ps, next, SlashScored(ps, scores, minBond));
    }
  }

  lemma {:induction false} SlashEachDisciplined(ps: Providers, addresses: seq<Address>, minBond: nat)
    requires Disciplined(ps, minBond)
    ensures Disciplined(SlashEach(ps, addresses, minBond), minBond) && StillJailed(ps, SlashEach(ps, addresses, minBond))
    decreases |addresses|
  {
    if addresses != [] {
      var next := Slash(ps, addresses[0], SlashAmount(minBond), minBond);
      SlashDisciplined(ps, addresses[0], SlashAmount(minBond), minBond);
      hide Slash, Disciplined, StillJailed;
      SlashEachDisciplined(next, addresses[1..], minBond);
      JailedTransitive(ps, next, SlashEach(ps, addresses, minBond));
    }
  }

  // ---- calls ----

  lemma DepositBonded(s: State, caller: Address, attached: nat)
    requires BondsSound(s) && Deposit(s, caller, attached).Ok?
    ensures BondsSound(Deposit(s, caller, attached).value)
    ensures StillJailed(s.providers, Deposit(s, caller, attached).value.providers)
  {
    hide Open;
  }

  lemma WithdrawBonded(s: State, caller: Address, amount: int)
    requires BondsSound(s) && s.minBond > 0 && Withdraw(s, caller, amount).Ok?
    ensures BondsSound(Withdraw(s, caller, amount).value)
    ensures StillJailed(s.providers, Withdraw(s, caller, amount).value.providers)
  {
    SendEffect(s.bank, SCRIPT, caller, UDYS, amount);
    hide Open, Send, Balance;
  }

  /** Requests that are activated have no commits yet. */
  lemma TryActivateHolds(env: Env, s: State)
    requires AllGood(env, s) && Holding(s)
    ensures Holding(TryActivate(s)) && TryActivate(s).providers == s.providers && TryActivate(s).minBond == s.minBond
  {
    var id := TryActivateChanges(s);
    hide TryActivate, Good;
    if id in s.requests && s.requests[id].status.Pending? {
      PendingUncommitted(env, s, id);
    }
  }

  lemma PendingUncommitted(env: Env, s: State, id: nat)
    requires AllGood(env, s) && id in s.requests && s.requests[id].status.Pending?
    ensures s.requests[id].entries == map[]
  {
    assert Good(env, s.clock, id, s.requests[id]);
  }

  lemma NewHolds(s: State, r: Request)
    requires Holding(s) && r.status.Pending?
    ensures Holding(s.(requests := s.requests[s.nextId := r], nextId := s.nextId + 1))
  {
  }

  lemma AddHolds(env: Env, s: State, caller: Address, fee: nat, scorer: Text, schema: Text)
    requires Scheduled(s) && AllGood(env, s) && Holding(s)
    ensures
      var r := NewRequest(caller, scorer, schema, fee, s.height);
      var s' := s.(requests := s.requests[s.nextId := r], nextId := s.nextId + 1);
      AllGood(env, s') && Holding(s')
  {
    var r := NewRequest(caller, scorer, schema, fee, s.height);
    assert s.nextId !in s.requests && r.status.Pending?;
    hide AllGood, Good, Holding, Scheduled, NewRequest;
    NewGood(env, s.clock, s.nextId, caller, scorer, schema, fee, s.height);
    AddGood(env, s, r);
    NewHolds(s, r);
  }

  lemma CreateHolds(env: Env, s: State, caller: Address, fee: nat, scorer: Text, schema: Text, valid: bool)
    requires Scheduled(s) && AllGood(env, s) && BondsSound(s) && Create(s, caller, fee, scorer, schema, valid).Ok?
    ensures BondsSound(Create(s, caller, fee, scorer, schema, valid).value)
    ensures Create(s, caller, fee, scorer, schema, valid).value.providers == s.providers
  {
    hide AllGood, TryActivate, Disciplined, Holding, Scheduled;
    AddHolds(env, s, caller, fee, scorer, schema);
    var r := NewRequest(caller, scorer, schema, fee, s.height);
    hide NewRequest;
    TryActivateHolds(env, s.(requests := s.requests[s.nextId := r], nextId := s.nextId + 1));
  }

  /** No request but id is open, and pending requests have no commits. */
  ghost predicate OnlyOpen(requests: Requests, id: nat) {
    forall k :: k in requests ==>
      && (Open(requests[k]) ==> k == id)
      && (requests[k].status.Pending? ==> requests[k].entries == map[])
  }

  /** Settling the open request frees its providers: whatever is activated next has no commits yet. */
  lemma DeactivateFrees(s: State, id: nat, status: Status)
    requires OnlyOpen(s.requests, id) && (status.Resolved? || status.Failed?) && Deactivate(s, id, status).Ok?
    ensures
      var s' := Deactivate(s, id, status).value;
      Holding(s') && s'.providers == s.providers && s'.minBond == s.minBond
  {
    var s1 := s.(requests := s.requests[id := s.requests[id].(status := status)], activeId := None);
    var next := TryActivateChanges(s1);
    hide TryActivate;
    EndedFrees(s, id, status);
    if next in s1.requests && s1.requests[next].status.Pending? {
      ActivatedFrees(s1, next);
    }
    hide Activated, Holding;
  }

  /** No request is open, and the pending ones have no commits. */
  ghost predicate NoneOpen(requests: Requests) {
    forall k :: k in requests ==> !Open(requests[k]) && (requests[k].status.Pending? ==> requests[k].entries == map[])
  }

  lemma EndedFrees(s: State, id: nat, status: Status)
    requires OnlyOpen(s.requests, id) && (status.Resolved? || status.Failed?) && id in s.requests
    ensures
      var s1 := s.(requests := s.requests[id := s.requests[id].(status := status)], activeId := None);
      NoneOpen(s1.requests) && Holding(s1)
  {
  }

  lemma ActivatedFrees(s: State, id: nat)
    requires NoneOpen(s.requests) && id in s.requests && s.requests[id].status.Pending?
    ensures Holding(s.(requests := s.requests[id := Activated(s.requests[id], s.clock)], activeId := Some(id)))
  {
  }

  lemma FinalizeBonded(env: Env, s: State, id: nat, budget: nat)
    requires Scheduled(s) && AllGood(env, s) && BondsSound(s) && Finalize(env, s, id, budget).Ok?
    ensures BondsSound(Finalize(env, s, id, budget).value)
    ensures StillJailed(s.providers, Finalize(env, s, id, budget).value.providers)
  {
    hide Progressed, AllRevealed, Fail, Settle, AllGood, Scheduled, BondsSound;
    assert StillJailed(s.providers, s.providers);
    hide StillJailed;
    if Open(s.requests[id]) {
      var r := s.requests[id];
      var p := Progressed(env, r, budget);
      if p.raised {
        FailBonded(env, s, id, Saved(r, p));
      } else if p.rest == [] {
        SettleBonded(env, s, id, Saved(r, p));
      } else {
        PauseBonded(s, id, Saved(r, p));
      }
    }
  }

  lemma PauseBonded(s: State, id: nat, r: Request)
    requires BondsSound(s) && id in s.requests && Open(s.requests[id]) && r.entries == s.requests[id].entries
    ensures BondsSound(s.(requests := s.requests[id := r]))
  {
    hide Disciplined;
  }

  lemma OthersPending(env: Env, s: State, id: nat, r: Request)
    requires Scheduled(s) && AllGood(env, s) && id in s.requests && Open(s.requests[id]) && Open(r)
    ensures OnlyOpen(s.requests[id := r], id)
  {
    var requests := s.requests[id := r];
    forall k | k in requests
      ensures (Open(requests[k]) ==> k == id) && (requests[k].status.Pending? ==> requests[k].entries == map[])
    {
      assert Good(env, s.clock, k, s.requests[k]);
      hide Good;
    }
  }

  lemma FailBonded(env: Env, s: State, id: nat, r: Request)
    requires Scheduled(s) && AllGood(env, s) && BondsSound(s) && id in s.requests && Open(s.requests[id]) && Open(r)
    requires Fail(s, id, r).Ok?
    ensures BondsSound(Fail(s, id, r).value) && Fail(s, id, r).value.providers == s.providers
  {
    var r' := r.(result := None);
    hide AllGood, Scheduled, Refund, Deactivate, Disciplined, Holding, OnlyOpen;
    OthersPending(env, s, id, r');
    DeactivateFrees(s.(bank := Refund(s.bank, r).value, requests := s.requests[id := r']), id, Failed);
  }

  lemma SettleBonded(env: Env, s: State, id: nat, r: Request)
    requires Scheduled(s) && AllGood(env, s) && BondsSound(s) && id in s.requests && Open(s.requests[id]) && Open(r)
    requires Settle(env, s, id, r).Ok?
    ensures BondsSound(Settle(env, s, id, r).value) && StillJailed(s.providers, Settle(env, s, id, r).value.providers)
  {
    var v := ReadVerdict(env, r.scorerState).value;
    hide ReadVerdict, Payable, PayFees, Silent, AllGood, Scheduled, Holding, OnlyOpen;
    if v.result.None? {
      FailBonded(env, s, id, r.(scores := v.scores));
    } else {
      var scored := SlashScored(s.providers, v.scores, s.minBond);
      var slashed := SlashEach(scored, Silent(r), s.minBond);
      SlashScoredDisciplined(s.providers, v.scores, s.minBond);
      SlashEachDisciplined(scored, Silent(r), s.minBond);
      JailedTransitive(s.providers, scored, slashed);
      var r' := r.(result := v.result, scores := v.scores);
      OthersPending(env, s, id, r');
      hide Deactivate, SlashEach, SlashScored, Disciplined, StillJailed;
      DeactivateFrees(s.(bank := PayFees(s.bank, r.fee, v.scores).value, providers := slashed,
                         requests := s.requests[id := r']), id, Resolved);
    }
  }

  lemma CommitBonded(s: State, caller: Address, id: nat, hash: Text)
    requires BondsSound(s) && Commit(s, caller, id, hash).Ok?
    ensures BondsSound(Commit(s, caller, id, hash).value)
  {
    hide AllCommitted, Disciplined;
  }

  lemma RevealBonded(env: Env, s: State, caller: Address, id: nat, response: Text, salt: Text)
    requires BondsSound(s) && Reveal(env, s, caller, id, response, salt).Ok?
    ensures BondsSound(Reveal(env, s, caller, id, response, salt).value)
  {
    hide AllCommitted, Disciplined;
  }

  lemma CallBonded(env: Env, s: State, caller: Address, attached: nat, op: Op)
    requires Scheduled(s) && AllGood(env, s) && BondsSound(s) && s.minBond > 0 && !op.SetMinBond?
    requires CallOp(env, s, caller, attached, op).Ok?
    ensures BondsSound(CallOp(env, s, caller, attached, op).value)
    ensures StillJailed(s.providers, CallOp(env, s, caller, attached, op).value.providers)
  {
    hide AllGood, Scheduled, BondsSound, Finalize, Commit, Reveal, Create, Deposit, Withdraw;
    match op {
      case DepositBond => DepositBonded(s, caller, attached);
      case WithdrawBond(amount) => WithdrawBonded(s, caller, amount);
      case CreateRequest(scorer, schema, valid) => CreateHolds(env, s, caller, attached, scorer, schema, valid);
      case CommitTo(id, hash) =>
        CommitBonded(s, caller, id, hash);
        CommitProviders(s, caller, id, hash);
      case RevealTo(id, response, salt) =>
        RevealBonded(env, s, caller, id, response, salt);
        RevealProviders(env, s, caller, id, response, salt);
      case FinalizeRequest(id, budget) => FinalizeBonded(env, s, id, budget);
    }
  }

  lemma CommitProviders(s: State, caller: Address, id: nat, hash: Text)
    requires Commit(s, caller, id, hash).Ok?
    ensures Commit(s, caller, id, hash).value.providers == s.providers
  {
  }

  lemma RevealProviders(env: Env, s: State, caller: Address, id: nat, response: Text, salt: Text)
    requires Reveal(env, s, caller, id, response, salt).Ok?
    ensures Reveal(env, s, caller, id, response, salt).value.providers == s.providers
  {
  }

  // ---- runs ----

  /** A transaction that leaves the minimum bond alone. */
  predicate KeepsMinimum(tx: Tx) {
    !(tx.Call? && tx.op.SetMinBond?)
  }

  lemma SameBonded(s: State, b: Ledger)
    requires BondsSound(s)
    ensures BondsSound(s.(bank := b)) && StillJailed(s.providers, s.providers)
  {
    hide Disciplined;
  }

  lemma StepBonded(env: Env, s: State, tx: Tx)
    requires Scheduled(s) && AllGood(env, s) && BondsSound(s) && s.minBond > 0 && KeepsMinimum(tx)
    ensures BondsSound(Step(env, s, tx)) && StillJailed(s.providers, Step(env, s, tx).providers)
    ensures Step(env, s, tx).minBond == s.minBond
  {
    MinimumStays(env, s, tx);
    hide Scheduled, CallOp, Attach, AllGood, Disciplined, Send;
    if tx.Call? && Apply(env, s, tx).Ok? {
      hide BondsSound, StillJailed;
      var b := Attach(s.bank, tx.caller, tx.attached).value;
      SameSchedule(s, s.(bank := b));
      SameRequests(env, s, s.(bank := b));
      SameBonded(s, b);
      CallBonded(env, s.(bank := b), tx.caller, tx.attached, tx.op);
    }
  }

  lemma SameSchedule(s: State, s': State)
    requires Scheduled(s) && s' == s.(bank := s'.bank)
    ensures Scheduled(s')
  {
  }

  lemma DeactivateMinimum(s: State, id: nat, status: Status)
    ensures Deactivate(s, id, status).Ok? ==> Deactivate(s, id, status).value.minBond == s.minBond
  {
  }

  lemma MinimumStays(env: Env, s: State, tx: Tx)
    requires KeepsMinimum(tx)
    ensures Step(env, s, tx).minBond == s.minBond
  {
    if tx.Call? && Apply(env, s, tx).Ok? {
      var s1 := s.(bank := Attach(s.bank, tx.caller, tx.attached).value);
      hide Attach, Finalize, TryActivate, Commit, Reveal;
      match tx.op {
        case FinalizeRequest(id, budget) => FinalizeMinimum(env, s1, id, budget);
        case CommitTo(id, hash) => CommitMinimum(s1, tx.caller, id, hash);
        case RevealTo(id, response, salt) => RevealMinimum(env, s1, tx.caller, id, response, salt);
        case CreateRequest(scorer, schema, valid) =>
          TryActivateMinimum(s1.(requests := s1.requests[s1.nextId := NewRequest(tx.caller, scorer, schema, tx.attached, s1.height)],
                                 nextId := s1.nextId + 1));
        case _ =>
      }
    }
  }

  lemma TryActivateMinimum(s: State)
    ensures TryActivate(s).minBond == s.minBond
  {
  }

  lemma CommitMinimum(s: State, caller: Address, id: nat, hash: Text)
    ensures Commit(s, caller, id, hash).Ok? ==> Commit(s, caller, id, hash).value.minBond == s.minBond
  {
  }

  lemma RevealMinimum(env: Env, s: State, caller: Address, id: nat, response: Text, salt: Text)
    ensures Reveal(env, s, caller, id, response, salt).Ok? ==> Reveal(env, s, caller, id, response, salt).value.minBond == s.minBond
  {
  }

  lemma FinalizeMinimum(env: Env, s: State, id: nat, budget: nat)
    ensures Finalize(env, s, id, budget).Ok? ==> Finalize(env, s, id, budget).value.minBond == s.minBond
  {
    if Finalize(env, s, id, budget).Ok? && Open(s.requests[id]) {
      var r := s.requests[id];
      var p := Progressed(env, r, budget);
      hide Progressed, AllRevealed, Deactivate, Refund, Payable, PayFees, SlashEach, SlashScored, Silent, ReadVerdict;
      var r' := Saved(r, p);
      if p.raised {
        DeactivateMinimum(s.(bank := Refund(s.bank, r').value, requests := s.requests[id := r'.(result := None)]), id, Failed);
      } else if p.rest == [] {
        var v := ReadVerdict(env, r'.scorerState).value;
        var e := r'.(scores := v.scores);
        if v.result.None? {
          DeactivateMinimum(s.(bank := Refund(s.bank, e).value, requests := s.requests[id := e.(result := None)]), id, Failed);
        } else {
          DeactivateMinimum(
            s.(bank := PayFees(s.bank, r'.fee, v.scores).value,
               providers := SlashEach(SlashScored(s.providers, v.scores, s.minBond), Silent(r'), s.minBond),
               requests := s.requests[id := r'.(result := v.result, scores := v.scores)]), id, Resolved);
        }
      }
    }
  }

  /** Over every run in which the minimum bond is positive and stays as it is: a bonded provider holds at least the minimum and
      an underbonded one does not, the jailed stay jailed, and whoever committed to the open request is still a bonded provider
      with at least the minimum. */
  lemma {:induction false} BondsForever(env: Env, s: State, txs: seq<Tx>)
    requires Scheduled(s) && AllGood(env, s) && BondsSound(s) && s.minBond > 0
    requires forall i :: 0 <= i < |txs| ==> KeepsMinimum(txs[i])
    ensures BondsSound(Run(env, s, txs)) && StillJailed(s.providers, Run(env, s, txs).providers)
    ensures Run(env, s, txs).minBond == s.minBond
    decreases |txs|
  {
    if txs != [] {
      var s' := Step(env, s, txs[0]);
      StepBonded(env, s, txs[0]);
      StepGood(env, s, txs[0]);
      StepScheduled(env, s, txs[0]);
      hide Scheduled, Step, AllGood, BondsSound, StillJailed, AllEvolve;
      BondsForever(env, s', txs[1..]);
      JailedTransitive(s.providers, s'.providers, Run(env, s, txs).providers);
    }
  }

  /** The bonds a change of the minimum decides about: from the smaller of the two minimums up to, not including, the larger. */
  predicate Between(bond: nat, x: nat, y: nat) {
    (if x < y then x else y) <= bond < (if x < y then y else x)
  }

  /** Starting from right statuses, changing the minimum keeps them right exactly when no provider outside jail has a bond
      between the two minimums. */
  lemma NewMinimum(env: Env, s: State, value: nat)
    requires Disciplined(s.providers, s.minBond)
    ensures
      var s' := Step(env, s, Call(SCRIPT, 0, SetMinBond(value)));
      && s'.minBond == value
      && (Disciplined(s'.providers, s'.minBond) <==>
            forall a :: a in s.providers && !s.providers[a].standing.Jailed? ==> !Between(s.providers[a].bond, s.minBond, value))
  {
    var s' := Step(env, s, Call(SCRIPT, 0, SetMinBond(value)));
    if Disciplined(s'.providers, s'.minBond) {
      forall a | a in s.providers && !s.providers[a].standing.Jailed?
        ensures !Between(s.providers[a].bond, s.minBond, value)
      {
        assert s.providers[a].standing.Bonded? || s.providers[a].standing.Underbonded?;
      }
    }
  }

  /** A provider bonds the minimum of a new chain, the minimum is doubled, and the provider is left bonded with half of it: it
      may still commit. */
  lemma RaisedMinimumLeavesBonded(env: Env, bank: Ledger, clock: nat, height: nat)
    requires Balance(bank, "provider", UDYS) >= 1000000
    ensures
      var s := Run(env, Start(bank, clock, height), [Call("provider", 1000000, DepositBond), Call(SCRIPT, 0, SetMinBond(2000000))]);
      && s.minBond == 2000000
      && s.providers == map["provider" := Provider(1000000, Bonded)]
      && !Disciplined(s.providers, s.minBond)
  {
    var start := Start(bank, clock, height);
    var deposit, raise := Call("provider", 1000000, DepositBond), Call(SCRIPT, 0, SetMinBond(2000000));
    SendEffect(bank, "provider", SCRIPT, UDYS, 1000000);
    hide Send, Balance;
    var s1 := Step(env, start, deposit);
    assert s1.providers == map["provider" := Provider(1000000, Bonded)] && s1.minBond == 1000000;
    var s2 := Step(env, s1, raise);
    assert s2.providers["provider"].bond == 1000000;
    RunTwo(env, start, deposit, raise);
  }

  lemma RunTwo(env: Env, s: State, x: Tx, y: Tx)
    ensures Run(env, s, [x, y]) == Step(env, Step(env, s, x), y)
  {
    hide Step;
    assert [x, y][1..] == [y] && [y][1..] == [];
    assert Run(env, Step(env, s, x), [y]) == Step(env, Step(env, s, x), y);
  }
}
