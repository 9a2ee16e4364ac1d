/** The oracle's money: the script's balance covers every bond and the fee of every unfinished request, and no call lowers
    what it holds beyond that. */
module TewlEscrow {
  import opened Options
  import opened Totals
  import opened Bank
  import opened Tewl
  import opened TewlQueue

  // ---- what the script owes ----

  function BondOf(): Provider -> int {
    (p: Provider) => p.bond
  }

  function FeeOf(): Request -> int {
    (r: Request) => if r.status.Resolved? || r.status.Failed? then 0 else r.fee
  }

  ghost function Bonds(ps: Providers): int {
    Total<Address, Provider>(ps, BondOf())
  }

  /** The fees of the unfinished requests. */
  ghost function Fees(requests: Requests): int {
    Total<nat, Request>(requests, FeeOf())
  }

  /** What the script holds beyond the bonds and the escrowed fees. */
  ghost function Surplus(s: State): int {
    Balance(s.bank, SCRIPT, UDYS) - Bonds(s.providers) - Fees(s.requests)
  }

  /** The script covers what it owes, and is neither a provider nor a requester itself. */
  ghost predicate Escrowed(s: State) {
    && Surplus(s) >= 0
    && SCRIPT !in s.providers
    && (forall id :: id in s.requests ==> s.requests[id].requester != SCRIPT)
  }

  lemma OwesNatural(s: State)
    ensures Bonds(s.providers) >= 0 && Fees(s.requests) >= 0
    ensures forall a :: a in s.providers ==> s.providers[a].bond <= Bonds(s.providers)
    ensures forall id :: id in s.requests ==> FeeOf()(s.requests[id]) <= Fees(s.requests)
  {
    TotalAtLeast<Address, Provider>(s.providers, BondOf());
    TotalAtLeast<nat, Request>(s.requests, FeeOf());
    hide Total;
    forall a | a in s.providers ensures s.providers[a].bond <= Bonds(s.providers) {
      assert BondOf()(s.providers[a]) <= Total<Address, Provider>(s.providers, BondOf());
    }
  }

  // ---- the fee split ----

  function ShareSum(fee: nat, scores: Scores, total: nat): nat
    requires total > 0
    decreases |scores|
  {
    if scores == [] then 0 else Share(fee, scores[0].1, total) + ShareSum(fee, scores[1..], total)
  }

  /** How many scores are positive. */
  function Positive(scores: Scores): nat
    decreases |scores|
  {
    if scores == [] then 0 else (if scores[0].1 > 0 then 1 else 0) + Positive(scores[1..])
  }

  lemma ShareBounds(fee: nat, score: int, total: nat)
    requires score > 0 && total > 0
    ensures fee * score - total < total * Share(fee, score, total) <= fee * score
  {
  }

  lemma Distribute3(c: int, x: int, y: int)
    ensures c * (x + y) == c * x + c * y
  {
  }

  lemma {:induction false} ShareSumScaled(fee: nat, scores: Scores, total: nat)
    requires total > 0
    ensures total * ShareSum(fee, scores, total) <= fee * TotalScore(scores)
    ensures total * ShareSum(fee, scores, total) + (total - 1) * Positive(scores) >= fee * TotalScore(scores)
    decreases |scores|
  {
    if scores != [] {
      var s, rest := scores[0].1, scores[1..];
      ShareSumScaled(fee, rest, total);
      Distribute3(total, Share(fee, s, total), ShareSum(fee, rest, total));
      if s > 0 {
        ShareBounds(fee, s, total);
        Distribute3(fee, s, TotalScore(rest));
        Distribute3(total - 1, 1, Positive(rest));
        hide Share;
      }
    }
  }

  lemma BelowFactor(c: nat, x: int, y: int)
    requires c > 0 && c * x < c * y
    ensures x < y
  {
    if x >= y { Distribute3(c, x - y, y); }
  }

  lemma AtMostFactor(c: nat, x: int, y: int)
    requires c > 0 && c * x <= c * y
    ensures x <= y
  {
    if x > y { Distribute3(c, x - y, y); }
  }

  /** The floor split never pays more than the fee, and leaves less than one coin for each provider with a positive score. */
  lemma SplitFitsFee(fee: nat, scores: Scores)
    requires TotalScore(scores) > 0
    ensures ShareSum(fee, scores, TotalScore(scores)) <= fee
    ensures fee - ShareSum(fee, scores, TotalScore(scores)) < Positive(scores)
  {
    var total := TotalScore(scores);
    var sum, n := ShareSum(fee, scores, total), Positive(scores);
    ShareSumScaled(fee, scores, total);
    PositiveScores(scores);
    hide TotalScore, ShareSum, Positive;
    assert fee * total == total * fee;
    AtMostFactor(total, sum, fee);
    Distribute3(total, sum, n);
    Distribute3(n, total - 1, 1);
    assert (total - 1) * n == n * (total - 1) && total * n == n * total;
    BelowFactor(total, fee, sum + n);
  }

  lemma {:induction false} PositiveScores(scores: Scores)
    ensures TotalScore(scores) > 0 ==> Positive(scores) > 0
    decreases |scores|
  {
    if scores != [] { PositiveScores(scores[1..]); }
  }

  /** What leaves the script: the shares of everyone but itself. */
  function PaidAway(fee: nat, scores: Scores, total: nat): nat
    requires total > 0
    decreases |scores|
  {
    if scores == [] then 0
    else (if scores[0].0 == SCRIPT then 0 else Share(fee, scores[0].1, total)) + PaidAway(fee, scores[1..], total)
  }

  lemma {:induction false} PaidAwayWithin(fee: nat, scores: Scores, total: nat)
    requires total > 0
    ensures PaidAway(fee, scores, total) <= ShareSum(fee, scores, total)
    ensures (forall i :: 0 <= i < |scores| ==> scores[i].0 != SCRIPT) ==>
      PaidAway(fee, scores, total) == ShareSum(fee, scores, total)
    decreases |scores|
  {
    if scores != [] { PaidAwayWithin(fee, scores[1..], total); }
  }

  /** Paying the shares succeeds when the script can pay their sum, and costs it exactly the shares of the others. */
  lemma {:induction false} DistributeEffect(b: Ledger, fee: nat, scores: Scores, total: nat)
    requires total > 0 && ShareSum(fee, scores, total) <= Balance(b, SCRIPT, UDYS)
    ensures Distribute(b, fee, scores, total).Some?
    ensures Balance(Distribute(b, fee, scores, total).value, SCRIPT, UDYS)
         == Balance(b, SCRIPT, UDYS) - PaidAway(fee, scores, total)
    decreases |scores|
  {
    if scores != [] {
      var x := Share(fee, scores[0].1, total);
      if x > 0 {
        SendEffect(b, SCRIPT, scores[0].0, UDYS, x);
        hide Send, Balance, Share;
        DistributeEffect(Send(b, SCRIPT, scores[0].0, UDYS, x).value, fee, scores[1..], total);
      } else {
        DistributeEffect(b, fee, scores[1..], total);
      }
    }
  }

  /** What settling a resolved request pays away: nothing when no score is positive. */
  function Payout(fee: nat, scores: Scores): nat {
    if TotalScore(scores) == 0 then 0 else PaidAway(fee, scores, TotalScore(scores))
  }

  /** Settling a resolved request succeeds and pays out at most its fee. */
  lemma PayFeesEffect(b: Ledger, fee: nat, scores: Scores)
    requires fee <= Balance(b, SCRIPT, UDYS)
    ensures PayFees(b, fee, scores).Some? && Payout(fee, scores) <= fee
    ensures Balance(PayFees(b, fee, scores).value, SCRIPT, UDYS) == Balance(b, SCRIPT, UDYS) - Payout(fee, scores)
  {
    if TotalScore(scores) > 0 {
      SplitFitsFee(fee, scores);
      PaidAwayWithin(fee, scores, TotalScore(scores));
      DistributeEffect(b, fee, scores, TotalScore(scores));
    }
  }

  // ---- slashing ----

  lemma SlashLowers(ps: Providers, a: Address, amount: nat, minBond: nat)
    ensures Bonds(Slash(ps, a, amount, minBond)) <= Bonds(ps)
    ensures Slash(ps, a, amount, minBond).Keys == ps.Keys
  {
    if a in ps {
      TotalPut(ps, BondOf(), a, Slash(ps, a, amount, minBond)[a]);
      hide Total;
      assert Slash(ps, a, amount, minBond) == ps[a := Slash(ps, a, amount, minBond)[a]];
    }
  }

  lemma {:induction false} SlashScoredLowers(ps: Providers, scores: Scores, minBond: nat)
    ensures Bonds(SlashScored(ps, scores, minBond)) <= Bonds(ps)
    ensures SlashScored(ps, scores, minBond).Keys == ps.Keys
    decreases |scores|
  {
    if scores != [] {
      SlashLowers(ps, scores[0].0, SlashAmount(minBond), minBond);
      hide Slash, Bonds;
      var next := if scores[0].1 <= 0 then Slash(ps, scores[0].0, SlashAmount(minBond), minBond) else ps;
      SlashScoredLowers(next, scores[1..], minBond);
    }
  }

  lemma {:induction false} SlashEachLowers(ps: Providers, addresses: seq<Address>, minBond: nat)
    ensures Bonds(SlashEach(ps, addresses, minBond)) <= Bonds(ps)
    ensures SlashEach(ps, addresses, minBond).Keys == ps.Keys
    decreases |addresses|
  {
    if addresses != [] {
      SlashLowers(ps, addresses[0], SlashAmount(minBond), minBond);
      hide Slash, Bonds;
      SlashEachLowers(Slash(ps, addresses[0], SlashAmount(minBond), minBond), addresses[1..], minBond);
    }
  }

  // ---- requests ----

  lemma RequestPut(requests: Requests, id: nat, r: Request)
    ensures Fees(requests[id := r]) == Fees(requests) - (if id in requests then FeeOf()(requests[id]) else 0) + FeeOf()(r)
  {
    TotalPut<nat, Request>(requests, FeeOf(), id, r);
    hide Total;
  }

  /** Activating a request changes no fee and moves no coin. */
  lemma TryActivateFees(s: State)
    ensures Fees(TryActivate(s).requests) == Fees(s.requests)
    ensures TryActivate(s).bank == s.bank && TryActivate(s).providers == s.providers
    ensures forall id :: id in TryActivate(s).requests ==>
      id in s.requests && TryActivate(s).requests[id].requester == s.requests[id].requester
  {
    var id := TryActivateChanges(s);
    hide TryActivate;
    if id in s.requests && s.requests[id].status.Pending? {
      RequestPut(s.requests, id, Activated(s.requests[id], s.clock));
    }
    hide Fees;
  }

  /** A request that finishes frees its fee. */
  lemma DeactivateFees(s: State, id: nat, status: Status)
    requires id in s.requests && Open(s.requests[id]) && (status.Resolved? || status.Failed?)
    requires Deactivate(s, id, status).Ok?
    ensures
      var s' := Deactivate(s, id, status).value;
      && Fees(s'.requests) == Fees(s.requests) - s.requests[id].fee
      && s'.bank == s.bank && s'.providers == s.providers
      && forall k :: k in s'.requests ==> k in s.requests && s'.requests[k].requester == s.requests[k].requester
  {
    var r := s.requests[id].(status := status);
    RequestPut(s.requests, id, r);
    TryActivateFees(s.(requests := s.requests[id := r], activeId := None));
    hide TryActivate, Fees;
  }

  /** A refund pays the requester the fee, neither more nor less. */
  lemma RefundEffect(b: Ledger, r: Request)
    requires r.fee <= Balance(b, SCRIPT, UDYS)
    ensures Refund(b, r).Some?
    ensures forall a :: Balance(Refund(b, r).value, a, UDYS) == Balance(b, a, UDYS) + Moved(a, SCRIPT, r.requester, r.fee)
  {
    SendEffect(b, SCRIPT, r.requester, UDYS, r.fee);
    hide Send, Balance;
  }

  lemma CoversFee(s: State, id: nat)
    requires Escrowed(s) && id in s.requests && Open(s.requests[id])
    ensures s.requests[id].fee <= Balance(s.bank, SCRIPT, UDYS)
  {
    OwesNatural(s);
    assert FeeOf()(s.requests[id]) == s.requests[id].fee;
    hide Balance, Bonds, Fees;
  }

  /** A request that fails costs the script exactly its fee, paid to its requester. */
  lemma FailRefunds(s: State, id: nat, r: Request)
    requires Scheduled(s) && Escrowed(s) && id in s.requests && Open(s.requests[id]) && Open(r)
    requires r.fee == s.requests[id].fee && r.requester == s.requests[id].requester
    ensures Fail(s, id, r).Ok?
    ensures
      var s' := Fail(s, id, r).value;
      && Escrowed(s') && Surplus(s') == Surplus(s)
      && (forall a :: Balance(s'.bank, a, UDYS) == Balance(s.bank, a, UDYS) + Moved(a, SCRIPT, r.requester, r.fee))
  {
    assert s.activeId == Some(id);
    hide Scheduled;
    CoversFee(s, id);
    RefundEffect(s.bank, r);
    FailEnds(s, id, r);
    hide Fail, Refund, Balance, Fees, Bonds;
  }

  /** A request that can be refunded fails: its fee is no longer owed, and nothing else about the debts changes. */
  lemma FailEnds(s: State, id: nat, r: Request)
    requires s.activeId == Some(id) && id in s.requests && Open(s.requests[id]) && Open(r) && Refund(s.bank, r).Some?
    requires r.fee == s.requests[id].fee && r.requester == s.requests[id].requester
    ensures Fail(s, id, r).Ok?
    ensures
      var s' := Fail(s, id, r).value;
      && s'.bank == Refund(s.bank, r).value && s'.providers == s.providers
      && Fees(s'.requests) == Fees(s.requests) - r.fee
      && forall k :: k in s'.requests ==> k in s.requests && s'.requests[k].requester == s.requests[k].requester
  {
    hide Refund, Fees, TryActivate;
    var r' := r.(result := None);
    RequestPut(s.requests, id, r');
    var s1 := s.(bank := Refund(s.bank, r).value, requests := s.requests[id := r']);
    assert Deactivate(s1, id, Failed).Ok?;
    DeactivateFees(s1, id, Failed);
    hide Deactivate;
  }

  /** A final scorer state ends its request: it can be read, and if it has a result everyone due a share can be paid. */
  predicate Settles(env: Env, fee: nat, state: ScorerState) {
    var v := ReadVerdict(env, state);
    v.Some? && (v.value.result.None? || Payable(env, fee, v.value.scores))
  }

  lemma SettleEscrowed(env: Env, s: State, id: nat, r: Request)
    requires Scheduled(s) && Escrowed(s) && id in s.requests && Open(s.requests[id]) && Open(r)
    requires r.fee == s.requests[id].fee && r.requester == s.requests[id].requester
    ensures Settle(env, s, id, r).Ok? <==> Settles(env, r.fee, r.scorerState)
    ensures Settle(env, s, id, r).Err? ==>
      Settle(env, s, id, r).error == ScorerUnreadable || Settle(env, s, id, r).error == PayeeRefused
    ensures Settle(env, s, id, r).Ok? ==>
      Escrowed(Settle(env, s, id, r).value) && Surplus(Settle(env, s, id, r).value) >= Surplus(s)
  {
    var read := ReadVerdict(env, r.scorerState);
    if read.Some? {
      var v := read.value;
      hide ReadVerdict;
      if v.result.None? {
        FailRefunds(s, id, r.(scores := v.scores));
      } else {
        ResolveEscrowed(s, id, r, v);
        hide Payable;
      }
    }
  }

  /** Settling a resolved request raises the surplus by what of the fee is not paid away and by the bonds that are slashed. */
  lemma ResolveEscrowed(s: State, id: nat, r: Request, v: Verdict)
    requires Scheduled(s) && Escrowed(s) && id in s.requests && Open(s.requests[id]) && Open(r)
    requires r.fee == s.requests[id].fee && r.requester == s.requests[id].requester
    ensures PayFees(s.bank, r.fee, v.scores).Some?
    ensures
      var b := PayFees(s.bank, r.fee, v.scores).value;
      var slashed := SlashEach(SlashScored(s.providers, v.scores, s.minBond), Silent(r), s.minBond);
      var s1 := s.(bank := b, providers := slashed,
                   requests := s.requests[id := r.(result := v.result, scores := v.scores)]);
      && Deactivate(s1, id, Resolved).Ok?
      && Escrowed(Deactivate(s1, id, Resolved).value)
      && Payout(r.fee, v.scores) <= r.fee && Bonds(slashed) <= Bonds(s.providers)
      && Surplus(Deactivate(s1, id, Resolved).value)
           == Surplus(s) + (r.fee - Payout(r.fee, v.scores)) + (Bonds(s.providers) - Bonds(slashed))
  {
    CoversFee(s, id);
    assert s.activeId == Some(id);
    hide Scheduled;
    PayFeesEffect(s.bank, r.fee, v.scores);
    SlashScoredLowers(s.providers, v.scores, s.minBond);
    SlashEachLowers(SlashScored(s.providers, v.scores, s.minBond), Silent(r), s.minBond);
    RequestPut(s.requests, id, r.(result := v.result, scores := v.scores));
    hide PayFees, Payout, SlashEach, SlashScored, Silent, Fees, Bonds, Balance;
    var s1 := s.(bank := PayFees(s.bank, r.fee, v.scores).value,
                 providers := SlashEach(SlashScored(s.providers, v.scores, s.minBond), Silent(r), s.minBond),
                 requests := s.requests[id := r.(result := v.result, scores := v.scores)]);
    assert Deactivate(s1, id, Resolved).Ok?;
    DeactivateFees(s1, id, Resolved);
    hide Deactivate;
  }

  // ---- every call ----

  lemma UpdateKeeps(s: State, id: nat, r: Request)
    requires Escrowed(s) && id in s.requests && Open(s.requests[id]) && Open(r)
    requires r.fee == s.requests[id].fee && r.requester == s.requests[id].requester
    ensures Escrowed(s.(requests := s.requests[id := r])) && Surplus(s.(requests := s.requests[id := r])) == Surplus(s)
  {
    RequestPut(s.requests, id, r);
    hide Fees, Bonds, Balance;
  }

  /** A call kept the escrow, or failed for another reason than missing coins. */
  ghost predicate Kept(s: State, r: Result<State>) {
    && (r.Ok? ==> Escrowed(r.value) && Surplus(r.value) >= Surplus(s))
    && r != Err(SendFailed) && r != Err(NotTheActiveRequest)
  }

  lemma SavedKeeps(r: Request, p: Progress)
    ensures Saved(r, p).status == r.status && Saved(r, p).fee == r.fee && Saved(r, p).requester == r.requester
    ensures Saved(r, p).entries == r.entries
  {
  }

  /** Finalizing never fails for want of coins, whatever the scorer says. */
  lemma FinalizeKeeps(env: Env, s: State, id: nat, budget: nat)
    requires Scheduled(s) && Escrowed(s)
    ensures Kept(s, Finalize(env, s, id, budget))
  {
    hide Progressed, Saved, AllRevealed, Scheduled, Fail, Settle, Settles, Escrowed, Surplus;
    if id in s.requests && Open(s.requests[id]) {
      var r := s.requests[id];
      var p := Progressed(env, r, budget);
      var r' := Saved(r, p);
      SavedKeeps(r, p);
      FailRefunds(s, id, r');
      SettleEscrowed(env, s, id, r');
      UpdateKeeps(s, id, r');
    }
  }

  /** The attached coins of a call, beyond the surplus there was. */
  ghost predicate Funded(before: int, s: State, attached: nat) {
    Escrowed(s) && Surplus(s) == before + attached
  }

  lemma AttachFunds(s: State, caller: Address, attached: nat)
    requires Escrowed(s) && (attached > 0 ==> caller != SCRIPT) && Attach(s.bank, caller, attached).Some?
    ensures Funded(Surplus(s), s.(bank := Attach(s.bank, caller, attached).value), attached)
  {
    SendEffect(s.bank, caller, SCRIPT, UDYS, attached);
    hide Send, Balance, Bonds, Fees;
  }

  lemma DepositKeeps(s: State, caller: Address, attached: nat)
    requires Escrowed(s) && Surplus(s) >= attached && caller != SCRIPT
    ensures Deposit(s, caller, attached).Ok? ==>
      Escrowed(Deposit(s, caller, attached).value) && Surplus(Deposit(s, caller, attached).value) == Surplus(s) - attached
  {
    if attached > 0 {
      var s' := Deposit(s, caller, attached).value;
      TotalPut(s.providers, BondOf(), caller, s'.providers[caller]);
      hide Total, Fees, Balance;
      assert s'.providers == s.providers[caller := s'.providers[caller]];
    }
  }

  lemma WithdrawKeeps(s: State, caller: Address, amount: int)
    requires Escrowed(s)
    ensures Withdraw(s, caller, amount).Ok? ==>
      Escrowed(Withdraw(s, caller, amount).value) && Surplus(Withdraw(s, caller, amount).value) == Surplus(s)
    ensures amount > 0 ==> Withdraw(s, caller, amount) != Err(SendFailed)
  {
    if caller in s.providers && amount <= s.providers[caller].bond {
      OwesNatural(s);
      SendEffect(s.bank, SCRIPT, caller, UDYS, amount);
      var p := s.providers[caller];
      TotalRemove(s.providers, BondOf(), caller);
      if amount > 0 {
        TotalPut(s.providers, BondOf(), caller, p.(bond := p.bond - amount));
      }
      hide Total, Send, Balance, Fees;
    }
  }

  lemma CreateKeeps(s: State, caller: Address, fee: nat, scorer: Text, schema: Text, valid: bool)
    requires Scheduled(s) && Escrowed(s) && Surplus(s) >= fee && caller != SCRIPT
    ensures Create(s, caller, fee, scorer, schema, valid).Ok? ==>
      && Escrowed(Create(s, caller, fee, scorer, schema, valid).value)
      && Surplus(Create(s, caller, fee, scorer, schema, valid).value) == Surplus(s) - fee
  {
    var r := NewRequest(caller, scorer, schema, fee, s.height);
    var s' := s.(requests := s.requests[s.nextId := r], nextId := s.nextId + 1);
    assert s.nextId !in s.requests;
    hide TryActivate, Fees, Bonds, Balance, Scheduled;
    RequestPut(s.requests, s.nextId, r);
    TryActivateKeeps(s');
    assert Escrowed(s') && Surplus(s') == Surplus(s) - fee;
    hide Escrowed, Surplus;
  }

  lemma TryActivateKeeps(s: State)
    requires Escrowed(s)
    ensures Escrowed(TryActivate(s)) && Surplus(TryActivate(s)) == Surplus(s)
  {
    TryActivateFees(s);
    hide TryActivate, Fees, Bonds, Balance;
  }

  lemma CallKeeps(env: Env, s: State, caller: Address, attached: nat, op: Op)
    requires Scheduled(s) && Escrowed(s) && Surplus(s) >= attached && (attached > 0 ==> caller != SCRIPT)
    requires CallOp(env, s, caller, attached, op).Ok?
    ensures Escrowed(CallOp(env, s, caller, attached, op).value)
    ensures Surplus(CallOp(env, s, caller, attached, op).value) >= Surplus(s) - attached
  {
    hide Surplus, Escrowed, Scheduled, Withdraw, Commit, Reveal, Finalize, TryActivate;
    match op {
      case DepositBond => DepositKeeps(s, caller, attached);
      case WithdrawBond(amount) => WithdrawKeeps(s, caller, amount);
      case CreateRequest(scorer, schema, valid) => CreateKeeps(s, caller, attached, scorer, schema, valid);
      case CommitTo(id, hash) => CommitKeeps(s, caller, id, hash);
      case RevealTo(id, response, salt) => RevealKeeps(env, s, caller, id, response, salt);
      case FinalizeRequest(id, budget) => FinalizeKeeps(env, s, id, budget);
      case SetMinBond(value) => MinimumKeeps(s, value);
    }
  }

  lemma CommitKeeps(s: State, caller: Address, id: nat, hash: Text)
    requires Escrowed(s) && Commit(s, caller, id, hash).Ok?
    ensures Escrowed(Commit(s, caller, id, hash).value) && Surplus(Commit(s, caller, id, hash).value) == Surplus(s)
  {
    var r := s.requests[id];
    hide Surplus, AllCommitted;
    UpdateKeeps(s, id, Transition(s, r.(entries := r.entries[caller := Entry(hash, None)])));
  }

  lemma RevealKeeps(env: Env, s: State, caller: Address, id: nat, response: Text, salt: Text)
    requires Escrowed(s) && Reveal(env, s, caller, id, response, salt).Ok?
    ensures Escrowed(Reveal(env, s, caller, id, response, salt).value)
    ensures Surplus(Reveal(env, s, caller, id, response, salt).value) == Surplus(s)
  {
    var r := Transition(s, s.requests[id]);
    hide Surplus, AllCommitted;
    UpdateKeeps(s, id, r.(entries := r.entries[caller := r.entries[caller].(response := Some(response))]));
  }

  lemma MinimumKeeps(s: State, value: nat)
    requires Escrowed(s)
    ensures Escrowed(s.(minBond := value)) && Surplus(s.(minBond := value)) == Surplus(s)
  {
    hide Bonds, Fees, Balance;
  }

  // ---- runs ----

  /** No one but the script's own code sends the script's coins. */
  predicate Allowed(tx: Tx) {
    match tx
    case Call(caller, attached, _) => attached > 0 ==> caller != SCRIPT
    case NextBlock(_) => true
    case UserSend(from, _, _) => from != SCRIPT
  }

  lemma StepKeeps(env: Env, s: State, tx: Tx)
    requires Scheduled(s) && Escrowed(s) && Allowed(tx)
    ensures Scheduled(Step(env, s, tx)) && Escrowed(Step(env, s, tx)) && Surplus(Step(env, s, tx)) >= Surplus(s)
  {
    AlwaysScheduled(env, s, [tx]);
    assert [tx][1..] == [];
    assert Run(env, s, [tx]) == Step(env, s, tx);
    hide Run;
    if Apply(env, s, tx).Ok? {
      match tx {
        case Call(caller, attached, op) =>
          var s1 := s.(bank := Attach(s.bank, caller, attached).value);
          AttachFunds(s, caller, attached);
          assert Scheduled(s1);
          hide CallOp, Scheduled, Attach, Surplus;
          CallKeeps(env, s1, caller, attached, op);
        case NextBlock(_) =>
          hide Balance, Scheduled, Bonds, Fees;
        case UserSend(from, to, amount) =>
          OthersKeep(s, from, to, amount);
          hide Send, Surplus, Escrowed, Scheduled;
      }
    }
  }

  lemma OthersKeep(s: State, from: Address, to: Address, amount: int)
    requires Escrowed(s) && from != SCRIPT && Send(s.bank, from, to, UDYS, amount).Some?
    ensures
      var s' := s.(bank := Send(s.bank, from, to, UDYS, amount).value);
      Escrowed(s') && Surplus(s') >= Surplus(s)
  {
    SendEffect(s.bank, from, to, UDYS, amount);
    hide Send, Balance, Bonds, Fees;
  }

  /** Over every run the script's balance covers all bonds and the fees of all unfinished requests, and its surplus never
      shrinks. */
  lemma {:induction false} EscrowForever(env: Env, s: State, txs: seq<Tx>)
    requires Scheduled(s) && Escrowed(s)
    requires forall i :: 0 <= i < |txs| ==> Allowed(txs[i])
    ensures Surplus(Run(env, s, txs)) >= Surplus(s)
    ensures Balance(Run(env, s, txs).bank, SCRIPT, UDYS)
         >= Bonds(Run(env, s, txs).providers) + Fees(Run(env, s, txs).requests)
    decreases |txs|
  {
    if txs != [] {
      StepKeeps(env, s, txs[0]);
      hide Scheduled, Step, Bonds, Fees, Balance;
      EscrowForever(env, Step(env, s, txs[0]), txs[1..]);
    }
  }
}
