/** The oracle as the script runs it: stored records read, changed and written back. Every public method leaves the state its
    specification in Tewl gives; when it fails, the chain puts the state back. */
module TewlScript {
  import opened Options
  import opened Bank
  import opened KeyOrder
  import T = Tewl

  class Script {
    const env: T.Env
    var bank: Ledger
    var providers: T.Providers
    var requests: T.Requests
    var nextId: nat
    var minBond: nat
    var activeId: Option<nat>
    var clock: nat
    var height: nat

    constructor (env: T.Env, bank: Ledger, clock: nat, height: nat)
      ensures this.env == env && Value() == T.Start(bank, clock, height)
    {
      this.env := env;
      this.bank := bank;
      this.providers := map[];
      this.requests := map[];
      this.nextId := 1;
      this.minBond := 1000000;
      this.activeId := None;
      this.clock := clock;
      this.height := height;
    }

    function Value(): T.State
      reads this
    {
      T.State(bank, providers, requests, nextId, minBond, activeId, clock, height)
    }

    /** The chain reverts a failed call. */
    method Revert(s: T.State)
      modifies this
      ensures Value() == s
    {
      bank, providers, requests := s.bank, s.providers, s.requests;
      nextId, minBond, activeId, clock, height := s.nextId, s.minBond, s.activeId, s.clock, s.height;
    }

    // ---- the queue ----

    method GetPendingRequests() returns (ids: seq<nat>)
      ensures ids == T.PendingOrder(requests)
    {
      T.KeysAreOrdered();
      ListingMembers(T.PendingIds(requests), T.KeyBefore);
      var listed := Listing(T.PendingIds(requests), T.KeyBefore);
      hide Listing, T.KeyBefore, T.PendingIds;
      ids := SortRequests(listed);
    }

    method SortRequests(listed: seq<nat>) returns (ids: seq<nat>)
      requires forall k :: k in listed ==> k in requests
      ensures ids == T.SortByRank(requests, listed)
    {
      ids := [];
      for i := 0 to |listed|
        invariant ids == T.SortByRank(requests, listed[..i])
      {
        assert listed[..i + 1][..i] == listed[..i] && listed[..i + 1][i] == listed[i];
        hide T.Insert;
        ids := T.Insert(requests, ids, listed[i]);
      }
      assert listed[..|listed|] == listed;
    }

    method TryActivateNext()
      modifies this`requests, this`activeId
      ensures Value() == T.TryActivate(old(Value()))
    {
      if activeId.Some? {
        return;
      }
      var pending := GetPendingRequests();
      hide T.PendingOrder;
      if pending == [] {
        return;
      }
      var id := pending[0];
      assert id in pending;
      requests := requests[id := requests[id].(
        status := T.Active,
        commitDeadline := clock + T.COMMIT_TIMEOUT,
        revealDeadline := clock + T.COMMIT_TIMEOUT + T.REVEAL_TIMEOUT)];
      activeId := Some(id);
    }

    method DeactivateRequest(id: nat, status: T.Status) returns (ok: bool)
      modifies this`requests, this`activeId
      ensures ok <==> T.Deactivate(old(Value()), id, status).Ok?
      ensures ok ==> Value() == T.Deactivate(old(Value()), id, status).value
      ensures !ok ==> Value() == old(Value())
    {
      hide T.TryActivate;
      if activeId != Some(id) || id !in requests {
        return false;
      }
      requests := requests[id := requests[id].(status := status)];
      activeId := None;
      TryActivateNext();
      ok := true;
    }

    // ---- coins ----

    method SendCoins(to: Address, amount: int) returns (ok: bool)
      modifies this`bank
      ensures ok <==> Send(old(bank), T.SCRIPT, to, T.UDYS, amount).Some?
      ensures bank == if ok then Send(old(bank), T.SCRIPT, to, T.UDYS, amount).value else old(bank)
    {
      hide Send;
      var sent := Send(bank, T.SCRIPT, to, T.UDYS, amount);
      if sent.Some? {
        bank := sent.value;
      }
      ok := sent.Some?;
    }

    method RefundEscrow(r: T.Request) returns (ok: bool)
      modifies this`bank
      ensures ok <==> T.Refund(old(bank), r).Some?
      ensures bank == if ok then T.Refund(old(bank), r).value else old(bank)
    {
      ok := true;
      hide Send;
      if r.fee > 0 {
        ok := SendCoins(r.requester, r.fee);
      }
    }

    static method SumPositive(scores: T.Scores) returns (total: nat)
      ensures total == T.TotalScore(scores)
    {
      total := 0;
      for i := 0 to |scores|
        invariant T.TotalScore(scores) == total + T.TotalScore(scores[i..])
      {
        assert scores[i..][1..] == scores[i + 1..];
        if scores[i].1 > 0 {
          total := total + scores[i].1;
        }
      }
    }

    /** Whether the bank sends to everyone who is due a share. */
    method CheckPayees(fee: nat, scores: T.Scores) returns (ok: bool)
      ensures ok == T.Payable(env, fee, scores)
    {
      var total := SumPositive(scores);
      if total == 0 {
        return true;
      }
      for i := 0 to |scores|
        invariant T.AllAccepted(env, fee, scores, total) == T.AllAccepted(env, fee, scores[i..], total)
      {
        assert scores[i..][0] == scores[i] && scores[i..][1..] == scores[i + 1..];
        hide T.TotalScore, T.Share;
        if T.Share(fee, scores[i].1, total) > 0 && !env.accepts(scores[i].0) {
          return false;
        }
      }
      ok := true;
    }

    /** Pays the shares of the providers with a positive score, in the order of the scores. */
    method DistributeFees(fee: nat, scores: T.Scores) returns (ok: bool)
      modifies this`bank
      ensures ok <==> T.PayFees(old(bank), fee, scores).Some?
      ensures ok ==> bank == T.PayFees(old(bank), fee, scores).value
    {
      var total := SumPositive(scores);
      if total == 0 {
        return true;
      }
      ghost var start := bank;
      for i := 0 to |scores|
        invariant T.Distribute(start, fee, scores, total) == T.Distribute(bank, fee, scores[i..], total)
      {
        assert scores[i..][0] == scores[i] && scores[i..][1..] == scores[i + 1..];
        hide Send, T.TotalScore;
        if scores[i].1 > 0 {
          var amount := fee * scores[i].1 / total;
          assert amount == T.Share(fee, scores[i].1, total);
          hide T.Share;
          if amount > 0 {
            var sent := SendCoins(scores[i].0, amount);
            if !sent {
              return false;
            }
          }
        }
      }
      ok := true;
    }

    // ---- slashing ----

    method SlashProvider(a: Address, amount: nat)
      modifies this`providers
      ensures providers == T.Slash(old(providers), a, amount, minBond)
    {
      if a !in providers {
        return;
      }
      var p := providers[a];
      var cut := if amount < p.bond then amount else p.bond;
      if cut > 0 {
        var standing := if p.bond - cut < minBond then T.Jailed else p.standing;
        providers := providers[a := T.Provider(p.bond - cut, standing)];
      }
    }

    method SlashByScore(scores: T.Scores)
      modifies this`providers
      ensures providers == T.SlashScored(old(providers), scores, minBond)
    {
      ghost var start := providers;
      var amount := T.SlashAmount(minBond);
      for i := 0 to |scores|
        invariant T.SlashScored(start, scores, minBond) == T.SlashScored(providers, scores[i..], minBond)
      {
        assert scores[i..][0] == scores[i] && scores[i..][1..] == scores[i + 1..];
        hide T.Slash;
        if scores[i].1 <= 0 {
          SlashProvider(scores[i].0, amount);
        }
      }
    }

    method SlashSilent(silent: seq<Address>)
      modifies this`providers
      ensures providers == T.SlashEach(old(providers), silent, minBond)
    {
      ghost var start := providers;
      for i := 0 to |silent|
        invariant T.SlashEach(start, silent, minBond) == T.SlashEach(providers, silent[i..], minBond)
      {
        assert silent[i..][0] == silent[i] && silent[i..][1..] == silent[i + 1..];
        hide T.Slash;
        SlashProvider(silent[i], T.SlashAmount(minBond));
      }
    }

    // ---- providers ----

    method DepositBond(caller: Address, attached: nat) returns (r: T.Result<()>)
      modifies this`providers
      ensures Did(r, T.Deposit(old(Value()), caller, attached), old(Value()), Value())
    {
      if attached == 0 {
        return T.Err(T.NoAttachment);
      }
      var p := T.Provider(0, T.Underbonded);
      if caller in providers {
        p := providers[caller];
      }
      p := p.(bond := p.bond + attached);
      if p.bond >= minBond && p.standing.Underbonded? {
        p := p.(standing := T.Bonded);
      }
      providers := providers[caller := p];
      r := T.Ok(());
    }

    method WithdrawBond(caller: Address, amount: int) returns (r: T.Result<()>)
      modifies this`bank, this`providers
      ensures Did(r, T.Withdraw(old(Value()), caller, amount), old(Value()), Value())
    {
      hide Send;
      if caller !in providers {
        return T.Err(T.NotRegistered);
      }
      var p := providers[caller];
      if p.standing.Jailed? {
        return T.Err(T.IsJailed);
      }
      if amount > p.bond {
        return T.Err(T.ExceedsBond);
      }
      var bond := p.bond - amount;
      if p.standing.Bonded? && bond < minBond {
        return T.Err(T.BelowMinimum);
      }
      var sent := SendCoins(caller, amount);
      if !sent {
        return T.Err(T.SendFailed);
      }
      if bond == 0 {
        providers := providers - {caller};
      } else {
        providers := providers[caller := p.(bond := bond)];
      }
      r := T.Ok(());
    }

    // ---- requests ----

    method CreateRequest(caller: Address, fee: nat, scorer: T.Text, schema: T.Text, valid: bool) returns (r: T.Result<()>)
      modifies this`requests, this`nextId, this`activeId
      ensures Did(r, T.Create(old(Value()), caller, fee, scorer, schema, valid), old(Value()), Value())
    {
      hide T.TryActivate;
      if fee == 0 {
        return T.Err(T.NoAttachment);
      }
      if !valid {
        return T.Err(T.InvalidRequest);
      }
      var id := nextId;
      nextId := id + 1;
      requests := requests[id := T.NewRequest(caller, scorer, schema, fee, height)];
      TryActivateNext();
      r := T.Ok(());
    }

    method Commit(caller: Address, id: nat, hash: T.Text) returns (r: T.Result<()>)
      modifies this`requests
      ensures Did(r, T.Commit(old(Value()), caller, id, hash), old(Value()), Value())
    {
      if caller !in providers {
        return T.Err(T.NotRegistered);
      }
      if !providers[caller].standing.Bonded? {
        return T.Err(T.NotActiveProvider);
      }
      if id !in requests {
        return T.Err(T.NotFound);
      }
      var q := requests[id];
      hide T.Transition;
      if !q.status.Active? {
        return T.Err(T.WrongStatus);
      }
      if clock >= q.commitDeadline {
        return T.Err(T.DeadlinePassed);
      }
      if caller in q.entries {
        return T.Err(T.AlreadyCommitted);
      }
      if |hash| < T.HASH_LENGTH {
        return T.Err(T.ShortHash);
      }
      q := q.(entries := q.entries[caller := T.Entry(hash, None)]);
      requests := requests[id := q];
      TransitionToRevealing(id);
      r := T.Ok(());
    }

    /** Opens the reveal phase early or late; reads the provider table and the stored entries. */
    method TransitionToRevealing(id: nat)
      requires id in requests
      modifies this`requests
      ensures requests == old(requests)[id := T.Transition(old(Value()), old(requests)[id])]
    {
      var q := requests[id];
      if q.status.Active? {
        var allCommitted := T.AllCommitted(Value(), q);
        hide T.AllCommitted;
        if clock >= q.commitDeadline || allCommitted {
          q := q.(status := T.Revealing, revealDeadline := clock + T.REVEAL_TIMEOUT);
          requests := requests[id := q];
        }
      }
    }

    method Reveal(caller: Address, id: nat, response: T.Text, salt: T.Text) returns (r: T.Result<()>)
      modifies this
      ensures Did(r, T.Reveal(env, old(Value()), caller, id, response, salt), old(Value()), Value())
    {
      ghost var before := Value();
      var saved := Value();
      if id !in requests {
        return T.Err(T.NotFound);
      }
      TransitionToRevealing(id);
      var q := requests[id];
      hide T.Transition;
      assert q == T.Transition(before, before.requests[id]);
      var e := T.NoCommit;
      if !q.status.Active? && !q.status.Revealing? {
        e := T.WrongStatus;
      } else if clock < q.commitDeadline && !q.status.Revealing? {
        e := T.TooEarly;
      } else if clock >= q.revealDeadline {
        e := T.DeadlinePassed;
      } else if caller !in q.entries {
        e := T.NoCommit;
      } else if q.entries[caller].response.Some? {
        e := T.AlreadyRevealed;
      } else if env.hash(id, response, salt, caller) != q.entries[caller].commitHash {
        e := T.HashMismatch;
      } else if !env.matches(response, q.schema) {
        e := T.SchemaMismatch;
      } else {
        var entry := q.entries[caller].(response := Some(response));
        requests := requests[id := q.(entries := q.entries[caller := entry])];
        return T.Ok(());
      }
      Revert(saved);
      r := T.Err(e);
    }

    // ---- finalizing ----

    /** The reveals still to score, in storage order. */
    static method PendingReveals(listed: seq<Address>, processed: seq<Address>) returns (pending: seq<Address>)
      ensures pending == T.Unprocessed(listed, processed)
    {
      pending := [];
      assert listed[0..] == listed && [] + T.Unprocessed(listed, processed) == T.Unprocessed(listed, processed);
      hide T.Unprocessed;
      for i := 0 to |listed|
        invariant T.Unprocessed(listed, processed) == pending + T.Unprocessed(listed[i..], processed)
      {
        NextUnprocessed(listed, processed, pending, i);
        if listed[i] !in processed {
          pending := pending + [listed[i]];
        }
      }
      NoneUnprocessed(processed);
      assert listed[|listed|..] == [] && pending + [] == pending;
    }

    static lemma NextUnprocessed(listed: seq<Address>, processed: seq<Address>, pending: seq<Address>, i: nat)
      requires i < |listed|
      ensures pending + T.Unprocessed(listed[i..], processed)
           == (if listed[i] in processed then pending else pending + [listed[i]]) + T.Unprocessed(listed[i + 1..], processed)
    {
      assert listed[i..][0] == listed[i] && listed[i..][1..] == listed[i + 1..];
      var rest := T.Unprocessed(listed[i + 1..], processed);
      assert T.Unprocessed(listed[i..], processed) == (if listed[i] in processed then [] else [listed[i]]) + rest;
      hide T.Unprocessed;
      assert [] + rest == rest && pending + ([listed[i]] + rest) == pending + [listed[i]] + rest;
    }

    static lemma NoneUnprocessed(processed: seq<Address>)
      ensures T.Unprocessed([], processed) == []
    {
    }

    /** Scores pending reveals while the gas budget lasts. */
    method RunScorer(q: T.Request, budget: nat) returns (p: T.Progress)
      ensures p == T.Progressed(env, q, budget)
    {
      var listed := T.InKeyOrder(T.Revealed(q));
      var pending := PendingReveals(listed, q.processed);
      ghost var all := pending;
      hide T.InKeyOrder, T.Revealed, T.Unprocessed;
      var processed, state, left := q.processed, q.scorerState, budget;
      while pending != [] && left > 0
        invariant T.Score(env, q.scorer, q.entries, all, q.processed, q.scorerState, budget)
               == T.Score(env, q.scorer, q.entries, pending, processed, state, left)
        decreases |pending|
      {
        var a := pending[0];
        pending := pending[1..];
        var next := env.step(q.scorer, a, T.ResponseOf(q.entries, a), state);
        if next.None? {
          return T.Progress(processed, state, pending, true);
        }
        state := next.value;
        processed := processed + [a];
        left := left - 1;
      }
      p := T.Progress(processed, state, pending, false);
    }

    /** Refunds the fee and deactivates the request as failed. */
    method FailRequest(id: nat, q: T.Request) returns (r: T.Result<()>)
      modifies this
      ensures Did(r, T.Fail(old(Value()), id, q), old(Value()), Value())
    {
      var saved := Value();
      hide T.Refund, T.Deactivate;
      var refunded := RefundEscrow(q);
      if !refunded {
        return T.Err(T.SendFailed);
      }
      requests := requests[id := q.(result := None)];
      ghost var written := Value();
      var ended := DeactivateRequest(id, T.Failed);
      DeactivateError(written, id, T.Failed);
      if !ended {
        Revert(saved);
        return T.Err(T.NotTheActiveRequest);
      }
      r := T.Ok(());
    }

    /** Reads the scorer's verdict, pays, slashes and deactivates. */
    method SettleRequest(id: nat, q: T.Request) returns (r: T.Result<()>)
      modifies this
      ensures Did(r, T.Settle(env, old(Value()), id, q), old(Value()), Value())
    {
      var saved := Value();
      var read := T.ReadVerdict(env, q.scorerState);
      hide T.ReadVerdict, T.Payable, T.PayFees, T.SlashScored, T.SlashEach, T.Silent, T.Deactivate, T.Fail;
      if read.None? {
        return T.Err(T.ScorerUnreadable);
      }
      var v := read.value;
      if v.result.None? {
        r := FailRequest(id, q.(scores := v.scores));
        return;
      }
      var accepted := CheckPayees(q.fee, v.scores);
      if !accepted {
        return T.Err(T.PayeeRefused);
      }
      var paid := DistributeFees(q.fee, v.scores);
      if !paid {
        Revert(saved);
        return T.Err(T.SendFailed);
      }
      SlashByScore(v.scores);
      SlashSilent(T.Silent(q));
      requests := requests[id := q.(result := v.result, scores := v.scores)];
      ghost var written := Value();
      var ended := DeactivateRequest(id, T.Resolved);
      DeactivateError(written, id, T.Resolved);
      if !ended {
        Revert(saved);
        return T.Err(T.NotTheActiveRequest);
      }
      r := T.Ok(());
    }

    method Finalize(id: nat, budget: nat) returns (r: T.Result<()>)
      modifies this
      ensures Did(r, T.Finalize(env, old(Value()), id, budget), old(Value()), Value())
    {
      if id !in requests {
        return T.Err(T.NotFound);
      }
      var q := requests[id];
      if q.status.Resolved? || q.status.Failed? {
        return T.Ok(());
      }
      if q.status.Pending? {
        return T.Err(T.WrongStatus);
      }
      if clock < q.revealDeadline && !T.AllRevealed(q) {
        return T.Err(T.TooEarly);
      }
      var p := RunScorer(q, budget);
      hide T.AllRevealed, T.Progressed, T.Fail, T.Settle;
      if p.raised {
        r := FailRequest(id, T.Saved(q, p));
      } else if p.rest != [] {
        requests := requests[id := T.Saved(q, p)];
        r := T.Ok(());
      } else {
        r := SettleRequest(id, T.Saved(q, p));
      }
    }

    method SetMinBond(caller: Address, value: nat) returns (r: T.Result<()>)
      modifies this`minBond
      ensures r.Ok? <==> caller == T.SCRIPT
      ensures Value() == if caller == T.SCRIPT then old(Value()).(minBond := value) else old(Value())
    {
      if caller != T.SCRIPT {
        return T.Err(T.Unauthorized);
      }
      minBond := value;
      r := T.Ok(());
    }
  }

  /** The outcome r of a call is the one specified: the new state, or an error and no change. */
  predicate Did(r: T.Result<()>, spec: T.Result<T.State>, before: T.State, after: T.State) {
    match spec
    case Ok(s) => r == T.Ok(()) && after == s
    case Err(e) => r == T.Err(e) && after == before
  }

  lemma DeactivateError(s: T.State, id: nat, status: T.Status)
    ensures T.Deactivate(s, id, status).Err? ==> T.Deactivate(s, id, status) == T.Err(T.NotTheActiveRequest)
  {
  }
}
