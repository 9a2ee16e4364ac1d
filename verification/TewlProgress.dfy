/** When the oracle's open request comes to its end: finalizing with enough gas ends it unless the scorer's final state cannot
    be read or paid out, and then nothing ever ends it. */
module TewlProgress {
  import opened Options
  import opened Bank
  import opened Tewl
  import opened TewlQueue
  import opened TewlEscrow
  import opened TewlScoring
  import opened TewlBonds

  /** From a chain without providers and requests, over every run in which nobody else spends the script's coins, all of the
      oracle's invariants hold together. */
  lemma AlwaysWell(env: Env, bank: Ledger, clock: nat, height: nat, txs: seq<Tx>)
    requires forall i :: 0 <= i < |txs| ==> Allowed(txs[i])
    ensures
      var s := Run(env, Start(bank, clock, height), txs);
      && Scheduled(s) && AllGood(env, s)
      && Balance(s.bank, SCRIPT, UDYS) >= Bonds(s.providers) + Fees(s.requests)
      && ((forall i :: 0 <= i < |txs| ==> KeepsMinimum(txs[i])) ==> BondsSound(s))
  {
    var start := Start(bank, clock, height);
    StartsWell(env, bank, clock, height);
    assert Escrowed(start) && BondsSound(start) && start.minBond > 0;
    hide Run, Start, AllGood, Scheduled, Bonds, Fees, Balance;
    RunGood(env, start, txs);
    EscrowForever(env, start, txs);
    if forall i :: 0 <= i < |txs| ==> KeepsMinimum(txs[i]) {
      BondsForever(env, start, txs);
    }
  }

  /** A call that may score every reveal ends the request, except exactly when the fold over the reveals succeeds with a state
      that cannot be read, or that resolves the request with a share for an address the bank refuses. */
  lemma FinalizeEnds(env: Env, s: State, id: nat, budget: nat)
    requires Scheduled(s) && Escrowed(s) && AllGood(env, s) && id in s.requests && Open(s.requests[id])
    requires s.clock >= s.requests[id].revealDeadline || AllRevealed(s.requests[id])
    requires budget >= |Reveals(s.requests[id])|
    ensures
      var shot := OneShot(env, s.requests[id]);
      Finalize(env, s, id, budget).Ok? <==> shot.None? || Settles(env, s.requests[id].fee, shot.value)
    ensures Finalize(env, s, id, budget).Ok? ==>
      id in Finalize(env, s, id, budget).value.requests && !Open(Finalize(env, s, id, budget).value.requests[id])
    ensures Finalize(env, s, id, budget).Err? ==>
      Finalize(env, s, id, budget).error == ScorerUnreadable || Finalize(env, s, id, budget).error == PayeeRefused
  {
    var r := s.requests[id];
    assert Good(env, s.clock, id, r);
    hide Progressed, Saved, Good, AllGood, Scheduled, Escrowed, OneShot, Reveals, Fold, AllRevealed, Fail, Settle, Settles, Frozen;
    ScoresAll(env, s.clock, id, r, budget);
    SavedGood(env, s.clock, id, r, budget);
    var p := Progressed(env, r, budget);
    var r' := Saved(r, p);
    SavedKeeps(r, p);
    if p.raised {
      FailRefunds(s, id, r');
      FinishedStays(s, id, r');
    } else {
      SettleEscrowed(env, s, id, r');
      if Settle(env, s, id, r').Ok? {
        SettledStays(env, s, id, r');
      }
    }
  }

  /** With a budget for every reveal nothing is left to score. */
  lemma ScoresAll(env: Env, clock: nat, id: nat, r: Request, budget: nat)
    requires Good(env, clock, id, r) && budget >= |Reveals(r)|
    ensures Progressed(env, r, budget).raised || Progressed(env, r, budget).rest == []
  {
    UnprocessedRest(Revealed(r), r.processed);
    var rest := Unprocessed(Reveals(r), r.processed);
    ScoreFolds(env, r.scorer, r.entries, rest, r.processed, r.scorerState, budget);
    hide Score, Unprocessed, InKeyOrder;
  }

  /** Once its reveal phase is closed, by the deadline or because all have revealed, a request whose scored state does not settle
      stays open and active over every run: no other request is ever activated. */
  lemma UnsettledBlocks(env: Env, s: State, txs: seq<Tx>, id: nat)
    requires Scheduled(s) && AllGood(env, s) && id in s.requests && s.requests[id].status.Revealing?
    requires s.clock >= s.requests[id].revealDeadline || AllRevealed(s.requests[id])
    requires OneShot(env, s.requests[id]).Some? && !Settles(env, s.requests[id].fee, OneShot(env, s.requests[id]).value)
    ensures id in Run(env, s, txs).requests && Run(env, s, txs).requests[id].status.Revealing?
    ensures Run(env, s, txs).activeId == Some(id)
  {
    RunGood(env, s, txs);
    var s' := Run(env, s, txs);
    hide Run, Good, Evolves, OneShot, Settles, AllRevealed;
    var r, r' := s.requests[id], s'.requests[id];
    assert Evolves(s.clock, r, r') && Good(env, s'.clock, id, r');
    StaysUnsettled(env, s.clock, s'.clock, id, r, r');
  }

  lemma StaysUnsettled(env: Env, clock: nat, clock': nat, id: nat, r: Request, r': Request)
    requires r.status.Revealing? && (clock >= r.revealDeadline || AllRevealed(r))
    requires OneShot(env, r).Some? && !Settles(env, r.fee, OneShot(env, r).value)
    requires Evolves(clock, r, r') && Good(env, clock', id, r')
    ensures r'.status.Revealing?
  {
    assert Frozen(clock, r);
    hide AllRevealed;
    assert Revealed(r') == Revealed(r);
    assert OneShot(env, r') == OneShot(env, r);
    hide OneShot, Fold, BoundTo, Payable;
    assert !EndedAsOneShot(env, r');
  }

  /** The deadline never stops the first reveal: after the commit deadline it opens the reveal phase anew, however late it comes,
      and is accepted exactly when it matches the commitment and the schema. */
  lemma FirstRevealNeverLate(env: Env, s: State, caller: Address, id: nat, response: Text, salt: Text)
    requires AllGood(env, s) && id in s.requests
    requires var r := s.requests[id]; r.status.Active? && s.clock >= r.commitDeadline && caller in r.entries
    ensures Reveal(env, s, caller, id, response, salt).Ok? <==>
      && env.hash(id, response, salt, caller) == s.requests[id].entries[caller].commitHash
      && env.matches(response, s.requests[id].schema)
    ensures Reveal(env, s, caller, id, response, salt).Ok? ==>
      && id in Reveal(env, s, caller, id, response, salt).value.requests
      && Reveal(env, s, caller, id, response, salt).value.requests[id].revealDeadline == s.clock + REVEAL_TIMEOUT
  {
    var r := s.requests[id];
    assert Good(env, s.clock, id, r);
    assert caller !in Revealed(r);
    hide AllCommitted, AllGood, Reveals, Fold, BoundTo, EndedAsOneShot;
  }
}
