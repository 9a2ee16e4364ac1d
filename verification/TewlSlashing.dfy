/** Who loses what when the oracle's open request is settled: one slash for a score of zero or less and one for a commitment
    that was never revealed, on resolved requests only. */
module TewlSlashing {
  import opened Options
  import opened Bank
  import opened KeyOrder
  import opened Tewl
  import opened TewlQueue
  import opened TewlEscrow
  import opened TewlScoring
  import opened TewlBonds
  import Keys

  // ---- strikes ----

  /** How many scores of zero or less a provider was given. */
  function LowScores(scores: Scores, a: Address): nat
    decreases |scores|
  {
    if scores == [] then 0 else (if scores[0].0 == a && scores[0].1 <= 0 then 1 else 0) + LowScores(scores[1..], a)
  }

  /** The provider committed and did not reveal. */
  predicate IsSilent(r: Request, a: Address) {
    a in r.entries && r.entries[a].response.None?
  }

  function Strikes(r: Request, scores: Scores, a: Address): nat {
    LowScores(scores, a) + if IsSilent(r, a) then 1 else 0
  }

  /** A provider after k slashes: each takes the slash amount as far as the bond goes, and who lost something and is left with
      less than the minimum is in jail. */
  function Struck(p: Provider, k: nat, minBond: nat): Provider {
    var loss := k * SlashAmount(minBond);
    var left := if loss < p.bond then p.bond - loss else 0;
    Provider(left, if left < p.bond && left < minBond then Jailed else p.standing)
  }

  lemma StruckAgain(p: Provider, j: nat, k: nat, minBond: nat)
    ensures Struck(Struck(p, j, minBond), k, minBond) == Struck(p, j + k, minBond)
  {
    Distribute3(SlashAmount(minBond), j, k);
    Commutes(j, SlashAmount(minBond));
    Commutes(k, SlashAmount(minBond));
    Commutes(j + k, SlashAmount(minBond));
    hide SlashAmount;
  }

  lemma Commutes(x: int, y: int)
    ensures x * y == y * x
  {
  }

  lemma SlashStrikes(ps: Providers, o: Address, minBond: nat, a: Address)
    requires a in ps
    ensures a in Slash(ps, o, SlashAmount(minBond), minBond)
    ensures Slash(ps, o, SlashAmount(minBond), minBond)[a] == Struck(ps[a], if a == o then 1 else 0, minBond)
  {
  }

  lemma {:induction false} SlashScoredStrikes(ps: Providers, scores: Scores, minBond: nat, a: Address)
    requires a in ps
    ensures a in SlashScored(ps, scores, minBond)
    ensures SlashScored(ps, scores, minBond)[a] == Struck(ps[a], LowScores(scores, a), minBond)
    decreases |scores|
  {
    if scores != [] {
      SlashStrikes(ps, scores[0].0, minBond, a);
      var hit := scores[0].1 <= 0;
      var next := if hit then Slash(ps, scores[0].0, SlashAmount(minBond), minBond) else ps;
      SlashScoredStrikes(next, scores[1..], minBond, a);
      StruckAgain(ps[a], if hit && scores[0].0 == a then 1 else 0, LowScores(scores[1..], a), minBond);
      StruckNever(ps[a], minBond);
      hide Slash, Struck;
    } else {
      StruckNever(ps[a], minBond);
    }
  }

  lemma StruckNever(p: Provider, minBond: nat)
    ensures Struck(p, 0, minBond) == p
  {
  }

  function Occurrences(addresses: seq<Address>, a: Address): nat
    decreases |addresses|
  {
    if addresses == [] then 0 else (if addresses[0] == a then 1 else 0) + Occurrences(addresses[1..], a)
  }

  lemma {:induction false} SlashEachStrikes(ps: Providers, addresses: seq<Address>, minBond: nat, a: Address)
    requires a in ps
    ensures a in SlashEach(ps, addresses, minBond)
    ensures SlashEach(ps, addresses, minBond)[a] == Struck(ps[a], Occurrences(addresses, a), minBond)
    decreases |addresses|
  {
    if addresses != [] {
      SlashStrikes(ps, addresses[0], minBond, a);
      SlashEachStrikes(Slash(ps, addresses[0], SlashAmount(minBond), minBond), addresses[1..], minBond, a);
      StruckAgain(ps[a], if addresses[0] == a then 1 else 0, Occurrences(addresses[1..], a), minBond);
      hide Slash, Struck;
    } else {
      StruckNever(ps[a], minBond);
    }
  }

  lemma {:induction false} OccursOnce(addresses: seq<Address>, a: Address)
    requires forall i, j :: 0 <= i < j < |addresses| ==> addresses[i] != addresses[j]
    ensures Occurrences(addresses, a) == if a in addresses then 1 else 0
    decreases |addresses|
  {
    if addresses != [] {
      OccursOnce(addresses[1..], a);
    }
  }

  /** Each silent provider is slashed once for it. */
  lemma SilentOnce(r: Request, a: Address)
    ensures Occurrences(Silent(r), a) == if IsSilent(r, a) then 1 else 0
  {
    KeysAreOrdered();
    ListingMembers(r.entries.Keys - Revealed(r), Keys.Less);
    ListingDistinct(r.entries.Keys - Revealed(r), Keys.Less);
    OccursOnce(Silent(r), a);
  }

  /** The slashes of a settlement, provider by provider. */
  lemma SettlementStrikes(ps: Providers, r: Request, scores: Scores, minBond: nat, a: Address)
    requires a in ps
    ensures
      var slashed := SlashEach(SlashScored(ps, scores, minBond), Silent(r), minBond);
      a in slashed && slashed[a] == Struck(ps[a], Strikes(r, scores, a), minBond)
  {
    SlashScoredStrikes(ps, scores, minBond, a);
    SlashEachStrikes(SlashScored(ps, scores, minBond), Silent(r), minBond, a);
    SilentOnce(r, a);
    StruckAgain(ps[a], LowScores(scores, a), Occurrences(Silent(r), a), minBond);
    hide SlashEach, SlashScored, Silent, Struck, LowScores, Occurrences;
  }

  // ---- what finalizing does to the providers ----

  /** A request given its final status keeps it and everything else while the next one is activated. */
  lemma DeactivateRecord(s: State, id: nat, status: Status)
    requires (status.Resolved? || status.Failed?) && Deactivate(s, id, status).Ok?
    ensures
      var s' := Deactivate(s, id, status).value;
      && id in s.requests && id in s'.requests && s'.requests[id] == s.requests[id].(status := status)
      && s'.providers == s.providers
  {
    var next := TryActivateChanges(s.(requests := s.requests[id := s.requests[id].(status := status)], activeId := None));
    hide TryActivate;
  }

  predicate SameReveals(r: Request, o: Request) {
    r.scorer == o.scorer && r.entries == o.entries
  }

  lemma FailRecord(s: State, id: nat, r: Request)
    requires Fail(s, id, r).Ok?
    ensures
      var s' := Fail(s, id, r).value;
      && id in s'.requests && s'.requests[id].status.Failed? && s'.providers == s.providers
      && SameReveals(s'.requests[id], r)
  {
    hide Deactivate, Refund;
    DeactivateRecord(s.(bank := Refund(s.bank, r).value, requests := s.requests[id := r.(result := None)]), id, Failed);
  }

  lemma SettleRecord(env: Env, s: State, id: nat, r: Request)
    requires Settle(env, s, id, r).Ok?
    ensures
      var s' := Settle(env, s, id, r).value;
      var v := ReadVerdict(env, r.scorerState);
      && v.Some? && id in s'.requests && SameReveals(s'.requests[id], r)
      && (v.value.result.None? ==> s'.requests[id].status.Failed? && s'.providers == s.providers)
      && (v.value.result.Some? ==>
            && s'.requests[id].status.Resolved? && s'.requests[id].scores == v.value.scores
            && s'.providers == SlashEach(SlashScored(s.providers, v.value.scores, s.minBond), Silent(r), s.minBond))
  {
    var v := ReadVerdict(env, r.scorerState).value;
    hide ReadVerdict, Payable, PayFees, SlashEach, SlashScored, Silent, Deactivate, Fail;
    if v.result.None? {
      FailRecord(s, id, r.(scores := v.scores));
    } else {
      DeactivateRecord(s.(bank := PayFees(s.bank, r.fee, v.scores).value,
                          providers := SlashEach(SlashScored(s.providers, v.scores, s.minBond), Silent(r), s.minBond),
                          requests := s.requests[id := r.(result := v.result, scores := v.scores)]), id, Resolved);
    }
  }

  lemma SavedSilent(r: Request, p: Progress)
    ensures Silent(Saved(r, p)) == Silent(r)
  {
    assert Revealed(Saved(r, p)) == Revealed(r);
  }

  /** A finalize call slashes exactly when it resolves the request: then every provider takes one strike for a low score and
      one for a silent commitment. A call that fails the request, or leaves it open, touches no provider. */
  lemma FinalizeSlashes(env: Env, s: State, id: nat, budget: nat)
    requires id in s.requests && Open(s.requests[id]) && Finalize(env, s, id, budget).Ok?
    ensures
      var s' := Finalize(env, s, id, budget).value;
      && id in s'.requests && SameReveals(s'.requests[id], s.requests[id]) && !s'.requests[id].status.Pending?
      && (!s'.requests[id].status.Resolved? ==> s'.providers == s.providers)
      && (s'.requests[id].status.Resolved? ==>
            && s'.providers.Keys == s.providers.Keys
            && forall a :: a in s.providers ==>
                 s'.providers[a] == Struck(s.providers[a], Strikes(s.requests[id], s'.requests[id].scores, a), s.minBond))
  {
    var r := s.requests[id];
    var p := Progressed(env, r, budget);
    var r' := Saved(r, p);
    SavedKeeps(r, p);
    SavedSilent(r, p);
    assert SameReveals(r', r);
    hide Progressed, Saved, Fail, Settle, AllRevealed, Silent, SlashEach, SlashScored, Struck, Strikes, ReadVerdict;
    if p.raised {
      FailRecord(s, id, r');
    } else if p.rest == [] {
      SettleRecord(env, s, id, r');
      var v := ReadVerdict(env, r'.scorerState).value;
      if v.result.Some? {
        SlashScoredLowers(s.providers, v.scores, s.minBond);
        SlashEachLowers(SlashScored(s.providers, v.scores, s.minBond), Silent(r), s.minBond);
        forall a | a in s.providers
          ensures Finalize(env, s, id, budget).value.providers[a]
               == Struck(s.providers[a], Strikes(r, v.scores, a), s.minBond)
        {
          SettlementStrikes(s.providers, r, v.scores, s.minBond, a);
        }
      }
    }
  }

  /** Which of the two it is follows from the reveals alone: a call that ends the request slashes nobody when the scorer fails
      on them or gives no result, in particular when nobody revealed. */
  lemma SlashesWhenResolved(env: Env, s: State, id: nat, budget: nat)
    requires AllGood(env, s) && id in s.requests && Open(s.requests[id]) && Finalize(env, s, id, budget).Ok?
    requires id in Finalize(env, s, id, budget).value.requests && !Open(Finalize(env, s, id, budget).value.requests[id])
    ensures
      var s' := Finalize(env, s, id, budget).value;
      var shot := OneShot(env, s.requests[id]);
      var resolves := shot.Some? && ReadVerdict(env, shot.value).Some? && ReadVerdict(env, shot.value).value.result.Some?;
      && (s'.requests[id].status.Resolved? <==> resolves)
      && (!resolves ==> s'.providers == s.providers)
      && (resolves ==> s'.requests[id].scores == ReadVerdict(env, shot.value).value.scores)
    ensures Revealed(s.requests[id]) == {} ==> Finalize(env, s, id, budget).value.providers == s.providers
  {
    FinalizeSlashes(env, s, id, budget);
    FinalizeGood(env, s, id, budget);
    var s' := Finalize(env, s, id, budget).value;
    var r, r' := s.requests[id], s'.requests[id];
    NoReveals(r);
    hide Finalize, Struck, Strikes;
    assert Good(env, s'.clock, id, r');
    assert Revealed(r') == Revealed(r);
    hide AllGood, BoundTo, Fold, InKeyOrder, AllRevealed, Payable;
    assert OneShot(env, r') == OneShot(env, r);
  }

  /** A request nobody revealed for can be finalized while it is still in its commit phase, once its reveal deadline has passed:
      it fails, the fee goes back, and nobody who committed is slashed. */
  lemma SilentRoundSlashesNobody(env: Env, s: State, id: nat, budget: nat)
    requires Scheduled(s) && Escrowed(s) && AllGood(env, s) && id in s.requests
    requires s.requests[id].status.Active? && s.clock >= s.requests[id].revealDeadline
    ensures Finalize(env, s, id, budget).Ok?
    ensures
      var s' := Finalize(env, s, id, budget).value;
      && id in s'.requests && s'.requests[id].status.Failed?
      && s'.providers == s.providers
      && (forall a :: a in s.requests[id].entries ==> IsSilent(s.requests[id], a))
      && Surplus(s') == Surplus(s)
  {
    var r := s.requests[id];
    assert Good(env, s.clock, id, r);
    NoReveals(r);
    assert forall a :: a in r.entries ==> a !in Revealed(r);
    NothingToScore(env, s.clock, id, r, budget);
    var p := Progressed(env, r, budget);
    var r' := Saved(r, p);
    SavedKeeps(r, p);
    SettlesUnscored(env, s, id, r');
    hide Progressed, Saved, Good, AllGood, Scheduled, Escrowed, Surplus, AllRevealed, Fail, Settle, Reveals, Revealed;
    assert Finalize(env, s, id, budget) == Fail(s, id, r'.(scores := []));
    hide Finalize;
    FailRefunds(s, id, r'.(scores := []));
    FailRecord(s, id, r'.(scores := []));
  }

  lemma SettlesUnscored(env: Env, s: State, id: nat, r: Request)
    requires r.scorerState.None?
    ensures Settle(env, s, id, r) == Fail(s, id, r.(scores := []))
  {
    hide Fail;
  }

  lemma NothingToScore(env: Env, clock: nat, id: nat, r: Request, budget: nat)
    requires Good(env, clock, id, r) && Reveals(r) == []
    ensures Progressed(env, r, budget) == Progress([], None, [], false)
  {
  }

  // ---- committers ----

  lemma {:induction false} LowOnce(scores: Scores, a: Address)
    requires DistinctScores(scores)
    ensures LowScores(scores, a) == if exists i :: 0 <= i < |scores| && scores[i].0 == a && scores[i].1 <= 0 then 1 else 0
    decreases |scores|
  {
    if scores != [] {
      var rest := scores[1..];
      LowOnce(rest, a);
      if i :| 0 <= i < |rest| && rest[i].0 == a && rest[i].1 <= 0 {
        assert scores[i + 1] == rest[i];
      }
      if i :| 0 <= i < |scores| && scores[i].0 == a && scores[i].1 <= 0 {
        assert i > 0 ==> rest[i - 1] == scores[i];
      }
    }
  }

  /** Each slash of a provider that committed to the request takes the full amount, the first and, for one who also was scored
      zero or less, the second: and it is in jail exactly when less than the minimum is left. A silent provider whose score is
      not low loses exactly one slash amount. */
  lemma FirstSlashInFull(env: Env, s: State, id: nat, budget: nat, a: Address)
    requires ValidEnv(env) && AllGood(env, s) && BondsSound(s)
    requires id in s.requests && Open(s.requests[id]) && a in s.requests[id].entries
    requires Finalize(env, s, id, budget).Ok?
    requires id in Finalize(env, s, id, budget).value.requests && Finalize(env, s, id, budget).value.requests[id].status.Resolved?
    ensures
      var s' := Finalize(env, s, id, budget).value;
      var strikes := Strikes(s.requests[id], s'.requests[id].scores, a);
      && a in s.providers && s.providers[a].bond >= s.minBond && a in s'.providers
      && strikes <= 2
      && s'.providers[a].bond == s.providers[a].bond - strikes * SlashAmount(s.minBond)
      && (s'.providers[a].standing.Jailed? <==> s'.providers[a].bond < s.minBond)
    ensures
      var s' := Finalize(env, s, id, budget).value;
      IsSilent(s.requests[id], a)
      && (forall i :: 0 <= i < |s'.requests[id].scores| && s'.requests[id].scores[i].0 == a ==> s'.requests[id].scores[i].1 > 0)
      ==> s'.providers[a].bond == s.providers[a].bond - SlashAmount(s.minBond)
  {
    hide Finalize, AllGood, BondsSound, OneShot, Struck, LowScores, SlashAmount, ReadVerdict, DistinctScores, ValidEnv;
    var s' := Finalize(env, s, id, budget).value;
    var r, scores := s.requests[id], s'.requests[id].scores;
    FinalizeSlashes(env, s, id, budget);
    SlashesWhenResolved(env, s, id, budget);
    CommitterHolds(s, id, a);
    ScoresDistinct(env, OneShot(env, r).value);
    LowOnce(scores, a);
    FullStrikes(s.providers[a], Strikes(r, scores, a), s.minBond);
    if IsSilent(r, a) && forall i :: 0 <= i < |scores| && scores[i].0 == a ==> scores[i].1 > 0 {
      assert Strikes(r, scores, a) == 1;
    }
  }

  lemma CommitterHolds(s: State, id: nat, a: Address)
    requires BondsSound(s) && id in s.requests && Open(s.requests[id]) && a in s.requests[id].entries
    ensures a in s.providers && s.providers[a].standing.Bonded? && s.providers[a].bond >= s.minBond
  {
  }

  lemma ScoresDistinct(env: Env, state: ScorerState)
    requires ValidEnv(env) && ReadVerdict(env, state).Some?
    ensures DistinctScores(ReadVerdict(env, state).value.scores)
  {
  }

  lemma FullStrikes(p: Provider, k: nat, minBond: nat)
    requires p.standing.Bonded? && p.bond >= minBond && k <= 2
    ensures Struck(p, k, minBond).bond == p.bond - k * SlashAmount(minBond)
    ensures Struck(p, k, minBond).standing.Jailed? <==> Struck(p, k, minBond).bond < minBond
  {
    if k == 1 {
      assert k * SlashAmount(minBond) == SlashAmount(minBond);
    } else if k == 2 {
      assert k * SlashAmount(minBond) == 2 * SlashAmount(minBond);
    }
  }
}
