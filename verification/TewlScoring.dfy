/** Committing, revealing and scoring: commits come before reveals and bind them, and however finalization is cut into calls
    it scores each reveal once and ends as one fold over all of them would. */
module TewlScoring {
  import opened Options
  import opened Bank
  import opened KeyOrder
  import opened Tewl
  import opened TewlQueue
  import Keys

  // ---- one fold ----

  /** The scorer run over the given reveals in order; None when a step raises. */
  function Fold(env: Env, scorer: Text, entries: Entries, listed: seq<Address>, state: ScorerState): Option<ScorerState>
    decreases |listed|
  {
    if listed == [] then Some(state)
    else
      match env.step(scorer, listed[0], ResponseOf(entries, listed[0]), state)
      case None => None
      case Some(next) => Fold(env, scorer, entries, listed[1..], next)
  }

  function Reveals(r: Request): seq<Address> {
    InKeyOrder(Revealed(r))
  }

  /** All reveals of a request, scored at once. */
  function OneShot(env: Env, r: Request): Option<ScorerState> {
    Fold(env, r.scorer, r.entries, Reveals(r), None)
  }

  lemma {:induction false} FoldConcat(env: Env, scorer: Text, entries: Entries, x: seq<Address>, y: seq<Address>, st: ScorerState)
    ensures Fold(env, scorer, entries, x + y, st)
         == (match Fold(env, scorer, entries, x, st) case None => None case Some(next) => Fold(env, scorer, entries, y, next))
    decreases |x|
  {
    if x == [] {
      assert x + y == y;
    } else {
      assert (x + y)[1..] == x[1..] + y;
      var next := env.step(scorer, x[0], ResponseOf(entries, x[0]), st);
      if next.Some? {
        FoldConcat(env, scorer, entries, x[1..], y, next.value);
      }
    }
  }

  /** One call scores a prefix of what is left, as the fold does; it stops short only when the scorer raises or the budget is
      used up. */
  lemma {:induction false} ScoreFolds(env: Env, scorer: Text, entries: Entries, rest: seq<Address>, processed: seq<Address>,
                                      st: ScorerState, budget: nat)
    ensures
      var p := Score(env, scorer, entries, rest, processed, st, budget);
      && (p.raised ==> Fold(env, scorer, entries, rest, st) == None)
      && (!p.raised ==>
            && p.processed + p.rest == processed + rest
            && |p.rest| == (if budget <= |rest| then |rest| - budget else 0)
            && Fold(env, scorer, entries, rest, st) == Fold(env, scorer, entries, p.rest, p.state))
    decreases |rest|
  {
    if rest != [] && budget > 0 {
      var next := env.step(scorer, rest[0], ResponseOf(entries, rest[0]), st);
      if next.Some? {
        ScoreFolds(env, scorer, entries, rest[1..], processed + [rest[0]], next.value, budget - 1);
        assert processed + [rest[0]] + rest[1..] == processed + rest;
      }
    }
  }

  /** The scored reveals are a prefix of the rest, and the state is the fold over them. */
  lemma {:induction false} ScorePrefix(env: Env, scorer: Text, entries: Entries, rest: seq<Address>, processed: seq<Address>,
                                       st: ScorerState, budget: nat)
    requires Fold(env, scorer, entries, processed, None) == Some(st)
    ensures
      var p := Score(env, scorer, entries, rest, processed, st, budget);
      p.processed <= processed + rest && Fold(env, scorer, entries, p.processed, None) == Some(p.state)
    decreases |rest|
  {
    if rest != [] && budget > 0 {
      var next := env.step(scorer, rest[0], ResponseOf(entries, rest[0]), st);
      if next.Some? {
        FoldConcat(env, scorer, entries, processed, [rest[0]], None);
        assert [rest[0]][1..] == [];
        ScorePrefix(env, scorer, entries, rest[1..], processed + [rest[0]], next.value, budget - 1);
        assert processed + [rest[0]] + rest[1..] == processed + rest;
      }
    }
  }

  /** Two calls score what one call with both budgets scores. */
  lemma {:induction false} ScoreTwice(env: Env, scorer: Text, entries: Entries, rest: seq<Address>, processed: seq<Address>,
                                      st: ScorerState, b1: nat, b2: nat)
    ensures
      var p := Score(env, scorer, entries, rest, processed, st, b1);
      p.raised
      || Score(env, scorer, entries, rest, processed, st, b1 + b2) == Score(env, scorer, entries, p.rest, p.processed, p.state, b2)
    decreases |rest|
  {
    if rest != [] && b1 > 0 {
      var next := env.step(scorer, rest[0], ResponseOf(entries, rest[0]), st);
      if next.Some? {
        ScoreTwice(env, scorer, entries, rest[1..], processed + [rest[0]], next.value, b1 - 1, b2);
      }
    }
  }

  // ---- what is left to score ----

  lemma {:induction false} UnprocessedSplit(x: seq<Address>, y: seq<Address>, processed: seq<Address>)
    requires forall a :: a in x ==> a in processed
    requires forall a :: a in y ==> a !in processed
    ensures Unprocessed(x + y, processed) == y
    decreases |x|
  {
    if x != [] {
      assert (x + y)[0] == x[0] && (x + y)[1..] == x[1..] + y;
      UnprocessedSplit(x[1..], y, processed);
    } else {
      assert x + y == y;
      UnprocessedAll(y, processed);
    }
  }

  lemma {:induction false} UnprocessedAll(y: seq<Address>, processed: seq<Address>)
    requires forall a :: a in y ==> a !in processed
    ensures Unprocessed(y, processed) == y
    decreases |y|
  {
    if y != [] {
      UnprocessedAll(y[1..], processed);
    }
  }

  /** When a prefix of the reveals has been processed, what is left is the rest. */
  lemma UnprocessedRest(s: set<Address>, processed: seq<Address>)
    requires processed <= InKeyOrder(s)
    ensures processed + Unprocessed(InKeyOrder(s), processed) == InKeyOrder(s)
  {
    KeysAreOrdered();
    ListingDistinct(s, Keys.Less);
    var listed, k := InKeyOrder(s), |processed|;
    hide InKeyOrder, Keys.Less;
    assert listed == listed[..k] + listed[k..];
    forall a | a in listed[k..] ensures a !in processed {
      var i :| 0 <= i < |listed[k..]| && listed[k..][i] == a;
      assert listed[k + i] == a;
    }
    UnprocessedSplit(listed[..k], listed[k..], processed);
  }

  lemma NoReveals(r: Request)
    ensures Reveals(r) == [] <==> Revealed(r) == {}
  {
  }

  // ---- the invariant of one request ----

  /** No commit and no reveal can be accepted any more. */
  ghost predicate Frozen(clock: nat, r: Request) {
    r.status.Revealing? && (clock >= r.revealDeadline || AllRevealed(r))
  }

  /** Each response hashes, with some salt, to what its provider committed to. */
  ghost predicate BoundTo(env: Env, id: nat, entries: Entries) {
    forall a :: a in entries && entries[a].response.Some? ==>
      exists salt: Text :: env.hash(id, entries[a].response.value, salt, a) == entries[a].commitHash
  }

  /** A finished request ended as scoring all its reveals at once ends. */
  ghost predicate EndedAsOneShot(env: Env, r: Request) {
    match OneShot(env, r)
    case None => r.status.Failed? && r.result.None?
    case Some(st) =>
      var v := ReadVerdict(env, st);
      && v.Some? && r.result == v.value.result && r.scores == v.value.scores
      && (r.result.Some? ==> Payable(env, r.fee, r.scores))
      && r.status == (if v.value.result.None? then Failed else Resolved)
  }

  ghost predicate Good(env: Env, clock: nat, id: nat, r: Request) {
    && BoundTo(env, id, r.entries)
    && (r.status.Pending? ==> r.entries == map[])
    && (r.status.Pending? || r.status.Active? ==> Revealed(r) == {})
    && r.processed <= Reveals(r)
    && Fold(env, r.scorer, r.entries, r.processed, None) == Some(r.scorerState)
    && (Open(r) && r.processed != [] ==> Frozen(clock, r))
    && (r.status.Resolved? || r.status.Failed? ==> EndedAsOneShot(env, r))
  }

  ghost predicate AllGood(env: Env, s: State) {
    forall id :: id in s.requests ==> Good(env, s.clock, id, s.requests[id])
  }

  // ---- how a request evolves ----

  function Rank(status: Status): nat {
    match status
    case Pending => 0
    case Active => 1
    case Revealing => 2
    case Resolved => 3
    case Failed => 3
  }

  /** From a given time on: commitments and responses stay, phases only advance, nobody commits after the commit phase, nobody
      reveals once the reveal phase is closed, and a finished request never changes. */
  ghost predicate Evolves(clock: nat, r: Request, r': Request) {
    && r'.requester == r.requester && r'.scorer == r.scorer && r'.schema == r.schema && r'.fee == r.fee
    && Rank(r.status) <= Rank(r'.status)
    && (forall a :: a in r.entries ==> a in r'.entries && r'.entries[a].commitHash == r.entries[a].commitHash)
    && (forall a :: a in r.entries && r.entries[a].response.Some? ==> r'.entries[a].response == r.entries[a].response)
    && (Rank(r.status) >= 2 ==> r'.entries.Keys == r.entries.Keys && r'.revealDeadline == r.revealDeadline)
    && (Frozen(clock, r) ==> r'.entries == r.entries)
    && (Rank(r.status) == 3 ==> r' == r)
  }

  ghost predicate AllEvolve(s: State, s': State) {
    && s.clock <= s'.clock
    && forall id :: id in s.requests ==> id in s'.requests && Evolves(s.clock, s.requests[id], s'.requests[id])
  }

  lemma EvolvesTransitive(clock: nat, clock': nat, r: Request, r': Request, r'': Request)
    requires clock <= clock' && Evolves(clock, r, r') && Evolves(clock', r', r'')
    ensures Evolves(clock, r, r'')
  {
  }

  // ---- activation ----

  lemma ActivatedGood(env: Env, clock: nat, id: nat, r: Request)
    requires Good(env, clock, id, r) && r.status.Pending?
    ensures Good(env, clock, id, Activated(r, clock)) && Evolves(clock, r, Activated(r, clock))
  {
    var r' := Activated(r, clock);
    assert Revealed(r') == Revealed(r);
    NoReveals(r);
  }

  lemma TryActivateGood(env: Env, s: State)
    requires AllGood(env, s)
    ensures AllGood(env, TryActivate(s)) && AllEvolve(s, TryActivate(s))
  {
    var pending := PendingOrder(s.requests);
    hide Good, Evolves, PendingOrder, Activated;
    forall id | id in s.requests ensures Evolves(s.clock, s.requests[id], s.requests[id]) {
      EvolvesSelf(s.clock, s.requests[id]);
    }
    if s.activeId.None? && pending != [] {
      assert pending[0] in pending;
      ActivatedGood(env, s.clock, pending[0], s.requests[pending[0]]);
    }
  }

  lemma EvolvesSelf(clock: nat, r: Request)
    ensures Evolves(clock, r, r)
  {
  }

  /** Replacing one request by a good one it evolves into. */
  lemma UpdateGood(env: Env, s: State, b: Ledger, ps: Providers, active: Option<nat>, id: nat, r: Request)
    requires AllGood(env, s) && id in s.requests && Good(env, s.clock, id, r) && Evolves(s.clock, s.requests[id], r)
    ensures
      var s' := s.(bank := b, providers := ps, activeId := active, requests := s.requests[id := r]);
      AllGood(env, s') && AllEvolve(s, s')
  {
    hide Good, Evolves;
    forall k | k in s.requests ensures Evolves(s.clock, s.requests[k], s.requests[k]) {
      EvolvesSelf(s.clock, s.requests[k]);
    }
  }

  lemma AllEvolveTransitive(s: State, s': State, s'': State)
    requires AllEvolve(s, s') && AllEvolve(s', s'')
    ensures AllEvolve(s, s'')
  {
    forall id | id in s.requests ensures id in s''.requests && Evolves(s.clock, s.requests[id], s''.requests[id]) {
      EvolvesTransitive(s.clock, s'.clock, s.requests[id], s'.requests[id], s''.requests[id]);
    }
  }

  // ---- finishing ----

  /** A request that reached an end: its final record, written and then activated past. */
  lemma FinishGood(env: Env, s: State, b: Ledger, ps: Providers, id: nat, r: Request, status: Status)
    requires AllGood(env, s) && id in s.requests
    requires Good(env, s.clock, id, r.(status := status)) && Evolves(s.clock, s.requests[id], r.(status := status))
    requires Deactivate(s.(bank := b, providers := ps, requests := s.requests[id := r]), id, status).Ok?
    ensures
      var s' := Deactivate(s.(bank := b, providers := ps, requests := s.requests[id := r]), id, status).value;
      AllGood(env, s') && AllEvolve(s, s')
  {
    var s1 := s.(bank := b, providers := ps, activeId := None, requests := s.requests[id := r.(status := status)]);
    hide AllGood, AllEvolve, Good, Evolves, TryActivate;
    UpdateGood(env, s, b, ps, None, id, r.(status := status));
    TryActivateGood(env, s1);
    assert s.requests[id := r][id := r.(status := status)] == s.requests[id := r.(status := status)];
    AllEvolveTransitive(s, s1, TryActivate(s1));
  }

  /** What scoring leaves behind: the same reveals, a longer prefix, the state of the fold. */
  lemma SavedGood(env: Env, clock: nat, id: nat, r: Request, budget: nat)
    requires Good(env, clock, id, r) && Open(r) && (clock >= r.revealDeadline || AllRevealed(r))
    ensures
      var p := Progressed(env, r, budget);
      var r' := Saved(r, p);
      && Reveals(r') == Reveals(r) && OneShot(env, r') == OneShot(env, r)
      && r'.processed <= Reveals(r) && Fold(env, r.scorer, r.entries, r'.processed, None) == Some(r'.scorerState)
      && (p.raised ==> OneShot(env, r) == None)
      && (!p.raised ==> (p.rest == [] <==> r'.processed == Reveals(r)))
      && (!p.raised && p.rest == [] ==> OneShot(env, r) == Some(r'.scorerState))
      && (Revealed(r) != {} ==> Frozen(clock, r))
  {
    var listed := Reveals(r);
    UnprocessedRest(Revealed(r), r.processed);
    var rest := Unprocessed(listed, r.processed);
    ScoreFolds(env, r.scorer, r.entries, rest, r.processed, r.scorerState, budget);
    ScorePrefix(env, r.scorer, r.entries, rest, r.processed, r.scorerState, budget);
    FoldConcat(env, r.scorer, r.entries, r.processed, rest, None);
    var p := Progressed(env, r, budget);
    assert Revealed(Saved(r, p)) == Revealed(r);
    hide Score, Unprocessed, InKeyOrder, BoundTo, EndedAsOneShot, AllRevealed;
    assert p.processed + [] == p.processed;
  }

  lemma FailGood(env: Env, s: State, id: nat, r: Request)
    requires AllGood(env, s) && id in s.requests && Fail(s, id, r).Ok?
    requires Good(env, s.clock, id, r.(result := None, status := Failed))
    requires Evolves(s.clock, s.requests[id], r.(result := None, status := Failed))
    ensures AllGood(env, Fail(s, id, r).value) && AllEvolve(s, Fail(s, id, r).value)
  {
    hide Refund, Deactivate, AllGood, AllEvolve, Good, Evolves;
    FinishGood(env, s, Refund(s.bank, r).value, s.providers, id, r.(result := None), Failed);
  }

  /** The record of an ended request is good when its outcome is the fold's. */
  lemma EndGood(env: Env, clock: nat, id: nat, r: Request, e: Request)
    requires Good(env, clock, id, r) && Open(r)
    requires e == r.(processed := e.processed, scorerState := e.scorerState, result := e.result, scores := e.scores, status := e.status)
    requires e.status.Failed? || e.status.Resolved?
    requires e.processed <= Reveals(r) && Fold(env, r.scorer, r.entries, e.processed, None) == Some(e.scorerState)
    requires EndedAsOneShot(env, e)
    ensures Good(env, clock, id, e) && Evolves(clock, r, e)
  {
    assert Revealed(e) == Revealed(r);
    hide Fold, InKeyOrder, EndedAsOneShot, BoundTo, AllRevealed;
  }

  lemma SettleGood(env: Env, s: State, id: nat, r: Request, budget: nat)
    requires AllGood(env, s) && id in s.requests && r == s.requests[id] && Open(r)
    requires s.clock >= r.revealDeadline || AllRevealed(r)
    requires var p := Progressed(env, r, budget); !p.raised && p.rest == [] && Settle(env, s, id, Saved(r, p)).Ok?
    ensures
      var s' := Settle(env, s, id, Saved(r, Progressed(env, r, budget))).value;
      AllGood(env, s') && AllEvolve(s, s')
  {
    assert Good(env, s.clock, id, r);
    SavedGood(env, s.clock, id, r, budget);
    var r' := Saved(r, Progressed(env, r, budget));
    var v := ReadVerdict(env, r'.scorerState).value;
    var done := r'.(scores := v.scores);
    var e := if v.result.None? then done.(result := None, status := Failed) else done.(result := v.result, status := Resolved);
    assert OneShot(env, e) == OneShot(env, r) by { assert Revealed(e) == Revealed(r); }
    hide Progressed, Fold, InKeyOrder, Good, Evolves, AllGood, AllEvolve, OneShot, AllRevealed;
    EndGood(env, s.clock, id, r, e);
    hide EndedAsOneShot, Reveals;
    if v.result.None? {
      FailGood(env, s, id, done);
    } else {
      hide Payable, PayFees, SlashEach, SlashScored, Silent, Deactivate;
      FinishGood(env, s, PayFees(s.bank, r'.fee, v.scores).value,
                 SlashEach(SlashScored(s.providers, v.scores, s.minBond), Silent(r'), s.minBond), id,
                 done.(result := v.result), Resolved);
    }
  }

  lemma RaisedGood(env: Env, s: State, id: nat, r: Request, budget: nat)
    requires AllGood(env, s) && id in s.requests && r == s.requests[id] && Open(r)
    requires s.clock >= r.revealDeadline || AllRevealed(r)
    requires var p := Progressed(env, r, budget); p.raised && Fail(s, id, Saved(r, p)).Ok?
    ensures
      var s' := Fail(s, id, Saved(r, Progressed(env, r, budget))).value;
      AllGood(env, s') && AllEvolve(s, s')
  {
    assert Good(env, s.clock, id, r);
    SavedGood(env, s.clock, id, r, budget);
    var r' := Saved(r, Progressed(env, r, budget));
    var e := r'.(result := None, status := Failed);
    assert OneShot(env, e) == OneShot(env, r) by { assert Revealed(e) == Revealed(r); }
    hide Progressed, Fold, InKeyOrder, Good, Evolves, AllGood, AllEvolve, OneShot, AllRevealed;
    EndGood(env, s.clock, id, r, e);
    hide EndedAsOneShot, Reveals;
    FailGood(env, s, id, r');
  }

  // ---- every call ----

  lemma FinalizeGood(env: Env, s: State, id: nat, budget: nat)
    requires AllGood(env, s) && Finalize(env, s, id, budget).Ok?
    ensures AllGood(env, Finalize(env, s, id, budget).value) && AllEvolve(s, Finalize(env, s, id, budget).value)
  {
    var r := s.requests[id];
    if Open(r) {
      assert Good(env, s.clock, id, r);
      var p := Progressed(env, r, budget);
      SavedGood(env, s.clock, id, r, budget);
      if p.raised {
        hide AllGood, AllEvolve, Progressed, Fail;
        RaisedGood(env, s, id, r, budget);
      } else if p.rest != [] {
        PausedGood(env, s, id, r, budget);
      } else {
        hide AllGood, AllEvolve, Progressed, Settle;
        SettleGood(env, s, id, r, budget);
      }
    } else {
      forall k | k in s.requests ensures Evolves(s.clock, s.requests[k], s.requests[k]) {
        EvolvesSelf(s.clock, s.requests[k]);
      }
    }
  }

  lemma PausedGood(env: Env, s: State, id: nat, r: Request, budget: nat)
    requires AllGood(env, s) && id in s.requests && r == s.requests[id] && Open(r)
    requires s.clock >= r.revealDeadline || AllRevealed(r)
    requires var p := Progressed(env, r, budget); !p.raised && p.rest != []
    ensures
      var s' := s.(requests := s.requests[id := Saved(r, Progressed(env, r, budget))]);
      AllGood(env, s') && AllEvolve(s, s')
  {
    assert Good(env, s.clock, id, r);
    SavedGood(env, s.clock, id, r, budget);
    var r' := Saved(r, Progressed(env, r, budget));
    assert Revealed(r') == Revealed(r);
    NoReveals(r);
    hide Progressed, Fold, InKeyOrder, AllGood, AllEvolve, OneShot, EndedAsOneShot;
    assert Good(env, s.clock, id, r') && Evolves(s.clock, r, r');
    hide Good, Evolves;
    UpdateGood(env, s, s.bank, s.providers, s.activeId, id, r');
  }

  lemma CommittedGood(env: Env, s: State, caller: Address, id: nat, r: Request, hash: Text)
    requires Good(env, s.clock, id, r) && r.status.Active? && caller !in r.entries
    ensures
      var r' := Transition(s, r.(entries := r.entries[caller := Entry(hash, None)]));
      Good(env, s.clock, id, r') && Evolves(s.clock, r, r')
  {
    var r' := Transition(s, r.(entries := r.entries[caller := Entry(hash, None)]));
    assert Revealed(r') == {};
    NoReveals(r);
    NoReveals(r');
    hide InKeyOrder, AllCommitted, AllRevealed, OneShot, EndedAsOneShot, Reveals;
  }

  lemma CommitGood(env: Env, s: State, caller: Address, id: nat, hash: Text)
    requires AllGood(env, s) && Commit(s, caller, id, hash).Ok?
    ensures AllGood(env, Commit(s, caller, id, hash).value) && AllEvolve(s, Commit(s, caller, id, hash).value)
  {
    var r := s.requests[id];
    assert Good(env, s.clock, id, r);
    hide AllGood, AllEvolve, Good, Evolves, Transition;
    CommittedGood(env, s, caller, id, r, hash);
    UpdateGood(env, s, s.bank, s.providers, s.activeId, id,
               Transition(s, r.(entries := r.entries[caller := Entry(hash, None)])));
  }

  /** A reveal is accepted only while nothing has been scored. */
  lemma RevealedGood(env: Env, s: State, caller: Address, id: nat, r: Request, response: Text, salt: Text)
    requires Good(env, s.clock, id, r)
    requires
      var t := Transition(s, r);
      && t.status.Revealing? && s.clock < t.revealDeadline && caller in t.entries && t.entries[caller].response.None?
      && env.hash(id, response, salt, caller) == t.entries[caller].commitHash
    ensures r.processed == []
    ensures
      var t := Transition(s, r);
      var r' := t.(entries := t.entries[caller := t.entries[caller].(response := Some(response))]);
      Good(env, s.clock, id, r') && Evolves(s.clock, r, r')
  {
    hide InKeyOrder, AllCommitted, OneShot, EndedAsOneShot;
    assert r.processed == [];
    var e := r.entries[caller].(response := Some(response));
    BoundAdded(env, id, r.entries, caller, response, salt);
    hide BoundTo, AllRevealed, Frozen, Reveals;
  }

  lemma BoundAdded(env: Env, id: nat, entries: Entries, caller: Address, response: Text, salt: Text)
    requires BoundTo(env, id, entries) && caller in entries
    requires env.hash(id, response, salt, caller) == entries[caller].commitHash
    ensures BoundTo(env, id, entries[caller := entries[caller].(response := Some(response))])
  {
  }

  lemma RevealGood(env: Env, s: State, caller: Address, id: nat, response: Text, salt: Text)
    requires AllGood(env, s) && Reveal(env, s, caller, id, response, salt).Ok?
    ensures AllGood(env, Reveal(env, s, caller, id, response, salt).value)
    ensures AllEvolve(s, Reveal(env, s, caller, id, response, salt).value)
  {
    var r := s.requests[id];
    assert Good(env, s.clock, id, r);
    var t := Transition(s, r);
    hide AllCommitted, Good, Evolves, AllGood, AllEvolve;
    RevealedGood(env, s, caller, id, r, response, salt);
    var r' := t.(entries := t.entries[caller := t.entries[caller].(response := Some(response))]);
    UpdateGood(env, s, s.bank, s.providers, s.activeId, id, r');
  }

  lemma AddGood(env: Env, s: State, r: Request)
    requires AllGood(env, s) && s.nextId !in s.requests && Good(env, s.clock, s.nextId, r)
    ensures
      var s' := s.(requests := s.requests[s.nextId := r], nextId := s.nextId + 1);
      AllGood(env, s') && AllEvolve(s, s')
  {
    hide Good, Evolves;
    forall k | k in s.requests ensures Evolves(s.clock, s.requests[k], s.requests[k]) {
      EvolvesSelf(s.clock, s.requests[k]);
    }
  }

  lemma NewGood(env: Env, clock: nat, id: nat, caller: Address, scorer: Text, schema: Text, fee: nat, height: nat)
    ensures Good(env, clock, id, NewRequest(caller, scorer, schema, fee, height))
  {
    var r := NewRequest(caller, scorer, schema, fee, height);
    assert Revealed(r) == {};
    NoReveals(r);
  }

  lemma CreateGood(env: Env, s: State, caller: Address, fee: nat, scorer: Text, schema: Text, valid: bool)
    requires AllGood(env, s) && s.nextId !in s.requests && Create(s, caller, fee, scorer, schema, valid).Ok?
    ensures AllGood(env, Create(s, caller, fee, scorer, schema, valid).value)
    ensures AllEvolve(s, Create(s, caller, fee, scorer, schema, valid).value)
  {
    var r := NewRequest(caller, scorer, schema, fee, s.height);
    NewGood(env, s.clock, s.nextId, caller, scorer, schema, fee, s.height);
    hide AllGood, AllEvolve, Good, TryActivate, NewRequest;
    AddGood(env, s, r);
    var s' := s.(requests := s.requests[s.nextId := r], nextId := s.nextId + 1);
    TryActivateGood(env, s');
    AllEvolveTransitive(s, s', TryActivate(s'));
  }

  lemma SameRequests(env: Env, s: State, s': State)
    requires AllGood(env, s) && s'.requests == s.requests && s.clock <= s'.clock
    ensures AllGood(env, s') && AllEvolve(s, s')
  {
    forall id | id in s.requests ensures Good(env, s'.clock, id, s.requests[id]) && Evolves(s.clock, s.requests[id], s.requests[id]) {
      assert Good(env, s.clock, id, s.requests[id]);
      hide InKeyOrder, BoundTo, EndedAsOneShot, AllRevealed, Fold, Reveals;
    }
  }

  lemma CallGood(env: Env, s: State, caller: Address, attached: nat, op: Op)
    requires AllGood(env, s) && s.nextId !in s.requests && CallOp(env, s, caller, attached, op).Ok?
    ensures AllGood(env, CallOp(env, s, caller, attached, op).value)
    ensures AllEvolve(s, CallOp(env, s, caller, attached, op).value)
  {
    hide AllGood, AllEvolve, Commit, Reveal, Finalize, Create;
    var s' := CallOp(env, s, caller, attached, op).value;
    match op {
      case DepositBond => SameRequests(env, s, s');
      case WithdrawBond(amount) => SameRequests(env, s, s');
      case CreateRequest(scorer, schema, valid) => CreateGood(env, s, caller, attached, scorer, schema, valid);
      case CommitTo(id, hash) => CommitGood(env, s, caller, id, hash);
      case RevealTo(id, response, salt) => RevealGood(env, s, caller, id, response, salt);
      case FinalizeRequest(id, budget) => FinalizeGood(env, s, id, budget);
      case SetMinBond(value) => SameRequests(env, s, s');
    }
  }

  lemma StepGood(env: Env, s: State, tx: Tx)
    requires Scheduled(s) && AllGood(env, s)
    ensures AllGood(env, Step(env, s, tx)) && AllEvolve(s, Step(env, s, tx))
  {
    assert s.nextId !in s.requests;
    hide Scheduled, CallOp, Attach, AllGood, AllEvolve;
    if tx.Call? && Apply(env, s, tx).Ok? {
      var s1 := s.(bank := Attach(s.bank, tx.caller, tx.attached).value);
      SameRequests(env, s, s1);
      CallGood(env, s1, tx.caller, tx.attached, tx.op);
      AllEvolveTransitive(s, s1, Step(env, s, tx));
    } else {
      SameRequests(env, s, Step(env, s, tx));
    }
  }

  lemma {:induction false} RunGood(env: Env, s: State, txs: seq<Tx>)
    requires Scheduled(s) && AllGood(env, s)
    ensures Scheduled(Run(env, s, txs)) && AllGood(env, Run(env, s, txs)) && AllEvolve(s, Run(env, s, txs))
    decreases |txs|
  {
    if txs != [] {
      StepGood(env, s, txs[0]);
      StepScheduled(env, s, txs[0]);
      hide Scheduled, Step, AllGood, AllEvolve;
      RunGood(env, Step(env, s, txs[0]), txs[1..]);
      AllEvolveTransitive(s, Step(env, s, txs[0]), Run(env, s, txs));
    } else {
      SameRequests(env, s, s);
    }
  }

  lemma StepScheduled(env: Env, s: State, tx: Tx)
    requires Scheduled(s)
    ensures Scheduled(Step(env, s, tx))
  {
    AlwaysScheduled(env, s, [tx]);
    assert [tx][1..] == [];
    assert Run(env, s, [tx]) == Step(env, s, tx);
  }

  // ---- what holds over every run ----

  /** Once one finalize call has been accepted and the request is still open, no commit and no reveal is accepted for it, in
      this or any later block. */
  lemma AcceptedFreezes(env: Env, s: State, id: nat, budget: nat)
    requires AllGood(env, s) && Finalize(env, s, id, budget).Ok?
    ensures
      var s' := Finalize(env, s, id, budget).value;
      id in s'.requests && (Open(s'.requests[id]) ==> Frozen(s'.clock, s'.requests[id]))
  {
    var r := s.requests[id];
    if Open(r) {
      assert Good(env, s.clock, id, r);
      var p := Progressed(env, r, budget);
      SavedGood(env, s.clock, id, r, budget);
      NoReveals(r);
      hide Progressed, AllGood, Good;
      if p.raised {
        FinishedStays(s, id, Saved(r, p));
      } else if p.rest == [] {
        SettledStays(env, s, id, Saved(r, p));
      } else {
        assert Frozen(s.clock, Saved(r, p));
      }
    }
  }

  lemma DeactivateEnds(s: State, id: nat, status: Status)
    requires (status.Resolved? || status.Failed?) && Deactivate(s, id, status).Ok?
    ensures id in Deactivate(s, id, status).value.requests
    ensures Deactivate(s, id, status).value.requests[id].status == status
  {
  }

  lemma FinishedStays(s: State, id: nat, r: Request)
    requires Fail(s, id, r).Ok?
    ensures id in Fail(s, id, r).value.requests && !Open(Fail(s, id, r).value.requests[id])
  {
    var s1 := s.(bank := Refund(s.bank, r).value, requests := s.requests[id := r.(result := None)]);
    DeactivateEnds(s1, id, Failed);
    hide Deactivate;
  }

  lemma SettledStays(env: Env, s: State, id: nat, r: Request)
    requires Settle(env, s, id, r).Ok?
    ensures id in Settle(env, s, id, r).value.requests && !Open(Settle(env, s, id, r).value.requests[id])
  {
    var v := ReadVerdict(env, r.scorerState).value;
    hide Payable, PayFees, SlashEach, SlashScored, Silent, ReadVerdict;
    if v.result.None? {
      FinishedStays(s, id, r.(scores := v.scores));
    } else {
      var s1 := s.(bank := PayFees(s.bank, r.fee, v.scores).value,
                   providers := SlashEach(SlashScored(s.providers, v.scores, s.minBond), Silent(r), s.minBond),
                   requests := s.requests[id := r.(result := v.result, scores := v.scores)]);
      DeactivateEnds(s1, id, Resolved);
      hide Deactivate;
    }
  }

  /** A frozen request accepts neither commits nor reveals, now or later. */
  lemma FrozenRejects(env: Env, s: State, id: nat, later: nat, caller: Address, hash: Text, response: Text, salt: Text)
    requires id in s.requests && Frozen(s.clock, s.requests[id]) && s.clock <= later
    ensures Commit(s.(clock := later), caller, id, hash).Err?
    ensures Reveal(env, s.(clock := later), caller, id, response, salt).Err?
  {
    hide AllCommitted;
  }

  /** The result of a finished request is the one-shot result: however many calls finalized it and wherever the gas budget cut
      them, over every run. */
  lemma FinishedAsOneShot(env: Env, s: State, txs: seq<Tx>, id: nat)
    requires Scheduled(s) && AllGood(env, s)
    requires id in Run(env, s, txs).requests
    ensures
      var r := Run(env, s, txs).requests[id];
      r.status.Resolved? || r.status.Failed? ==> EndedAsOneShot(env, r)
  {
    RunGood(env, s, txs);
    assert Good(env, Run(env, s, txs).clock, id, Run(env, s, txs).requests[id]);
  }

  /** A finished request is settled once: whatever happens since, finalizing it again pays nobody and changes nothing. */
  lemma SettledOnce(env: Env, s: State, txs: seq<Tx>, id: nat, budget: nat)
    requires Scheduled(s) && AllGood(env, s) && id in s.requests && Rank(s.requests[id].status) == 3
    ensures Finalize(env, Run(env, s, txs), id, budget) == Ok(Run(env, s, txs))
  {
    RunGood(env, s, txs);
    hide Run, AllGood;
    assert Evolves(s.clock, s.requests[id], Run(env, s, txs).requests[id]);
  }

  /** Finalizing twice in a row is finalizing once with both budgets. */
  lemma FinalizeTwice(env: Env, s: State, id: nat, b1: nat, b2: nat)
    requires AllGood(env, s) && Finalize(env, s, id, b1).Ok?
    requires id in s.requests && Open(s.requests[id])
    requires id in Finalize(env, s, id, b1).value.requests && Open(Finalize(env, s, id, b1).value.requests[id])
    ensures Finalize(env, Finalize(env, s, id, b1).value, id, b2) == Finalize(env, s, id, b1 + b2)
  {
    var r := s.requests[id];
    assert Good(env, s.clock, id, r);
    var p := Progressed(env, r, b1);
    hide AllGood, Good, Progressed, AllRevealed, Conclude;
    OnlyPaused(env, s, id, r, p);
    TwiceProgressed(env, s.clock, id, r, b1, b2);
    ConcludeSaved(env, s, id, r, p, Progressed(env, r, b1 + b2));
  }

  /** A call that leaves the request open has only saved it. */
  lemma OnlyPaused(env: Env, s: State, id: nat, r: Request, p: Progress)
    requires Conclude(env, s, id, r, p).Ok? && id in Conclude(env, s, id, r, p).value.requests
    requires Open(Conclude(env, s, id, r, p).value.requests[id])
    ensures !p.raised && p.rest != [] && Conclude(env, s, id, r, p) == Ok(s.(requests := s.requests[id := Saved(r, p)]))
  {
    if p.raised {
      FinishedStays(s, id, Saved(r, p));
    } else if p.rest == [] {
      SettledStays(env, s, id, Saved(r, p));
    }
    hide Fail, Settle, Saved;
  }

  /** What a request was saved as before makes no difference. */
  lemma ConcludeSaved(env: Env, s: State, id: nat, r: Request, p: Progress, p': Progress)
    ensures Conclude(env, s.(requests := s.requests[id := Saved(r, p)]), id, Saved(r, p), p') == Conclude(env, s, id, r, p')
  {
    var r' := Saved(r, p);
    assert Saved(r', p') == Saved(r, p');
    SameEnd(env, s, id, r', Saved(r, p'));
    hide Fail, Settle;
    assert s.requests[id := r'][id := Saved(r, p')] == s.requests[id := Saved(r, p')];
  }

  lemma TwiceProgressed(env: Env, clock: nat, id: nat, r: Request, b1: nat, b2: nat)
    requires Good(env, clock, id, r) && !Progressed(env, r, b1).raised
    ensures
      var r' := Saved(r, Progressed(env, r, b1));
      && Progressed(env, r', b2) == Progressed(env, r, b1 + b2)
      && (AllRevealed(r') <==> AllRevealed(r))
  {
    var p := Progressed(env, r, b1);
    var r' := Saved(r, p);
    var rest := Unprocessed(Reveals(r), r.processed);
    UnprocessedRest(Revealed(r), r.processed);
    ScoreFolds(env, r.scorer, r.entries, rest, r.processed, r.scorerState, b1);
    ScoreTwice(env, r.scorer, r.entries, rest, r.processed, r.scorerState, b1, b2);
    assert Revealed(r') == Revealed(r);
    UnprocessedRest(Revealed(r), p.processed);
    hide Score, Unprocessed, InKeyOrder, Fold, BoundTo, EndedAsOneShot;
    SameRest(p.processed, p.rest, Unprocessed(Reveals(r), p.processed));
  }

  lemma SameRest(x: seq<Address>, y: seq<Address>, z: seq<Address>)
    requires x + y == x + z
    ensures y == z
  {
    assert y == (x + y)[|x|..] && z == (x + z)[|x|..];
  }

  lemma PutTwice(requests: Requests, id: nat, r: Request, e: Request)
    ensures requests[id := r][id := e] == requests[id := e]
  {
  }

  lemma SameFail(s: State, id: nat, r: Request, e: Request)
    ensures Fail(s.(requests := s.requests[id := r]), id, e) == Fail(s, id, e)
  {
    PutTwice(s.requests, id, r, e.(result := None));
    hide Deactivate, Refund;
  }

  lemma SameEnd(env: Env, s: State, id: nat, r: Request, e: Request)
    ensures Fail(s.(requests := s.requests[id := r]), id, e) == Fail(s, id, e)
    ensures Settle(env, s.(requests := s.requests[id := r]), id, e) == Settle(env, s, id, e)
  {
    SameFail(s, id, r, e);
    var read := ReadVerdict(env, e.scorerState);
    hide Deactivate, Payable, PayFees, SlashEach, SlashScored, Silent, ReadVerdict, Fail;
    if read.Some? {
      SameFail(s, id, r, e.(scores := read.value.scores));
      PutTwice(s.requests, id, r, e.(result := read.value.result, scores := read.value.scores));
    }
  }

  /** When somebody has revealed, nobody commits any more: the accepted commits of a request all precede its first accepted
      reveal. */
  lemma CommitsBeforeReveals(env: Env, s: State, txs: seq<Tx>, id: nat)
    requires Scheduled(s) && AllGood(env, s) && id in s.requests && Revealed(s.requests[id]) != {}
    ensures id in Run(env, s, txs).requests
    ensures Run(env, s, txs).requests[id].entries.Keys == s.requests[id].entries.Keys
  {
    RunGood(env, s, txs);
    assert Good(env, s.clock, id, s.requests[id]);
    hide Run, AllGood;
    assert Evolves(s.clock, s.requests[id], Run(env, s, txs).requests[id]);
  }

  /** Each provider commits once and reveals once: what it committed to and what it revealed never change. */
  lemma CommitmentsStay(env: Env, s: State, txs: seq<Tx>, id: nat, a: Address)
    requires Scheduled(s) && AllGood(env, s) && id in s.requests && a in s.requests[id].entries
    ensures
      var s' := Run(env, s, txs);
      && id in s'.requests && a in s'.requests[id].entries
      && s'.requests[id].entries[a].commitHash == s.requests[id].entries[a].commitHash
      && (s.requests[id].entries[a].response.Some? ==> s'.requests[id].entries[a] == s.requests[id].entries[a])
  {
    RunGood(env, s, txs);
    hide Run, AllGood;
    assert Evolves(s.clock, s.requests[id], Run(env, s, txs).requests[id]);
  }

  /** The hash tells responses apart. */
  ghost predicate Injective(env: Env) {
    forall id: nat, v: Text, salt: Text, w: Text, salt': Text, a: Address ::
      env.hash(id, v, salt, a) == env.hash(id, w, salt', a) ==> v == w
  }

  /** With an injective hash a stored response is the one its provider committed to. */
  lemma RevealsAreBound(env: Env, s: State, txs: seq<Tx>, id: nat, a: Address, meant: Text, salt: Text)
    requires Scheduled(s) && AllGood(env, s) && Injective(env)
    requires var s' := Run(env, s, txs); id in s'.requests && a in s'.requests[id].entries
    requires
      var e := Run(env, s, txs).requests[id].entries[a];
      e.response.Some? && e.commitHash == env.hash(id, meant, salt, a)
    ensures Run(env, s, txs).requests[id].entries[a].response == Some(meant)
  {
    RunGood(env, s, txs);
    var s' := Run(env, s, txs);
    hide Run;
    var e := s'.requests[id].entries[a];
    assert Good(env, s'.clock, id, s'.requests[id]);
    var salt' :| env.hash(id, e.response.value, salt', a) == e.commitHash;
  }

  /** Runs start with all of this in place. */
  lemma StartsWell(env: Env, bank: Ledger, clock: nat, height: nat)
    ensures Scheduled(Start(bank, clock, height)) && AllGood(env, Start(bank, clock, height))
  {
    assert PendingIds(Start(bank, clock, height).requests) == {};
  }
}
