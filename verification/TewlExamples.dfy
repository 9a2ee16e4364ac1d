/** Two states of the oracle in which what its documentation rules out happens: a round that nobody ends in time, and a request
    that nothing ever ends. */
module TewlExamples {
  import opened Options
  import opened Totals
  import opened Bank
  import opened KeyOrder
  import opened Tewl
  import opened TewlQueue
  import opened TewlEscrow
  import opened TewlScoring
  import opened TewlSlashing
  import opened TewlProgress
  import Keys

  const BOND := 1000000
  const COMMITMENT: Text := "0123456789abcdef0123456789abcdef"
  const BONDED: Providers := map["provider" := Provider(BOND, Bonded), "other" := Provider(BOND, Bonded)]
  const FUNDS: Ledger := map[UDYS := map[SCRIPT := 2 * BOND + 100]]

  /** The first request, with a fee of a hundred, activated at time zero; one of two providers has committed to it. */
  function Round(status: Status, response: Option<Text>): Request {
    Request("requester", "scorer", "schema", 100, 1, status, 30, 60, map["provider" := Entry(COMMITMENT, response)],
            [], None, None, [])
  }

  function InRound(status: Status, response: Option<Text>, clock: nat): State {
    State(FUNDS, BONDED, map[1 := Round(status, response)], 2, BOND, Some(1), clock, 1)
  }

  /** A hash that is the salt, and a scorer whose state after any reveal cannot be read. */
  function PlainEnv(): Env {
    Env((id: nat, response: Text, salt: Text, a: Address) => salt, (response: Text, schema: Text) => true,
        (scorer: Text, a: Address, response: Text, state: ScorerState) => Some(Some("x")), (t: Text) => None, (a: Address) => true)
  }

  // ---- a round that nobody ends in time ----

  lemma LateRoundWell(env: Env, clock: nat)
    ensures Scheduled(InRound(Active, None, clock)) && AllGood(env, InRound(Active, None, clock))
    ensures Escrowed(InRound(Active, None, clock))
  {
    var r := Round(Active, None);
    assert Revealed(r) == {};
    RoundEscrowed(Active, None, clock);
    RoundScheduled(Active, None, clock);
    hide InKeyOrder, Escrowed, Scheduled;
  }

  lemma RoundScheduled(status: Status, response: Option<Text>, clock: nat)
    requires status.Active? || status.Revealing?
    ensures Scheduled(InRound(status, response, clock))
  {
  }

  lemma RoundEscrowed(status: Status, response: Option<Text>, clock: nat)
    requires status.Active? || status.Revealing?
    ensures Escrowed(InRound(status, response, clock))
  {
    RoundBonds();
    RoundFees(status, response);
    assert Balance(FUNDS, SCRIPT, UDYS) == 2 * BOND + 100;
    hide Balance, Bonds, Fees;
  }

  lemma RoundBonds()
    ensures Bonds(BONDED) == 2 * BOND
  {
    var p := Provider(BOND, Bonded);
    var none: Providers, one: Providers := map[], map["provider" := p];
    TotalPut(none, BondOf(), "provider", p);
    TotalPut(one, BondOf(), "other", p);
    assert none["provider" := p] == one && one["other" := p] == BONDED;
    assert Total(none, BondOf()) == 0;
  }

  lemma RoundFees(status: Status, response: Option<Text>)
    requires status.Active? || status.Revealing?
    ensures Fees(map[1 := Round(status, response)]) == 100
  {
    var none: Requests := map[];
    TotalPut(none, FeeOf(), 1, Round(status, response));
    assert none[1 := Round(status, response)] == map[1 := Round(status, response)];
    assert Total(none, FeeOf()) == 0;
  }

  /** Long after both deadlines of its activation the committed provider can still reveal, and opens a new reveal phase. */
  lemma LateRevealAccepted(clock: nat, response: Text)
    requires clock >= 60
    ensures
      var r := Reveal(PlainEnv(), InRound(Active, None, clock), "provider", 1, response, COMMITMENT);
      r.Ok? && 1 in r.value.requests && r.value.requests[1].revealDeadline == clock + REVEAL_TIMEOUT
  {
    LateRoundWell(PlainEnv(), clock);
    FirstRevealNeverLate(PlainEnv(), InRound(Active, None, clock), "provider", 1, response, COMMITMENT);
    hide Reveal, AllGood;
  }

  /** Or the round is finalized before anybody reveals: it fails, and the committed provider keeps its bond. */
  lemma SilentCommitterKeepsBond(env: Env, clock: nat, budget: nat)
    requires clock >= 60
    ensures
      var f := Finalize(env, InRound(Active, None, clock), 1, budget);
      && f.Ok? && 1 in f.value.requests && f.value.requests[1].status.Failed? && IsSilent(f.value.requests[1], "provider")
      && f.value.providers == BONDED
  {
    var s := InRound(Active, None, clock);
    LateRoundWell(env, clock);
    SilentRoundSlashesNobody(env, s, 1, budget);
    FinalizeSlashes(env, s, 1, budget);
    hide Finalize, AllGood, Scheduled, Escrowed, Struck, Strikes;
  }

  // ---- a request that nothing ever ends ----

  lemma {:induction false} ScoresToX(entries: Entries, listed: seq<Address>, state: ScorerState)
    ensures Fold(PlainEnv(), "scorer", entries, listed, state) == Some(if listed == [] then state else Some("x"))
    decreases |listed|
  {
    if listed != [] {
      ScoresToX(entries, listed[1..], Some("x"));
    }
  }

  lemma RoundBound()
    ensures BoundTo(PlainEnv(), 1, Round(Revealing, Some("r")).entries)
  {
    assert PlainEnv().hash(1, "r", COMMITMENT, "provider") == COMMITMENT;
  }

  lemma RevealedRoundWell(clock: nat)
    ensures Scheduled(InRound(Revealing, Some("r"), clock)) && AllGood(PlainEnv(), InRound(Revealing, Some("r"), clock))
    ensures AllRevealed(Round(Revealing, Some("r")))
  {
    RoundBound();
    RoundScheduled(Revealing, Some("r"), clock);
    assert "provider" in Round(Revealing, Some("r")).entries;
    hide BoundTo, InKeyOrder, Scheduled;
  }

  lemma RoundScored()
    ensures OneShot(PlainEnv(), Round(Revealing, Some("r"))) == Some(Some("x"))
  {
    var r := Round(Revealing, Some("r"));
    assert "provider" in Revealed(r);
    KeysAreOrdered();
    ListingMembers(Revealed(r), Keys.Less);
    ScoresToX(r.entries, Reveals(r), None);
    hide InKeyOrder, Listing, Keys.Less;
  }

  /** The committed provider has revealed, and the scorer's final state cannot be read: over every run the request stays the
      active one. */
  lemma UnreadableRoundStays(clock: nat, txs: seq<Tx>)
    ensures
      var s := Run(PlainEnv(), InRound(Revealing, Some("r"), clock), txs);
      s.activeId == Some(1) && 1 in s.requests && s.requests[1].status.Revealing?
  {
    RevealedRoundWell(clock);
    RoundScored();
    assert !Settles(PlainEnv(), 100, Some("x"));
    UnsettledBlocks(PlainEnv(), InRound(Revealing, Some("r"), clock), txs, 1);
    hide Run, AllGood, OneShot, Settles;
  }
}
