/** The oracle's scheduler: in what order pending requests are activated, and that exactly one request is open whenever any
    waits. */
module TewlQueue {
  import opened Options
  import opened Bank
  import opened KeyOrder
  import opened Tewl
  import Keys

  // ---- the order of the queue ----

  /** i is served before j: a higher fee, then an earlier block, then the earlier storage key. */
  predicate Prior(requests: Requests, i: nat, j: nat)
    requires i in requests && j in requests
  {
    Outranks(requests[i], requests[j]) || (!Outranks(requests[j], requests[i]) && KeyBefore(i, j))
  }

  lemma PriorTransitive(requests: Requests, i: nat, j: nat, k: nat)
    requires i in requests && j in requests && k in requests && Prior(requests, i, j) && Prior(requests, j, k)
    ensures Prior(requests, i, k)
  {
    hide KeyBefore;
    KeysAreOrdered();
  }

  ghost predicate Ordered(requests: Requests, ids: seq<nat>) {
    && (forall k :: k in ids ==> k in requests)
    && forall a, b :: 0 <= a < b < |ids| ==> ids[a] in requests && ids[b] in requests && Prior(requests, ids[a], ids[b])
  }

  lemma {:induction false} InsertOrdered(requests: Requests, sorted: seq<nat>, id: nat)
    requires Ordered(requests, sorted) && id in requests && forall k :: k in sorted ==> KeyBefore(k, id)
    ensures Ordered(requests, Insert(requests, sorted, id))
    decreases |sorted|
  {
    hide KeyBefore;
    InsertMembers(requests, sorted, id);
    if sorted == [] {
    } else if Outranks(requests[id], requests[sorted[0]]) {
      forall b | 0 <= b < |sorted| ensures Prior(requests, id, sorted[b]) {
        if b > 0 { PriorTransitive(requests, id, sorted[0], sorted[b]); }
      }
    } else {
      InsertOrdered(requests, sorted[1..], id);
      InsertMembers(requests, sorted[1..], id);
      var rest := Insert(requests, sorted[1..], id);
      assert Prior(requests, sorted[0], id);
      forall b | 0 <= b < |rest| ensures rest[b] in requests && Prior(requests, sorted[0], rest[b]) {
        assert rest[b] in rest;
      }
      OrderedCons(requests, sorted[0], rest);
    }
  }

  lemma OrderedCons(requests: Requests, id: nat, rest: seq<nat>)
    requires Ordered(requests, rest) && id in requests
    requires forall b :: 0 <= b < |rest| ==> rest[b] in requests && Prior(requests, id, rest[b])
    ensures Ordered(requests, [id] + rest)
  {
  }

  lemma {:induction false} SortOrdered(requests: Requests, ids: seq<nat>)
    requires forall k :: k in ids ==> k in requests
    requires forall a, b :: 0 <= a < b < |ids| ==> KeyBefore(ids[a], ids[b])
    ensures Ordered(requests, SortByRank(requests, ids))
    ensures |SortByRank(requests, ids)| == |ids|
    ensures forall k :: k in SortByRank(requests, ids) <==> k in ids
    decreases |ids|
  {
    hide KeyBefore, Ordered, Insert;
    if ids != [] {
      var front, last := ids[..|ids| - 1], ids[|ids| - 1];
      SortOrdered(requests, front);
      var sorted := SortByRank(requests, front);
      forall k | k in sorted ensures KeyBefore(k, last) {
        var a :| 0 <= a < |front| && front[a] == k;
        assert ids[a] == k;
      }
      InsertMembers(requests, sorted, last);
      InsertOrdered(requests, sorted, last);
      assert ids == front + [last];
    } else {
      NoneOrdered(requests);
    }
  }

  lemma NoneOrdered(requests: Requests)
    ensures Ordered(requests, [])
  {
  }

  /** The queue lists every pending request once, each before all it is prior to. */
  lemma PendingOrdered(requests: Requests)
    ensures Ordered(requests, PendingOrder(requests))
    ensures forall k :: k in PendingOrder(requests) <==> k in PendingIds(requests)
  {
    KeysAreOrdered();
    ListingMembers(PendingIds(requests), KeyBefore);
    ListingSorted(PendingIds(requests), KeyBefore);
    SortOrdered(requests, Listing(PendingIds(requests), KeyBefore));
  }

  /** The request that is activated is pending and prior to every other pending request. */
  lemma ActivationPicksFirst(s: State)
    requires s.activeId.None? && PendingIds(s.requests) != {}
    ensures TryActivate(s).activeId.Some?
    ensures
      var id := TryActivate(s).activeId.value;
      && id in PendingIds(s.requests)
      && forall j :: j in PendingIds(s.requests) && j != id ==> Prior(s.requests, id, j)
  {
    PendingOrdered(s.requests);
    var order := PendingOrder(s.requests);
    var k :| k in PendingIds(s.requests);
    assert k in order;
    hide PendingOrder, Prior;
    forall j | j in PendingIds(s.requests) && j != order[0] ensures Prior(s.requests, order[0], j) {
      assert j in order;
      var b :| 0 <= b < |order| && order[b] == j;
    }
  }

  // ---- the queue by ids ----

  /** Exactly when one request is stored before another: among ids of one length the smaller id, otherwise the shorter id
      unless it exceeds the leading digits of the longer one. Among ids of at most six digits that is id order. */
  lemma KeyOrderIsIdOrder(i: nat, j: nat)
    ensures KeyBefore(i, j) <==> Keys.ListsBefore(i, j, ID_WIDTH)
    ensures i < Keys.Pow10(ID_WIDTH) && j < Keys.Pow10(ID_WIDTH) ==> (KeyBefore(i, j) <==> i < j)
  {
    hide Keys.Pad, Keys.Less, Keys.ListsBefore, Keys.Pow10, RequestKey;
    RequestKeyOrder(i, j);
    Keys.ListsBeforeExactly(i, j, ID_WIDTH, "/state");
    if i < Keys.Pow10(ID_WIDTH) && j < Keys.Pow10(ID_WIDTH) {
      Keys.ShortNumbers(i, j, ID_WIDTH);
    }
  }

  /** i comes before j by a higher fee, then an earlier block, then a smaller id. */
  predicate PriorById(requests: Requests, i: nat, j: nat)
    requires i in requests && j in requests
  {
    Outranks(requests[i], requests[j]) || (!Outranks(requests[j], requests[i]) && i < j)
  }

  /** The pending requests no other pending request outranks: those with the highest fee and, among them, the earliest block. */
  function Tied(requests: Requests): set<nat> {
    set k | k in PendingIds(requests) && forall j :: j in PendingIds(requests) ==> !Outranks(requests[j], requests[k])
  }

  lemma {:induction false} LeastId(ids: set<nat>) returns (m: nat)
    requires ids != {}
    ensures m in ids && forall k :: k in ids ==> m <= k
    decreases |ids|
  {
    m :| m in ids;
    if ids != {m} {
      assert ids == (ids - {m}) + {m};
      var n := LeastId(ids - {m});
      if n < m { m := n; }
    }
  }

  /** The activated request is minimal in (fee descending, block, id) if and only if the smallest of the top-ranked ids is
      stored before every other one of them. */
  lemma ActivationById(s: State) returns (m: nat)
    requires s.activeId.None? && PendingIds(s.requests) != {}
    ensures m in Tied(s.requests) && forall k :: k in Tied(s.requests) ==> m <= k
    ensures TryActivate(s).activeId.Some? && TryActivate(s).activeId.value in PendingIds(s.requests)
    ensures
      var id := TryActivate(s).activeId.value;
      (forall j :: j in PendingIds(s.requests) && j != id ==> PriorById(s.requests, id, j))
      <==> (forall k :: k in Tied(s.requests) && k != m ==> Keys.ListsBefore(m, k, ID_WIDTH))
  {
    ActivationPicksFirst(s);
    var id := TryActivate(s).activeId.value;
    hide TryActivate, KeyBefore, Keys.ListsBefore, Prior, PriorById, Tied;
    FirstIsTied(s.requests, id);
    m := LeastId(Tied(s.requests));
    TiedArePending(s.requests);
    FirstIsLeast(s.requests, id, m);
    FirstIsStoredFirst(s.requests, id, m);
    forall k | k in Tied(s.requests) && k != m ensures KeyBefore(m, k) <==> Keys.ListsBefore(m, k, ID_WIDTH) {
      KeyOrderIsIdOrder(m, k);
    }
  }

  lemma TiedArePending(requests: Requests)
    ensures Tied(requests) <= PendingIds(requests)
  {
  }

  lemma FirstIsTied(requests: Requests, id: nat)
    requires id in PendingIds(requests)
    requires forall j :: j in PendingIds(requests) && j != id ==> Prior(requests, id, j)
    ensures id in Tied(requests)
  {
    hide KeyBefore;
  }

  lemma FirstIsStoredFirst(requests: Requests, id: nat, m: nat)
    requires id in Tied(requests) && m in Tied(requests)
    requires forall j :: j in PendingIds(requests) && j != id ==> Prior(requests, id, j)
    ensures (forall k :: k in Tied(requests) && k != m ==> KeyBefore(m, k)) <==> id == m
  {
    KeysAreOrdered();
    hide KeyBefore;
    if id == m {
      forall k | k in Tied(requests) && k != m ensures KeyBefore(m, k) {
        assert Prior(requests, m, k);
      }
    } else {
      assert Prior(requests, id, m) && !KeyBefore(m, id);
    }
  }

  lemma FirstIsLeast(requests: Requests, id: nat, m: nat)
    requires id in Tied(requests) && m in Tied(requests) && forall k :: k in Tied(requests) ==> m <= k
    ensures (forall j :: j in PendingIds(requests) && j != id ==> PriorById(requests, id, j)) <==> id == m
  {
    if id == m {
      forall j | j in PendingIds(requests) && j != m ensures PriorById(requests, m, j) {
        if !Outranks(requests[m], requests[j]) {
          assert j in Tied(requests);
        }
      }
    } else {
      assert !PriorById(requests, id, m);
    }
  }

  /** Beyond six digits storage order is not id order: the millionth request comes before the one created just before it. */
  lemma LongIdsComeFirst()
    ensures KeyBefore(1000000, 999999) && !KeyBefore(999999, 1000000)
  {
    RequestKeyOrder(1000000, 999999);
    RequestKeyOrder(999999, 1000000);
    MillionText();
    hide Keys.Pad, Keys.Less, KeyBefore, RequestKey;
    FirstCharacter("1000000" + "/state", "999999" + "/state");
  }

  lemma FirstCharacter(a: string, b: string)
    requires a != "" && b != "" && a[0] < b[0]
    ensures Keys.Less(a, b) && !Keys.Less(b, a)
  {
  }

  /** When these two wait with one fee and one block, the later one is served first. */
  lemma LaterOfTwo(s: State)
    requires s.activeId.None? && PendingIds(s.requests) == {999999, 1000000}
    requires s.requests[999999].fee == s.requests[1000000].fee && s.requests[999999].createdAt == s.requests[1000000].createdAt
    ensures TryActivate(s).activeId == Some(1000000) && 999999 in PendingIds(TryActivate(s).requests)
  {
    LongIdsComeFirst();
    ActivationPicksFirst(s);
    hide KeyBefore;
    assert !Prior(s.requests, 999999, 1000000);
  }

  /** A state whose active request is about to end while requests 999999 and 1000000 wait with one fee and one block. */
  function TwoWaiting(bank: Ledger, fee: nat, height: nat, clock: nat): State {
    var waiting := NewRequest("requester", "scorer", "schema", fee, height);
    State(bank, map[],
          map[1 := Activated(waiting, clock), 999999 := waiting, 1000000 := waiting], 1000001, 1000000, Some(1), clock, height)
  }

  /** In that state, ending the active request serves the later of the two waiting ones: with fee and block equal, the
      activated request is not the one with the smallest id. */
  lemma LaterIdServedFirst(bank: Ledger, fee: nat, height: nat, clock: nat, status: Status)
    requires status.Resolved? || status.Failed?
    ensures Scheduled(TwoWaiting(bank, fee, height, clock))
    ensures
      var s := TwoWaiting(bank, fee, height, clock);
      && PendingIds(s.requests) == {999999, 1000000}
      && s.requests[999999].fee == s.requests[1000000].fee && s.requests[999999].createdAt == s.requests[1000000].createdAt
      && Deactivate(s, 1, status).Ok?
      && Deactivate(s, 1, status).value.activeId == Some(1000000)
      && 999999 in PendingIds(Deactivate(s, 1, status).value.requests)
  {
    var s := TwoWaiting(bank, fee, height, clock);
    TwoWaitingWell(bank, fee, height, clock);
    EndedNotPending(s.requests, 1, status);
    hide TryActivate, TwoWaiting, Scheduled, PendingIds;
    LaterOfTwo(s.(requests := s.requests[1 := s.requests[1].(status := status)], activeId := None));
  }

  lemma TwoWaitingWell(bank: Ledger, fee: nat, height: nat, clock: nat)
    ensures
      var s := TwoWaiting(bank, fee, height, clock);
      && Scheduled(s) && PendingIds(s.requests) == {999999, 1000000}
      && s.activeId == Some(1) && 1 in s.requests && s.requests[1].status.Active?
      && s.requests[999999].fee == s.requests[1000000].fee && s.requests[999999].createdAt == s.requests[1000000].createdAt
  {
  }

  lemma EndedNotPending(requests: Requests, id: nat, status: Status)
    requires id in requests && !requests[id].status.Pending? && !status.Pending?
    ensures PendingIds(requests[id := requests[id].(status := status)]) == PendingIds(requests)
  {
  }

  lemma MillionText()
    ensures Keys.Pad(1000000, ID_WIDTH) == "1000000" && Keys.Pad(999999, ID_WIDTH) == "999999"
  {
    assert Keys.Decimal(1) == "1" && Keys.Decimal(10) == "10" && Keys.Decimal(100) == "100";
    assert Keys.Decimal(1000) == "1000" && Keys.Decimal(10000) == "10000" && Keys.Decimal(100000) == "100000";
    assert Keys.Decimal(1000000) == "1000000";
    assert Keys.Decimal(9) == "9" && Keys.Decimal(99) == "99" && Keys.Decimal(999) == "999";
    assert Keys.Decimal(9999) == "9999" && Keys.Decimal(99999) == "99999" && Keys.Decimal(999999) == "999999";
  }

  /** Activation changes nothing, or it turns one pending request active. */
  lemma TryActivateChanges(s: State) returns (id: nat)
    ensures TryActivate(s) == s
      || (id in s.requests && s.requests[id].status.Pending? && s.activeId.None?
          && TryActivate(s) == s.(requests := s.requests[id := Activated(s.requests[id], s.clock)], activeId := Some(id)))
  {
    var pending := PendingOrder(s.requests);
    id := 0;
    if pending != [] {
      id := pending[0];
      assert id in pending;
    }
    hide PendingOrder, Activated;
  }

  // ---- one open request at a time ----

  predicate Open(r: Request) {
    r.status.Active? || r.status.Revealing?
  }

  /** The open request, if any, is the one the state names; while no request is open, none is pending. */
  ghost predicate Scheduled(s: State) {
    && (forall id :: id in s.requests ==> id < s.nextId)
    && (s.activeId.Some? ==> s.activeId.value in s.requests && Open(s.requests[s.activeId.value]))
    && (forall id :: id in s.requests && Open(s.requests[id]) ==> s.activeId == Some(id))
    && (s.activeId.None? ==> PendingIds(s.requests) == {})
  }

  lemma TryActivateSchedules(s: State)
    requires forall id :: id in s.requests ==> id < s.nextId
    requires s.activeId.Some? ==> s.activeId.value in s.requests && Open(s.requests[s.activeId.value])
    requires forall id :: id in s.requests && Open(s.requests[id]) ==> s.activeId == Some(id)
    ensures Scheduled(TryActivate(s))
  {
    FirstPending(s.requests);
    hide PendingOrder;
    if s.activeId.None? && PendingOrder(s.requests) != [] {
      ActivatedScheduled(s, PendingOrder(s.requests)[0]);
    }
  }

  lemma FirstPending(requests: Requests)
    ensures PendingOrder(requests) == [] <==> PendingIds(requests) == {}
    ensures PendingOrder(requests) != [] ==> PendingOrder(requests)[0] in PendingIds(requests)
  {
    PendingOrdered(requests);
    hide PendingOrder, PendingIds, Ordered;
    var order := PendingOrder(requests);
    if order != [] {
      assert order[0] in order;
    }
    if k :| k in PendingIds(requests) {
      assert k in order;
    }
  }

  lemma ActivatedScheduled(s: State, id: nat)
    requires forall k :: k in s.requests ==> k < s.nextId && !Open(s.requests[k])
    requires id in s.requests
    ensures Scheduled(s.(requests := s.requests[id := Activated(s.requests[id], s.clock)], activeId := Some(id)))
  {
  }

  lemma DeactivateSchedules(s: State, id: nat, status: Status)
    requires Scheduled(s) && (status.Resolved? || status.Failed?) && Deactivate(s, id, status).Ok?
    ensures Scheduled(Deactivate(s, id, status).value)
  {
    TryActivateSchedules(s.(requests := s.requests[id := s.requests[id].(status := status)], activeId := None));
    hide TryActivate;
  }

  /** Replacing the open request by one that is still open, whatever happens to balances and bonds. */
  lemma UpdateSchedules(s: State, b: Ledger, ps: Providers, id: nat, r: Request)
    requires Scheduled(s) && id in s.requests && Open(s.requests[id]) && Open(r)
    ensures Scheduled(s.(bank := b, providers := ps, requests := s.requests[id := r]))
  {
    var s' := s.(bank := b, providers := ps, requests := s.requests[id := r]);
    assert PendingIds(s'.requests) == PendingIds(s.requests);
  }

  lemma FailSchedules(s: State, id: nat, r: Request)
    requires Scheduled(s) && id in s.requests && Open(s.requests[id]) && Open(r) && Fail(s, id, r).Ok?
    ensures Scheduled(Fail(s, id, r).value)
  {
    hide Deactivate, Scheduled, Refund;
    var r' := r.(result := None);
    var b := Refund(s.bank, r).value;
    UpdateSchedules(s, b, s.providers, id, r');
    DeactivateSchedules(s.(bank := b, requests := s.requests[id := r']), id, Failed);
  }

  lemma SettleSchedules(env: Env, s: State, id: nat, r: Request)
    requires Scheduled(s) && id in s.requests && Open(s.requests[id]) && Open(r) && Settle(env, s, id, r).Ok?
    ensures Scheduled(Settle(env, s, id, r).value)
  {
    hide Deactivate, Scheduled, Fail, Payable, PayFees, SlashEach, SlashScored, Silent;
    var v := ReadVerdict(env, r.scorerState).value;
    if v.result.None? {
      FailSchedules(s, id, r.(scores := v.scores));
    } else {
      var b := PayFees(s.bank, r.fee, v.scores).value;
      var ps := SlashEach(SlashScored(s.providers, v.scores, s.minBond), Silent(r), s.minBond);
      var r' := r.(result := v.result, scores := v.scores);
      UpdateSchedules(s, b, ps, id, r');
      DeactivateSchedules(s.(bank := b, providers := ps, requests := s.requests[id := r']), id, Resolved);
    }
  }

  lemma FinalizeSchedules(env: Env, s: State, id: nat, budget: nat)
    requires Scheduled(s) && Finalize(env, s, id, budget).Ok?
    ensures Scheduled(Finalize(env, s, id, budget).value)
  {
    var r := s.requests[id];
    if Open(r) {
      var p := Progressed(env, r, budget);
      var r' := Saved(r, p);
      hide Progressed, Scheduled, Fail, Settle, AllRevealed;
      if p.raised {
        FailSchedules(s, id, r');
      } else if p.rest != [] {
        UpdateSchedules(s, s.bank, s.providers, id, r');
      } else {
        SettleSchedules(env, s, id, r');
      }
    }
  }

  lemma CreateSchedules(s: State, caller: Address, fee: nat, scorer: Text, schema: Text, valid: bool)
    requires Scheduled(s) && Create(s, caller, fee, scorer, schema, valid).Ok?
    ensures Scheduled(Create(s, caller, fee, scorer, schema, valid).value)
  {
    var r := NewRequest(caller, scorer, schema, fee, s.height);
    var s' := s.(requests := s.requests[s.nextId := r], nextId := s.nextId + 1);
    TryActivateSchedules(s');
    hide TryActivate;
  }

  lemma CallSchedules(env: Env, s: State, caller: Address, attached: nat, op: Op)
    requires Scheduled(s) && CallOp(env, s, caller, attached, op).Ok?
    ensures Scheduled(CallOp(env, s, caller, attached, op).value)
  {
    match op {
      case DepositBond =>
      case WithdrawBond(amount) =>
      case CreateRequest(scorer, schema, valid) => CreateSchedules(s, caller, attached, scorer, schema, valid);
      case CommitTo(id, hash) =>
        var r := s.requests[id];
        UpdateSchedules(s, s.bank, s.providers, id, Transition(s, r.(entries := r.entries[caller := Entry(hash, None)])));
      case RevealTo(id, response, salt) =>
        var r := Transition(s, s.requests[id]);
        hide Scheduled, AllCommitted;
        UpdateSchedules(s, s.bank, s.providers, id,
                        r.(entries := r.entries[caller := r.entries[caller].(response := Some(response))]));
      case FinalizeRequest(id, budget) => FinalizeSchedules(env, s, id, budget);
      case SetMinBond(value) =>
    }
  }

  /** Over every run: at most one request is open and it is the one named active; when none is, none waits. */
  lemma {:induction false} AlwaysScheduled(env: Env, s: State, txs: seq<Tx>)
    requires Scheduled(s)
    ensures Scheduled(Run(env, s, txs))
    decreases |txs|
  {
    if txs != [] {
      var tx := txs[0];
      if tx.Call? && Apply(env, s, tx).Ok? {
        var b := Attach(s.bank, tx.caller, tx.attached).value;
        assert Scheduled(s.(bank := b));
        hide CallOp, Scheduled, Attach;
        CallSchedules(env, s.(bank := b), tx.caller, tx.attached, tx.op);
      }
      hide CallOp;
      assert Scheduled(Step(env, s, tx));
      hide Scheduled, Step;
      AlwaysScheduled(env, Step(env, s, tx), txs[1..]);
    }
  }
}
