/** The message queues between the two layers. L1 keeps its queues in storage; each L2 block carries L2's queues. A block
    reads some earlier state of L1, and blocks reach L1 late, repeatedly, out of order or never. */
module Queues {

  type Data = string
  type Queue = map<nat, Data>

  /** What the layers answer: L1's answer may depend on the chain it runs on, L2's only on the message. */
  datatype Env = Env(l1Reply: (nat, nat, Data) -> Data, l2Reply: (nat, Data) -> Data)

  /** L1's record; handled lists the messages given to its handler, oldest first. */
  datatype L1 = L1(
    nextMessageId: nat, nextL2Id: nat, outgoing: Queue, responses: Queue, stored: Queue, handled: seq<(nat, Data)>)

  datatype L2 = L2(nextMessageId: nat, outgoing: Queue, responses: Queue)

  const L1_START := L1(0, 0, map[], map[], map[], [])
  const L2_START := L2(0, map[], map[])

  // ---- one layer at a time ----

  function SendL1(l1: L1, data: Data): L1 {
    l1.(outgoing := l1.outgoing[l1.nextMessageId := data], nextMessageId := l1.nextMessageId + 1)
  }

  function SendL2(l2: L2, data: Data): L2 {
    l2.(outgoing := l2.outgoing[l2.nextMessageId := data], nextMessageId := l2.nextMessageId + 1)
  }

  function SendAll(l2: L2, txs: seq<Data>): L2
    decreases |txs|
  {
    if txs == [] then l2 else SendAll(SendL2(l2, txs[0]), txs[1..])
  }

  /** L1 handles the next message of L2. */
  function Handle(env: Env, ctx: nat, l1: L1, data: Data): L1 {
    l1.(responses := l1.responses[l1.nextL2Id := env.l1Reply(ctx, l1.nextL2Id, data)],
        nextL2Id := l1.nextL2Id + 1,
        handled := l1.handled + [(l1.nextL2Id, data)])
  }

  /** L1 handles the messages of out in sequence, as long as the next one is there. */
  function Absorb(env: Env, ctx: nat, l1: L1, out: Queue): L1
    decreases |out|
  {
    if l1.nextL2Id in out then Absorb(env, ctx, Handle(env, ctx, l1, out[l1.nextL2Id]), out - {l1.nextL2Id}) else l1
  }

  /** The entries of q that w has too. */
  function Within(q: Queue, w: Queue): (r: Queue)
    ensures forall i :: i in r <==> i in q && i in w
    ensures forall i :: i in r ==> r[i] == q[i]
  {
    map i: nat | i in q && i in w :: q[i]
  }

  /** L2's answers to the messages of q. */
  function Answers(env: Env, q: Queue): (r: Queue)
    ensures forall i :: i in r <==> i in q
    ensures forall i :: i in r ==> r[i] == env.l2Reply(i, q[i])
  {
    map i: nat | i in q :: env.l2Reply(i, q[i])
  }

  /** L1 stores the responses to its outstanding messages, which are then no longer outstanding. */
  function Acknowledge(l1: L1, responses: Queue): L1 {
    l1.(stored := l1.stored + Within(responses, l1.outgoing),
        outgoing := l1.outgoing - responses.Keys)
  }

  /** A response as L1 can be told it: the number it is filed under, the number it bears, and its content. */
  datatype Answer = Answer(filedUnder: nat, msgId: nat, data: Data)

  /** L1 stores a response filed under an outstanding message, under the number it bears. */
  function Take(l1: L1, a: Answer): L1 {
    if a.filedUnder in l1.outgoing then
      l1.(stored := l1.stored[a.msgId := a.data], outgoing := l1.outgoing - {a.filedUnder})
    else l1
  }

  function TakeEach(l1: L1, answers: seq<Answer>): L1
    decreases |answers|
  {
    if answers == [] then l1 else TakeEach(Take(l1, answers[0]), answers[1..])
  }

  /** L1 takes a submitted block; the flag says whether anything was processed. */
  function OnL2Block(env: Env, ctx: nat, l1: L1, block: L2): (L1, bool) {
    var absorbed := Absorb(env, ctx, l1, block.outgoing);
    (Acknowledge(absorbed, block.responses),
     absorbed.nextL2Id != l1.nextL2Id || exists i :: i in block.responses && i in l1.outgoing)
  }

  /** The next block: L2 drops the responses L1 no longer waits for, answers L1's outstanding messages, and sends what the
      transactions of the block send. */
  function BuildBlock(env: Env, l2: L2, seen: L1, txs: seq<Data>): L2 {
    SendAll(l2.(responses := Within(l2.responses, seen.outgoing) + Answers(env, seen.outgoing)), txs)
  }

  // ---- the two layers together ----

  /** L1's states so far, the L2 blocks with the L1 state each of them read, and all messages either side ever sent. */
  datatype World = World(history: seq<L1>, chain: seq<L2>, views: seq<nat>, sentByL1: seq<Data>, sentByL2: seq<Data>)

  datatype Op =
    | SayHi(data: Data)
    | Build(view: nat, txs: seq<Data>)
    | Submit(block: nat, ctx: nat)
    | ProcessResponses(answers: seq<Answer>)

  const START := World([L1_START], [], [], [], [])

  function Now(w: World): L1
    requires w.history != []
  {
    w.history[|w.history| - 1]
  }

  function Tip(w: World): L2 {
    if w.chain == [] then L2_START else w.chain[|w.chain| - 1]
  }

  /** An operation can happen when it names an L1 state or a block that exists; the answers L1 is told to process can be
      anybody's. */
  predicate Enabled(w: World, op: Op) {
    match op
    case SayHi(_) => true
    case Build(view, _) => view < |w.history|
    case Submit(k, _) => k < |w.chain|
    case ProcessResponses(_) => true
  }

  /** A submitted block is saved only if something in it was processed. */
  function Step(env: Env, w: World, op: Op): World
    requires w.history != []
  {
    if !Enabled(w, op) then w
    else
      match op
      case SayHi(data) => w.(history := w.history + [SendL1(Now(w), data)], sentByL1 := w.sentByL1 + [data])
      case Build(view, txs) =>
        w.(chain := w.chain + [BuildBlock(env, Tip(w), w.history[view], txs)],
           views := w.views + [view], sentByL2 := w.sentByL2 + txs)
      case Submit(k, ctx) =>
        var (l1, processed) := OnL2Block(env, ctx, Now(w), w.chain[k]);
        if processed then w.(history := w.history + [l1]) else w
      case ProcessResponses(answers) => w.(history := w.history + [TakeEach(Now(w), answers)])
  }

  function Run(env: Env, w: World, ops: seq<Op>): World
    requires w.history != []
    decreases |ops|
  {
    if ops == [] then w else Run(env, Step(env, w, ops[0]), ops[1..])
  }

  // ---- what holds throughout ----

  /** The messages of a sequence, keyed by their position. */
  function Numbered(s: seq<Data>): (q: Queue)
    ensures forall i :: i in q <==> 0 <= i < |s|
    ensures forall i :: i in q ==> q[i] == s[i]
  {
    map i: nat | i < |s| :: s[i]
  }

  /** L1 waits only for answers to messages it sent. */
  ghost predicate Sent(l1: L1, sent: seq<Data>) {
    && l1.nextMessageId <= |sent|
    && forall i :: i in l1.outgoing ==> 0 <= i < l1.nextMessageId && l1.outgoing[i] == sent[i]
  }

  /** L1 waits for or has stored an answer to each of its messages, never both. */
  ghost predicate Answered(l1: L1) {
    && (forall i :: i in l1.stored ==> i < l1.nextMessageId)
    && (forall i :: 0 <= i < l1.nextMessageId ==> (i in l1.outgoing <==> i !in l1.stored))
  }

  /** What L1 stored is L2's answer to the message it had sent under that number. */
  ghost predicate Truthful(env: Env, l1: L1, sent: seq<Data>) {
    forall i :: i in l1.stored ==> i < l1.nextMessageId && i < |sent| && l1.stored[i] == env.l2Reply(i, sent[i])
  }

  /** What a call with these responses stores: under each number borne by one that is filed under an outstanding message, the
      content of the last such response. */
  function Told(l1: L1, answers: seq<Answer>): Queue
    decreases |answers|
  {
    if answers == [] then map[]
    else
      var a := answers[0];
      (if a.filedUnder in l1.outgoing then map[a.msgId := a.data] else map[]) + Told(Take(l1, a), answers[1..])
  }

  /** The outstanding messages that responses are filed under. */
  function Filed(l1: L1, answers: seq<Answer>): set<nat> {
    set a | a in answers && a.filedUnder in l1.outgoing :: a.filedUnder
  }

  /** The responses bear, all together, the numbers they are filed under. */
  predicate Balanced(l1: L1, answers: seq<Answer>) {
    Told(l1, answers).Keys == Filed(l1, answers)
  }

  /** The responses that are stored bear numbers of messages that were sent, and are L2's answers to those messages. */
  ghost predicate Honest(env: Env, l1: L1, answers: seq<Answer>, sent: seq<Data>) {
    var told := Told(l1, answers);
    forall i :: i in told ==> i < l1.nextMessageId && i < |sent| && told[i] == env.l2Reply(i, sent[i])
  }

  ghost predicate BalancedRun(env: Env, w: World, ops: seq<Op>)
    requires w.history != []
    decreases |ops|
  {
    ops != [] ==>
      && (ops[0].ProcessResponses? ==> Balanced(Now(w), ops[0].answers))
      && BalancedRun(env, Step(env, w, ops[0]), ops[1..])
  }

  ghost predicate HonestRun(env: Env, w: World, ops: seq<Op>)
    requires w.history != []
    decreases |ops|
  {
    ops != [] ==>
      && (ops[0].ProcessResponses? ==> Honest(env, Now(w), ops[0].answers, w.sentByL1))
      && HonestRun(env, Step(env, w, ops[0]), ops[1..])
  }

  ghost predicate AllAnswered(history: seq<L1>) {
    forall h :: 0 <= h < |history| ==> Answered(history[h])
  }

  ghost predicate AllTruthful(env: Env, history: seq<L1>, sent: seq<Data>) {
    forall h :: 0 <= h < |history| ==> Truthful(env, history[h], sent)
  }

  /** L1 has handled exactly the first messages of L2, in order. */
  ghost predicate InOrder(l1: L1, sent: seq<Data>) {
    && l1.nextL2Id == |l1.handled| <= |sent|
    && forall i :: 0 <= i < |l1.handled| ==> l1.handled[i] == (i, sent[i])
  }

  /** A block carries the first messages of L2, and the answers to what the L1 state it read was waiting for. */
  ghost predicate Genuine(env: Env, block: L2, seen: L1, sentByL2: seq<Data>) {
    && block.nextMessageId <= |sentByL2|
    && block.outgoing == Numbered(sentByL2[..block.nextMessageId])
    && block.responses.Keys == seen.outgoing.Keys
    && forall i :: i in block.responses ==> block.responses[i] == env.l2Reply(i, seen.outgoing[i])
  }

  /** l is a later state of L1 than e: it sent no fewer messages, and no answered message waits again. */
  ghost predicate Later(l: L1, e: L1) {
    && e.nextMessageId <= l.nextMessageId
    && forall i :: i in l.outgoing && i < e.nextMessageId ==> i in e.outgoing
  }

  ghost predicate Inv(env: Env, w: World) {
    && w.history != [] && |w.views| == |w.chain|
    && Now(w).nextMessageId == |w.sentByL1| && Tip(w).nextMessageId == |w.sentByL2|
    && (forall h :: 0 <= h < |w.history| ==> Sent(w.history[h], w.sentByL1))
    && (forall h, g :: 0 <= h <= g < |w.history| ==> Later(w.history[g], w.history[h]))
    && InOrder(Now(w), w.sentByL2)
    && (forall k :: 0 <= k < |w.chain| ==> w.views[k] < |w.history| && Genuine(env, w.chain[k], w.history[w.views[k]], w.sentByL2))
    && (forall j, k :: 0 <= j <= k < |w.chain| ==> w.chain[j].nextMessageId <= w.chain[k].nextMessageId)
  }

  // ---- single calls ----

  /** L1 handles exactly the messages of the block it has not handled yet. */
  lemma {:induction false} AbsorbInOrder(env: Env, ctx: nat, l1: L1, out: Queue, sent: seq<Data>, n: nat)
    requires InOrder(l1, sent) && n <= |sent|
    requires forall i :: l1.nextL2Id <= i ==> (i in out <==> i < n)
    requires forall i :: l1.nextL2Id <= i < n ==> i in out && out[i] == sent[i]
    ensures InOrder(Absorb(env, ctx, l1, out), sent)
    ensures Absorb(env, ctx, l1, out).nextL2Id == if l1.nextL2Id < n then n else l1.nextL2Id
    ensures l1.handled <= Absorb(env, ctx, l1, out).handled
    decreases |out|
  {
    if l1.nextL2Id in out {
      AbsorbInOrder(env, ctx, Handle(env, ctx, l1, out[l1.nextL2Id]), out - {l1.nextL2Id}, sent, n);
    }
  }

  lemma {:induction false} AbsorbFrame(env: Env, ctx: nat, l1: L1, out: Queue)
    ensures
      var r := Absorb(env, ctx, l1, out);
      && r.nextMessageId == l1.nextMessageId && r.outgoing == l1.outgoing && r.stored == l1.stored
      && r.nextL2Id !in out && r.nextL2Id >= l1.nextL2Id && (r.nextL2Id == l1.nextL2Id ==> r == l1)
    decreases |out|
  {
    if l1.nextL2Id in out {
      AbsorbFrame(env, ctx, Handle(env, ctx, l1, out[l1.nextL2Id]), out - {l1.nextL2Id});
    }
  }

  /** A block in which nothing was processed would not have changed L1, so not saving it loses nothing. */
  lemma NothingProcessed(env: Env, ctx: nat, l1: L1, block: L2)
    requires !OnL2Block(env, ctx, l1, block).1
    ensures OnL2Block(env, ctx, l1, block).0 == l1
  {
    AbsorbFrame(env, ctx, l1, block.outgoing);
    assert l1.outgoing - block.responses.Keys == l1.outgoing;
    assert l1.stored + Within(block.responses, l1.outgoing) == l1.stored;
  }

  /** Submitting a block again changes nothing. */
  lemma RepeatedBlock(env: Env, ctx: nat, l1: L1, block: L2, later: nat)
    ensures !OnL2Block(env, later, OnL2Block(env, ctx, l1, block).0, block).1
  {
    AbsorbFrame(env, ctx, l1, block.outgoing);
    var once := OnL2Block(env, ctx, l1, block).0;
    assert Absorb(env, later, once, block.outgoing) == once;
  }

  lemma AcknowledgeKeeps(l1: L1, responses: Queue, sent: seq<Data>)
    requires Sent(l1, sent)
    ensures Sent(Acknowledge(l1, responses), sent)
    ensures Later(Acknowledge(l1, responses), l1)
  {
  }

  lemma {:induction false} TakeKeeps(l1: L1, answers: seq<Answer>, sent: seq<Data>)
    requires Sent(l1, sent)
    ensures Sent(TakeEach(l1, answers), sent) && Later(TakeEach(l1, answers), l1)
    ensures
      var r := TakeEach(l1, answers);
      r.nextMessageId == l1.nextMessageId && r.nextL2Id == l1.nextL2Id && r.handled == l1.handled
    decreases |answers|
  {
    if answers != [] {
      TakeKeeps(Take(l1, answers[0]), answers[1..], sent);
    }
  }

  lemma {:induction false} SendAllEffect(l2: L2, txs: seq<Data>, sent: seq<Data>)
    requires l2.nextMessageId == |sent| && l2.outgoing == Numbered(sent)
    ensures SendAll(l2, txs).nextMessageId == |sent| + |txs|
    ensures SendAll(l2, txs).outgoing == Numbered(sent + txs)
    ensures SendAll(l2, txs).responses == l2.responses
    decreases |txs|
  {
    if txs != [] {
      assert SendL2(l2, txs[0]).outgoing == Numbered(sent + [txs[0]]);
      SendAllEffect(SendL2(l2, txs[0]), txs[1..], sent + [txs[0]]);
      assert sent + [txs[0]] + txs[1..] == sent + txs;
    } else {
      assert sent + txs == sent;
    }
  }

  // ---- every step ----

  lemma LaterTransitive(a: L1, b: L1, c: L1)
    requires Later(b, a) && Later(c, b)
    ensures Later(c, a)
  {
  }

  /** Appending a new state of L1 keeps the invariant. */
  lemma L1Moves(env: Env, w: World, l1: L1, sent: seq<Data>)
    requires Inv(env, w) && w.sentByL1 <= sent
    requires l1.nextMessageId == |sent| && Sent(l1, sent) && Later(l1, Now(w)) && InOrder(l1, w.sentByL2)
    ensures Inv(env, w.(history := w.history + [l1], sentByL1 := sent))
  {
    var w' := w.(history := w.history + [l1], sentByL1 := sent);
    forall h | 0 <= h < |w'.history| ensures Sent(w'.history[h], sent) {
      if h < |w.history| { assert Sent(w.history[h], w.sentByL1); }
    }
    forall h, g | 0 <= h <= g < |w'.history| ensures Later(w'.history[g], w'.history[h]) {
      if g == |w.history| && h < g {
        LaterTransitive(w.history[h], Now(w), l1);
      }
    }
    hide Sent, Later, InOrder, Genuine;
    forall k | 0 <= k < |w'.chain|
      ensures w'.views[k] < |w'.history| && Genuine(env, w'.chain[k], w'.history[w'.views[k]], w'.sentByL2)
    {
      assert Genuine(env, w.chain[k], w.history[w.views[k]], w.sentByL2);
    }
  }

  lemma BuildGenuine(env: Env, l2: L2, seen: L1, txs: seq<Data>, sent: seq<Data>)
    requires l2.nextMessageId == |sent| && l2.outgoing == Numbered(sent)
    ensures Genuine(env, BuildBlock(env, l2, seen, txs), seen, sent + txs)
    ensures BuildBlock(env, l2, seen, txs).nextMessageId == |sent| + |txs|
  {
    assert Within(l2.responses, seen.outgoing) + Answers(env, seen.outgoing) == Answers(env, seen.outgoing);
    SendAllEffect(l2.(responses := Answers(env, seen.outgoing)), txs, sent);
    assert (sent + txs)[..|sent| + |txs|] == sent + txs;
  }

  lemma GenuineExtends(env: Env, block: L2, seen: L1, sent: seq<Data>, more: seq<Data>)
    requires Genuine(env, block, seen, sent)
    ensures Genuine(env, block, seen, sent + more)
  {
    assert (sent + more)[..block.nextMessageId] == sent[..block.nextMessageId];
  }

  lemma BuildKeeps(env: Env, w: World, view: nat, txs: seq<Data>)
    requires Inv(env, w) && view < |w.history|
    ensures Inv(env, Step(env, w, Build(view, txs)))
  {
    var w' := Step(env, w, Build(view, txs));
    TipQueue(env, w);
    BuildGenuine(env, Tip(w), w.history[view], txs, w.sentByL2);
    forall k | 0 <= k < |w.chain| ensures Genuine(env, w.chain[k], w.history[w.views[k]], w'.sentByL2) {
      GenuineExtends(env, w.chain[k], w.history[w.views[k]], w.sentByL2, txs);
    }
    hide Sent, Later, Genuine, BuildBlock;
    assert InOrder(Now(w'), w'.sentByL2);
    hide InOrder;
  }

  lemma TipQueue(env: Env, w: World)
    requires Inv(env, w)
    ensures Tip(w).outgoing == Numbered(w.sentByL2)
  {
    if w.chain != [] {
      assert Genuine(env, Tip(w), w.history[w.views[|w.chain| - 1]], w.sentByL2);
      assert w.sentByL2[..|w.sentByL2|] == w.sentByL2;
    }
  }

  /** The responses of a genuine block answer what L1 sent. */
  lemma ResponsesGenuine(env: Env, w: World, k: nat)
    requires Inv(env, w) && k < |w.chain|
    ensures forall i :: i in w.chain[k].responses ==>
      0 <= i < |w.sentByL1| && w.chain[k].responses[i] == env.l2Reply(i, w.sentByL1[i])
  {
    var seen := w.history[w.views[k]];
    assert Genuine(env, w.chain[k], seen, w.sentByL2) && Sent(seen, w.sentByL1);
  }

  lemma SubmitKeeps(env: Env, w: World, k: nat, ctx: nat)
    requires Inv(env, w) && k < |w.chain|
    ensures Inv(env, w.(history := w.history + [OnL2Block(env, ctx, Now(w), w.chain[k]).0]))
    ensures OnL2Block(env, ctx, Now(w), w.chain[k]).0.nextL2Id >= w.chain[k].nextMessageId
  {
    var l1, block := Now(w), w.chain[k];
    var absorbed := Absorb(env, ctx, l1, block.outgoing);
    assert Genuine(env, block, w.history[w.views[k]], w.sentByL2);
    AbsorbInOrder(env, ctx, l1, block.outgoing, w.sentByL2, block.nextMessageId);
    AbsorbFrame(env, ctx, l1, block.outgoing);
    assert Sent(l1, w.sentByL1);
    AcknowledgeKeeps(absorbed, block.responses, w.sentByL1);
    L1Moves(env, w, Acknowledge(absorbed, block.responses), w.sentByL1);
    hide Inv, Sent, Later, Genuine, Absorb;
  }

  lemma StepKeeps(env: Env, w: World, op: Op)
    requires Inv(env, w)
    ensures Inv(env, Step(env, w, op))
  {
    if Enabled(w, op) {
      match op {
        case SayHi(data) =>
          var l1 := Now(w);
          assert Sent(l1, w.sentByL1);
          assert Sent(SendL1(l1, data), w.sentByL1 + [data]);
          L1Moves(env, w, SendL1(l1, data), w.sentByL1 + [data]);
        case Build(view, txs) => BuildKeeps(env, w, view, txs);
        case Submit(k, ctx) => SubmitKeeps(env, w, k, ctx);
        case ProcessResponses(answers) =>
          assert Sent(Now(w), w.sentByL1);
          TakeKeeps(Now(w), answers, w.sentByL1);
          L1Moves(env, w, TakeEach(Now(w), answers), w.sentByL1);
      }
    }
  }

  lemma {:induction false} RunKeeps(env: Env, w: World, ops: seq<Op>)
    requires Inv(env, w)
    ensures Inv(env, Run(env, w, ops))
    decreases |ops|
  {
    if ops != [] {
      StepKeeps(env, w, ops[0]);
      hide Inv, Step;
      RunKeeps(env, Step(env, w, ops[0]), ops[1..]);
    }
  }

  // ---- what L1 is told outside of blocks ----

  /** A call stores what is told and clears what it is filed under; it never stores more than it clears. */
  lemma TakeEachEffect(l1: L1, answers: seq<Answer>)
    ensures TakeEach(l1, answers).stored == l1.stored + Told(l1, answers)
    ensures TakeEach(l1, answers).outgoing == l1.outgoing - Filed(l1, answers)
    ensures TakeEach(l1, answers).nextMessageId == l1.nextMessageId
    ensures |Told(l1, answers)| <= |Filed(l1, answers)|
  {
    hide *;
    TakeEachStores(l1, answers);
    TakeEachClears(l1, answers);
    ToldSize(l1, answers);
  }

  lemma {:induction false} TakeEachStores(l1: L1, answers: seq<Answer>)
    ensures TakeEach(l1, answers).stored == l1.stored + Told(l1, answers)
    decreases |answers|
  {
    if answers == [] {
      assert l1.stored + map[] == l1.stored;
    } else {
      var a, rest := answers[0], answers[1..];
      TakeEachStores(Take(l1, a), rest);
      assert answers == [a] + rest;
      ToldFirst(l1, a, rest);
      assert TakeEach(l1, answers) == TakeEach(Take(l1, a), rest);
      hide Told, TakeEach;
      if a.filedUnder in l1.outgoing {
        PutThenAdd(l1.stored, a.msgId, a.data, Told(Take(l1, a), rest));
      }
    }
  }

  lemma {:induction false} TakeEachClears(l1: L1, answers: seq<Answer>)
    ensures TakeEach(l1, answers).outgoing == l1.outgoing - Filed(l1, answers)
    ensures TakeEach(l1, answers).nextMessageId == l1.nextMessageId
    decreases |answers|
  {
    if answers == [] {
      assert l1.outgoing - {} == l1.outgoing;
    } else {
      var a, rest := answers[0], answers[1..];
      TakeEachClears(Take(l1, a), rest);
      assert answers == [a] + rest;
      FiledFirst(l1, a, rest);
      assert TakeEach(l1, answers) == TakeEach(Take(l1, a), rest);
      hide Filed, TakeEach;
      if a.filedUnder in l1.outgoing {
        RemoveTwice(l1.outgoing, a.filedUnder, Filed(Take(l1, a), rest));
      } else {
        assert Filed(Take(l1, a), rest) + {} == Filed(Take(l1, a), rest);
      }
    }
  }

  lemma {:induction false} ToldSize(l1: L1, answers: seq<Answer>)
    ensures |Told(l1, answers)| <= |Filed(l1, answers)|
    decreases |answers|
  {
    if answers != [] {
      var a, rest := answers[0], answers[1..];
      ToldSize(Take(l1, a), rest);
      assert answers == [a] + rest;
      FiledFirst(l1, a, rest);
      ToldFirst(l1, a, rest);
      hide *;
      var fewer := Filed(Take(l1, a), rest);
      if a.filedUnder in l1.outgoing {
        OneMore(a.msgId, a.data, Told(Take(l1, a), rest));
        OneBigger(fewer, a.filedUnder);
      } else {
        assert fewer + {} == fewer;
      }
    }
  }

  lemma OneBigger(s: set<nat>, i: nat)
    requires i !in s
    ensures |s + {i}| == |s| + 1
  {
  }

  lemma ToldFirst(l1: L1, a: Answer, rest: seq<Answer>)
    ensures Told(l1, [a] + rest)
         == if a.filedUnder in l1.outgoing then map[a.msgId := a.data] + Told(Take(l1, a), rest) else Told(Take(l1, a), rest)
  {
    assert ([a] + rest)[1..] == rest;
    assert map[] + Told(Take(l1, a), rest) == Told(Take(l1, a), rest);
  }

  lemma FiledFirst(l1: L1, a: Answer, rest: seq<Answer>)
    ensures a.filedUnder !in Filed(Take(l1, a), rest)
    ensures Filed(l1, [a] + rest) == Filed(Take(l1, a), rest) + if a.filedUnder in l1.outgoing then {a.filedUnder} else {}
  {
    var all, fewer := Filed(l1, [a] + rest), Filed(Take(l1, a), rest);
    forall f | f in all && f != a.filedUnder ensures f in fewer {
      var b :| b in [a] + rest && b.filedUnder in l1.outgoing && b.filedUnder == f;
      assert b in rest;
    }
    forall f | f in fewer ensures f in all {
      var b :| b in rest && b.filedUnder in Take(l1, a).outgoing && b.filedUnder == f;
      assert b in [a] + rest;
    }
    assert a in [a] + rest;
  }

  lemma PutThenAdd(q: Queue, i: nat, data: Data, more: Queue)
    ensures q[i := data] + more == q + (map[i := data] + more)
  {
  }

  lemma RemoveTwice(q: Queue, i: nat, ids: set<nat>)
    ensures q - {i} - ids == q - (ids + {i})
  {
  }

  lemma OneMore(i: nat, data: Data, more: Queue)
    ensures |map[i := data] + more| <= |more| + 1
  {
    assert (map[i := data] + more).Keys == {i} + more.Keys;
    if i in more {
      assert {i} + more.Keys == more.Keys;
    }
  }

  /** A call keeps the account of L1's messages exactly when its responses bear, all together, the numbers they are filed under. */
  lemma TakeAnswered(l1: L1, answers: seq<Answer>)
    requires Answered(l1) && forall i :: i in l1.outgoing ==> i < l1.nextMessageId
    ensures Answered(TakeEach(l1, answers)) <==> Balanced(l1, answers)
  {
    TakeEachEffect(l1, answers);
    var told, filed, after := Told(l1, answers), Filed(l1, answers), TakeEach(l1, answers);
    assert filed <= l1.outgoing.Keys;
    assert after.stored.Keys == l1.stored.Keys + told.Keys && after.outgoing.Keys == l1.outgoing.Keys - filed;
    hide Told, Filed, TakeEach;
    AccountOf(l1);
    AccountOf(after);
    hide Answered;
    MovedAccount(l1.nextMessageId, l1.outgoing.Keys, l1.stored.Keys, filed, told.Keys);
  }

  /** Up to n, each number is in exactly one of the two sets, and the second holds nothing beyond n. */
  predicate Account(n: nat, waiting: set<nat>, stored: set<nat>) {
    && (forall i :: i in stored ==> i < n)
    && (forall i :: 0 <= i < n ==> (i in waiting <==> i !in stored))
  }

  lemma AccountOf(l1: L1)
    ensures Answered(l1) <==> Account(l1.nextMessageId, l1.outgoing.Keys, l1.stored.Keys)
  {
  }

  lemma MovedAccount(n: nat, waiting: set<nat>, stored: set<nat>, filed: set<nat>, told: set<nat>)
    requires Account(n, waiting, stored) && (forall i :: i in waiting ==> i < n)
    requires filed <= waiting && |told| <= |filed|
    ensures Account(n, waiting - filed, stored + told) <==> told == filed
  {
    if Account(n, waiting - filed, stored + told) {
      forall i | i in filed ensures i in told {
        assert i !in waiting - filed;
      }
      SameSize(filed, told);
    }
  }

  lemma SameSize(a: set<nat>, b: set<nat>)
    requires a <= b && |b| <= |a|
    ensures a == b
  {
    assert b == a + (b - a) && |b| == |a| + |b - a|;
    assert b - a == {};
  }

  /** A call keeps what is stored true exactly when what it stores is true. */
  lemma TakeTruthful(env: Env, l1: L1, answers: seq<Answer>, sent: seq<Data>)
    requires Truthful(env, l1, sent)
    ensures Truthful(env, TakeEach(l1, answers), sent) <==> Honest(env, l1, answers, sent)
  {
    TakeEachEffect(l1, answers);
    hide Told, Filed, TakeEach, Truthful;
    AddTruthful(env, l1, Told(l1, answers), TakeEach(l1, answers), sent);
  }

  lemma AddTruthful(env: Env, l1: L1, told: Queue, after: L1, sent: seq<Data>)
    requires Truthful(env, l1, sent) && after.stored == l1.stored + told && after.nextMessageId == l1.nextMessageId
    ensures Truthful(env, after, sent) <==>
      forall i :: i in told ==> i < l1.nextMessageId && i < |sent| && told[i] == env.l2Reply(i, sent[i])
  {
    if Truthful(env, after, sent) {
      forall i | i in told ensures i < l1.nextMessageId && i < |sent| && told[i] == env.l2Reply(i, sent[i]) {
        assert i in after.stored;
      }
    }
  }

  /** What is stored comes from one of the responses. */
  lemma {:induction false} ToldBy(l1: L1, answers: seq<Answer>, i: nat)
    requires i in Told(l1, answers)
    ensures exists a :: a in answers && a.filedUnder in l1.outgoing && a.msgId == i && a.data == Told(l1, answers)[i]
    decreases |answers|
  {
    var next, rest := Take(l1, answers[0]), answers[1..];
    if i in Told(next, rest) {
      ToldBy(next, rest, i);
      var a :| a in rest && a.filedUnder in next.outgoing && a.msgId == i && a.data == Told(next, rest)[i];
      assert a in answers;
    } else {
      assert answers[0] in answers;
    }
  }

  /** The responses of a block, told outside of a submission, meet both conditions. */
  lemma BlockAnswers(env: Env, w: World, k: nat, answers: seq<Answer>)
    requires Inv(env, w) && Answered(Now(w)) && k < |w.chain|
    requires forall a :: a in answers ==>
      a.msgId == a.filedUnder && a.filedUnder in w.chain[k].responses && a.data == w.chain[k].responses[a.filedUnder]
    ensures Balanced(Now(w), answers) && Honest(env, Now(w), answers, w.sentByL1)
  {
    var l1, told := Now(w), Told(Now(w), answers);
    ResponsesGenuine(env, w, k);
    assert Sent(l1, w.sentByL1);
    TakeEachEffect(l1, answers);
    hide Inv, Answered, Sent, Told, TakeEach;
    forall i | i in told ensures i in Filed(l1, answers) && told[i] == env.l2Reply(i, w.sentByL1[i]) {
      ToldBy(l1, answers, i);
    }
    LabelledBalanced(l1, answers);
  }

  /** Responses that bear the numbers they are filed under keep the account. */
  lemma {:induction false} LabelledBalanced(l1: L1, answers: seq<Answer>)
    requires forall a :: a in answers ==> a.msgId == a.filedUnder
    ensures Balanced(l1, answers)
    decreases |answers|
  {
    if answers != [] {
      var a, rest := answers[0], answers[1..];
      assert answers == [a] + rest && a in answers;
      LabelledBalanced(Take(l1, a), rest);
      FiledFirst(l1, a, rest);
      ToldFirst(l1, a, rest);
      hide Told, Filed, Take;
    }
  }

  // ---- runs ----

  lemma StepGrows(env: Env, w: World, op: Op)
    requires w.history != []
    ensures w.history <= Step(env, w, op).history && w.sentByL1 <= Step(env, w, op).sentByL1
  {
  }

  lemma {:induction false} RunGrows(env: Env, w: World, ops: seq<Op>)
    requires w.history != []
    ensures w.history <= Run(env, w, ops).history && w.sentByL1 <= Run(env, w, ops).sentByL1
    decreases |ops|
  {
    if ops != [] {
      StepGrows(env, w, ops[0]);
      hide Step;
      RunGrows(env, Step(env, w, ops[0]), ops[1..]);
    }
  }

  lemma AcknowledgeAnswered(l1: L1, responses: Queue, sent: seq<Data>)
    requires Sent(l1, sent) && Answered(l1)
    ensures Answered(Acknowledge(l1, responses))
  {
  }

  lemma AcknowledgeTruthful(env: Env, l1: L1, responses: Queue, sent: seq<Data>)
    requires Sent(l1, sent) && Truthful(env, l1, sent)
    requires forall i :: i in responses && i in l1.outgoing ==> responses[i] == env.l2Reply(i, sent[i])
    ensures Truthful(env, Acknowledge(l1, responses), sent)
  {
  }

  lemma SubmitAnswered(env: Env, w: World, k: nat, ctx: nat)
    requires Inv(env, w) && k < |w.chain|
    ensures
      var l1 := OnL2Block(env, ctx, Now(w), w.chain[k]).0;
      && (Answered(Now(w)) ==> Answered(l1))
      && (Truthful(env, Now(w), w.sentByL1) ==> Truthful(env, l1, w.sentByL1))
  {
    assert Sent(Now(w), w.sentByL1);
    ResponsesGenuine(env, w, k);
    AbsorbFrame(env, ctx, Now(w), w.chain[k].outgoing);
    var absorbed := Absorb(env, ctx, Now(w), w.chain[k].outgoing);
    hide Inv, Absorb, Acknowledge;
    if Answered(Now(w)) {
      AcknowledgeAnswered(absorbed, w.chain[k].responses, w.sentByL1);
    }
    if Truthful(env, Now(w), w.sentByL1) {
      AcknowledgeTruthful(env, absorbed, w.chain[k].responses, w.sentByL1);
    }
  }

  lemma AnsweredOneMore(history: seq<L1>, l1: L1)
    ensures AllAnswered(history + [l1]) <==> AllAnswered(history) && Answered(l1)
  {
    hide Answered;
    if AllAnswered(history + [l1]) {
      assert (history + [l1])[|history|] == l1;
      assert forall h :: 0 <= h < |history| ==> (history + [l1])[h] == history[h];
    }
  }

  lemma TruthfulOneMore(env: Env, history: seq<L1>, l1: L1, sent: seq<Data>)
    ensures AllTruthful(env, history + [l1], sent) <==> AllTruthful(env, history, sent) && Truthful(env, l1, sent)
  {
    hide Truthful;
    if AllTruthful(env, history + [l1], sent) {
      assert (history + [l1])[|history|] == l1;
      assert forall h :: 0 <= h < |history| ==> (history + [l1])[h] == history[h];
    }
  }

  /** Of all steps only a call with unbalanced responses breaks the account. */
  lemma StepAnswered(env: Env, w: World, op: Op)
    requires Inv(env, w) && AllAnswered(w.history)
    ensures Step(env, w, op).history != []
    ensures AllAnswered(Step(env, w, op).history) <==> (op.ProcessResponses? ==> Balanced(Now(w), op.answers))
  {
    assert Answered(Now(w)) && Sent(Now(w), w.sentByL1);
    match op {
      case SayHi(data) =>
        AnsweredOneMore(w.history, SendL1(Now(w), data));
        hide AllAnswered, Inv;
      case Build(_, _) =>
      case Submit(k, ctx) =>
        if k < |w.chain| {
          SubmitAnswered(env, w, k, ctx);
          AnsweredOneMore(w.history, OnL2Block(env, ctx, Now(w), w.chain[k]).0);
          hide AllAnswered, Inv, OnL2Block;
        }
      case ProcessResponses(answers) =>
        TakeAnswered(Now(w), answers);
        AnsweredOneMore(w.history, TakeEach(Now(w), answers));
        hide AllAnswered, Inv, TakeEach;
    }
  }

  /** Of all steps only a call that stores a false answer makes what is stored false. */
  lemma StepTruthful(env: Env, w: World, op: Op)
    requires Inv(env, w) && AllTruthful(env, w.history, w.sentByL1)
    ensures Step(env, w, op).history != []
    ensures AllTruthful(env, Step(env, w, op).history, Step(env, w, op).sentByL1)
       <==> (op.ProcessResponses? ==> Honest(env, Now(w), op.answers, w.sentByL1))
  {
    assert Truthful(env, Now(w), w.sentByL1) && Sent(Now(w), w.sentByL1);
    match op {
      case SayHi(data) =>
        SendTruthful(env, w, data);
        hide AllTruthful, Inv;
      case Build(_, _) =>
      case Submit(k, ctx) =>
        if k < |w.chain| {
          SubmitAnswered(env, w, k, ctx);
          TruthfulOneMore(env, w.history, OnL2Block(env, ctx, Now(w), w.chain[k]).0, w.sentByL1);
          hide AllTruthful, Inv, OnL2Block;
        }
      case ProcessResponses(answers) =>
        TakeTruthful(env, Now(w), answers, w.sentByL1);
        TruthfulOneMore(env, w.history, TakeEach(Now(w), answers), w.sentByL1);
        hide AllTruthful, Inv, TakeEach;
    }
  }

  lemma SendTruthful(env: Env, w: World, data: Data)
    requires Inv(env, w) && AllTruthful(env, w.history, w.sentByL1)
    ensures AllTruthful(env, w.history + [SendL1(Now(w), data)], w.sentByL1 + [data])
  {
    var l1, sent := Now(w), w.sentByL1 + [data];
    assert forall i :: 0 <= i < |w.sentByL1| ==> sent[i] == w.sentByL1[i];
    assert Truthful(env, l1, w.sentByL1);
    assert AllTruthful(env, w.history, sent);
    TruthfulOneMore(env, w.history, SendL1(l1, data), sent);
    hide AllTruthful, Inv;
  }

  /** A state of the run that fails stays in its history. */
  lemma {:induction false} RunAnswered(env: Env, w: World, ops: seq<Op>)
    requires Inv(env, w) && AllAnswered(w.history)
    ensures Run(env, w, ops).history != []
    ensures AllAnswered(Run(env, w, ops).history) <==> BalancedRun(env, w, ops)
    decreases |ops|
  {
    if ops != [] {
      StepKeeps(env, w, ops[0]);
      StepAnswered(env, w, ops[0]);
      var w' := Step(env, w, ops[0]);
      RunGrows(env, w', ops[1..]);
      hide Inv, Step, Balanced, Answered;
      if AllAnswered(w'.history) {
        RunAnswered(env, w', ops[1..]);
      } else {
        var h :| 0 <= h < |w'.history| && !Answered(w'.history[h]);
        assert Run(env, w', ops[1..]).history[h] == w'.history[h];
      }
    }
  }

  lemma {:induction false} RunTruthful(env: Env, w: World, ops: seq<Op>)
    requires Inv(env, w) && AllTruthful(env, w.history, w.sentByL1)
    ensures Run(env, w, ops).history != []
    ensures AllTruthful(env, Run(env, w, ops).history, Run(env, w, ops).sentByL1) <==> HonestRun(env, w, ops)
    decreases |ops|
  {
    if ops != [] {
      StepKeeps(env, w, ops[0]);
      StepTruthful(env, w, ops[0]);
      var w' := Step(env, w, ops[0]);
      RunGrows(env, w', ops[1..]);
      hide Step, Honest;
      if AllTruthful(env, w'.history, w'.sentByL1) {
        hide Inv, Truthful;
        RunTruthful(env, w', ops[1..]);
      } else {
        var h :| 0 <= h < |w'.history| && !Truthful(env, w'.history[h], w'.sentByL1);
        assert Sent(w'.history[h], w'.sentByL1);
        hide Inv;
        StaysFalse(env, w'.history[h], w'.sentByL1, Run(env, w', ops[1..]).sentByL1);
        hide Truthful;
        assert Run(env, w', ops[1..]).history[h] == w'.history[h];
      }
    }
  }

  lemma StaysFalse(env: Env, l1: L1, sent: seq<Data>, more: seq<Data>)
    requires l1.nextMessageId <= |sent| && sent <= more
    ensures Truthful(env, l1, sent) <==> Truthful(env, l1, more)
  {
  }

  // ---- the agreement of the layers, over every run ----

  /** However blocks are built and submitted, and whatever L1 is told outside of blocks: L1 has handled L2's messages exactly once
      each, in the order 0, 1, 2, ..., and waits only for answers to messages it sent. */
  lemma Agreement(env: Env, ops: seq<Op>)
    ensures Run(env, START, ops).history != []
    ensures
      var w := Run(env, START, ops);
      var l1 := Now(w);
      && l1.nextL2Id == |l1.handled| <= |w.sentByL2|
      && (forall i :: 0 <= i < |l1.handled| ==> l1.handled[i] == (i, w.sentByL2[i]))
      && l1.nextMessageId == |w.sentByL1|
      && (forall i :: i in l1.outgoing ==> 0 <= i < |w.sentByL1| && l1.outgoing[i] == w.sentByL1[i])
  {
    assert Inv(env, START);
    RunKeeps(env, START, ops);
    var w := Run(env, START, ops);
    assert Sent(Now(w), w.sentByL1);
  }

  /** In every state of the run each message of L1 is outstanding or answered but never both, if and only if the responses of
      every call outside of blocks bear, all together, the numbers they are filed under. */
  lemma AccountsKept(env: Env, ops: seq<Op>)
    ensures AllAnswered(Run(env, START, ops).history) <==> BalancedRun(env, START, ops)
  {
    assert Inv(env, START) && AllAnswered(START.history);
    RunAnswered(env, START, ops);
    hide *;
  }

  /** In every state of the run each stored response is L2's answer to the message L1 had sent under its number, if and only if
      every response stored by a call outside of blocks bears the number of a message sent and is L2's answer to it. */
  lemma AnswersAreTrue(env: Env, ops: seq<Op>)
    ensures
      AllTruthful(env, Run(env, START, ops).history, Run(env, START, ops).sentByL1) <==> HonestRun(env, START, ops)
  {
    assert Inv(env, START) && AllTruthful(env, START.history, START.sentByL1);
    RunTruthful(env, START, ops);
    hide *;
  }

  /** With nothing told outside of blocks both conditions hold. */
  lemma {:induction false} NothingTold(env: Env, w: World, ops: seq<Op>)
    requires w.history != [] && forall op :: op in ops ==> !op.ProcessResponses?
    ensures BalancedRun(env, w, ops) && HonestRun(env, w, ops)
    decreases |ops|
  {
    if ops != [] {
      assert ops[0] in ops;
      StepGrows(env, w, ops[0]);
      hide Step;
      NothingTold(env, Step(env, w, ops[0]), ops[1..]);
    }
  }

  /** Over blocks alone, whatever is lost, repeated or reordered: each message of L1 is outstanding or answered, never both, and
      what is stored for it is what L2 answered. */
  lemma BlocksAgree(env: Env, ops: seq<Op>)
    requires forall op :: op in ops ==> !op.ProcessResponses?
    ensures Run(env, START, ops).history != []
    ensures
      var w := Run(env, START, ops);
      var l1 := Now(w);
      && l1.nextMessageId == |w.sentByL1|
      && (forall i :: 0 <= i < |w.sentByL1| ==> (i in l1.outgoing <==> i !in l1.stored))
      && (forall i :: i in l1.stored ==> i < |w.sentByL1| && l1.stored[i] == env.l2Reply(i, w.sentByL1[i]))
  {
    Agreement(env, ops);
    NothingTold(env, START, ops);
    AccountsKept(env, ops);
    AnswersAreTrue(env, ops);
    hide Run, BalancedRun, HonestRun;
    var w := Run(env, START, ops);
    assert Answered(Now(w)) && Truthful(env, Now(w), w.sentByL1);
  }

  lemma RunThree(env: Env, x: Op, y: Op, z: Op)
    ensures Step(env, START, x).history != [] && Step(env, Step(env, START, x), y).history != []
    ensures Run(env, START, [x, y, z]) == Step(env, Step(env, Step(env, START, x), y), z)
  {
    assert Step(env, START, x).history != [] && Step(env, Step(env, START, x), y).history != [];
    hide Step;
    assert [x, y, z][1..] == [y, z] && [y, z][1..] == [z] && [z][1..] == [];
    assert Run(env, Step(env, Step(env, START, x), y), [z]) == Step(env, Step(env, Step(env, START, x), y), z);
    assert Run(env, Step(env, START, x), [y, z]) == Step(env, Step(env, Step(env, START, x), y), z);
  }

  /** A response filed under one message and bearing the number of another loses track of the first, and leaves the second both
      outstanding and answered. */
  lemma MislabelledAnswer(env: Env, first: Data, second: Data, data: Data)
    ensures
      var w := Run(env, START, [SayHi(first), SayHi(second), ProcessResponses([Answer(0, 1, data)])]);
      && w.history != [] && |w.sentByL1| == 2
      && 0 !in Now(w).outgoing && 0 !in Now(w).stored
      && 1 in Now(w).outgoing && 1 in Now(w).stored
  {
    var told := ProcessResponses([Answer(0, 1, data)]);
    var w1 := Step(env, START, SayHi(first));
    var w2 := Step(env, w1, SayHi(second));
    assert [Answer(0, 1, data)][1..] == [];
    assert TakeEach(Now(w2), [Answer(0, 1, data)]) == Take(Now(w2), Answer(0, 1, data));
    var w3 := Step(env, w2, told);
    RunThree(env, SayHi(first), SayHi(second), told);
  }

  // ---- delivery ----

  /** No block reads an older state of L1 than the block before it. */
  ghost predicate Forward(w: World) {
    forall j, k :: 0 <= j <= k < |w.views| ==> w.views[j] <= w.views[k]
  }

  /** A block carries the answer to a message L1 still waits on exactly when it read a state of L1 in which that message had
      been sent. */
  lemma CarriesAnswer(env: Env, w: World, k: nat, i: nat)
    requires Inv(env, w) && k < |w.chain| && i in Now(w).outgoing
    ensures i in w.chain[k].responses <==> i < w.history[w.views[k]].nextMessageId
  {
    var seen := w.history[w.views[k]];
    assert Genuine(env, w.chain[k], seen, w.sentByL2);
    assert Sent(seen, w.sentByL1);
    assert Later(Now(w), seen);
  }

  /** An answer L1 still waits for is carried by every later block. */
  lemma AnswersCarried(env: Env, w: World, j: nat, k: nat, i: nat)
    requires Inv(env, w) && Forward(w) && j <= k < |w.chain|
    requires i in Now(w).outgoing && i in w.chain[j].responses
    ensures i in w.chain[k].responses
  {
    CarriesAnswer(env, w, j, i);
    CarriesAnswer(env, w, k, i);
    assert Later(w.history[w.views[k]], w.history[w.views[j]]);
  }

  /** Submitting one block makes up for all blocks before it that never arrived: L1 has then handled every message they
      carried and waits for none of the answers they carried, having stored one to each. */
  lemma CatchUp(env: Env, w: World, j: nat, k: nat, ctx: nat)
    requires Inv(env, w) && Forward(w) && j <= k < |w.chain|
    ensures
      var l1 := OnL2Block(env, ctx, Now(w), w.chain[k]).0;
      && w.chain[j].nextMessageId <= |l1.handled|
      && forall i :: i in w.chain[j].responses ==> i !in l1.outgoing && (Answered(Now(w)) ==> i in l1.stored)
  {
    var block := w.chain[k];
    var l1 := OnL2Block(env, ctx, Now(w), block).0;
    SubmitKeeps(env, w, k, ctx);
    assert InOrder(l1, w.sentByL2) by {
      assert Now(w.(history := w.history + [l1])) == l1;
    }
    AbsorbFrame(env, ctx, Now(w), block.outgoing);
    ResponsesGenuine(env, w, j);
    assert Sent(Now(w), w.sentByL1);
    forall i | i in w.chain[j].responses ensures i in Now(w).outgoing ==> i in block.responses {
      if i in Now(w).outgoing {
        AnswersCarried(env, w, j, k, i);
      }
    }
    hide Inv, Forward, Sent, InOrder, Genuine, Later, Absorb;
  }

  /** An older block that arrives after a newer one changes nothing. */
  lemma StaleBlock(env: Env, w: World, j: nat, k: nat, ctx: nat, later: nat)
    requires Inv(env, w) && Forward(w) && j <= k < |w.chain|
    ensures !OnL2Block(env, later, OnL2Block(env, ctx, Now(w), w.chain[k]).0, w.chain[j]).1
  {
    var l1 := OnL2Block(env, ctx, Now(w), w.chain[k]).0;
    CatchUp(env, w, j, k, ctx);
    SubmitKeeps(env, w, k, ctx);
    var w' := w.(history := w.history + [l1]);
    assert Now(w') == l1;
    assert Sent(l1, w.sentByL1) && InOrder(l1, w.sentByL2);
    assert Genuine(env, w.chain[j], w.history[w.views[j]], w.sentByL2);
    assert Absorb(env, later, l1, w.chain[j].outgoing) == l1;
  }

  /** A block that reads an older state of L1 can drop an answer L1 still waits for. */
  lemma OlderViewDropsAnswer(env: Env)
    ensures
      var w := Run(env, START, [SayHi("hi"), Build(1, []), Build(0, [])]);
      && w.history != [] && |w.chain| == 2
      && 0 in Now(w).outgoing && 0 in w.chain[0].responses && 0 !in w.chain[1].responses
  {
    var w1 := Step(env, START, SayHi("hi"));
    var w2 := Step(env, w1, Build(1, []));
    var w3 := Step(env, w2, Build(0, []));
    RunThree(env, SayHi("hi"), Build(1, []), Build(0, []));
  }
}
