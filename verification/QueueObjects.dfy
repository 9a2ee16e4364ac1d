/** The queue objects of the two layers, with their dictionaries updated in place. Each method does to its object exactly
    what the protocol says. */
module QueueObjects {
  import opened Queues

  lemma RemovedCount(q: Queue, ids: set<nat>)
    ensures |q - ids| <= |q|
    ensures |q - ids| < |q| <==> exists i :: i in ids && i in q
  {
    assert (q - ids).Keys == q.Keys - ids;
    assert |q.Keys| == |q.Keys - ids| + |q.Keys * ids|;
    if i :| i in ids && i in q {
      assert i in q.Keys * ids;
    }
    if |q.Keys * ids| > 0 {
      var i :| i in q.Keys * ids;
    }
  }

  /** All the answers but those still to do have been taken. */
  ghost predicate Taken(waiting: Queue, known: Queue, answers: Queue, todo: set<nat>, out: Queue, st: Queue) {
    && out == waiting - (answers.Keys - todo)
    && st == known + Within(answers - todo, waiting)
  }

  lemma TakeNone(waiting: Queue, known: Queue, answers: Queue)
    ensures Taken(waiting, known, answers, answers.Keys, waiting, known)
  {
    assert answers - answers.Keys == map[];
  }

  lemma TakeOne(waiting: Queue, known: Queue, answers: Queue, todo: set<nat>, out: Queue, st: Queue, id: nat)
    requires Taken(waiting, known, answers, todo, out, st) && id in todo && todo <= answers.Keys
    ensures id in out ==> Taken(waiting, known, answers, todo - {id}, out - {id}, st[id := answers[id]])
    ensures id !in out ==> Taken(waiting, known, answers, todo - {id}, out, st)
    ensures id in out <==> id in waiting
  {
    TakeOneOut(waiting, answers.Keys, todo, id);
    TakeOneStored(waiting, answers, todo, id);
    hide Within;
    assert id in out <==> id in waiting;
  }

  lemma TakeOneOut(waiting: Queue, ids: set<nat>, todo: set<nat>, id: nat)
    requires id in todo && todo <= ids
    ensures waiting - (ids - (todo - {id})) == waiting - (ids - todo) - {id}
    ensures id !in waiting ==> waiting - (ids - todo) - {id} == waiting - (ids - todo)
    ensures id in waiting - (ids - todo) <==> id in waiting
  {
  }

  lemma TakeOneStored(waiting: Queue, answers: Queue, todo: set<nat>, id: nat)
    requires id in todo && todo <= answers.Keys
    ensures id in waiting ==>
      Within(answers - (todo - {id}), waiting) == Within(answers - todo, waiting)[id := answers[id]]
    ensures id !in waiting ==> Within(answers - (todo - {id}), waiting) == Within(answers - todo, waiting)
  {
  }

  lemma TakeAll(waiting: Queue, known: Queue, answers: Queue, out: Queue, st: Queue)
    requires Taken(waiting, known, answers, {}, out, st)
    ensures out == waiting - answers.Keys && st == known + Within(answers, waiting)
  {
    assert answers - {} == answers;
    assert answers.Keys - {} == answers.Keys;
  }

  /** What is answered while the messages of todo are still to do. */
  function AnsweredBut(env: Env, kept: Queue, waiting: Queue, todo: set<nat>): Queue {
    kept + Answers(env, waiting - todo)
  }

  lemma AnswerNone(env: Env, kept: Queue, waiting: Queue)
    ensures AnsweredBut(env, kept, waiting, waiting.Keys) == kept
  {
    assert Answers(env, waiting - waiting.Keys) == map[];
  }

  lemma AnswerOne(env: Env, kept: Queue, waiting: Queue, todo: set<nat>, id: nat)
    requires id in todo && id in waiting
    ensures AnsweredBut(env, kept, waiting, todo - {id}) == AnsweredBut(env, kept, waiting, todo)[id := env.l2Reply(id, waiting[id])]
  {
    AnswersOne(env, waiting, todo, id);
    UpdateRight(kept, Answers(env, waiting - todo), id, env.l2Reply(id, waiting[id]));
    hide Answers;
  }

  lemma AnswersOne(env: Env, waiting: Queue, todo: set<nat>, id: nat)
    requires id in todo && id in waiting
    ensures Answers(env, waiting - (todo - {id})) == Answers(env, waiting - todo)[id := env.l2Reply(id, waiting[id])]
  {
  }

  lemma UpdateRight(a: Queue, b: Queue, id: nat, data: Data)
    ensures a + b[id := data] == (a + b)[id := data]
  {
  }

  lemma AnswerAll(env: Env, kept: Queue, waiting: Queue)
    ensures AnsweredBut(env, kept, waiting, {}) == kept + Answers(env, waiting)
  {
    assert waiting - {} == waiting;
  }

  class L1Queue {
    var nextMessageId: nat
    var nextL2Id: nat
    var outgoing: Queue
    var responses: Queue
    var stored: Queue
    var handled: seq<(nat, Data)>

    constructor ()
      ensures Value() == L1_START
    {
      nextMessageId, nextL2Id, outgoing, responses, stored, handled := 0, 0, map[], map[], map[], [];
    }

    function Value(): L1
      reads this
    {
      L1(nextMessageId, nextL2Id, outgoing, responses, stored, handled)
    }

    method SendMessage(data: Data) returns (id: nat)
      modifies this`nextMessageId, this`outgoing
      ensures id == old(nextMessageId) && Value() == SendL1(old(Value()), data)
    {
      id := nextMessageId;
      nextMessageId := id + 1;
      outgoing := outgoing[id := data];
    }

    method ProcessIncomingMessage(env: Env, ctx: nat, data: Data)
      modifies this`responses, this`nextL2Id, this`handled
      ensures Value() == Handle(env, ctx, old(Value()), data)
    {
      var result := env.l1Reply(ctx, nextL2Id, data);
      handled := handled + [(nextL2Id, data)];
      responses := responses[nextL2Id := result];
      nextL2Id := nextL2Id + 1;
    }

    /** Stores the responses to outstanding messages, one by one. */
    static method TakeResponses(waiting: Queue, known: Queue, answers: Queue) returns (out: Queue, st: Queue, count: nat)
      ensures out == waiting - answers.Keys
      ensures st == known + Within(answers, waiting)
      ensures count == |waiting| - |out|
    {
      hide Taken, Within;
      var todo := answers.Keys;
      out, st, count := waiting, known, 0;
      TakeNone(waiting, known, answers);
      while todo != {}
        invariant todo <= answers.Keys
        invariant Taken(waiting, known, answers, todo, out, st)
        invariant count == |waiting| - |out|
        decreases |todo|
      {
        var id :| id in todo;
        TakeOne(waiting, known, answers, todo, out, st, id);
        if id in out {
          st := st[id := answers[id]];
          out := out - {id};
          count := count + 1;
        }
        todo := todo - {id};
      }
      TakeAll(waiting, known, answers, out, st);
    }

    method ProcessResponses(answers: Queue) returns (count: nat)
      modifies this`stored, this`outgoing
      ensures Value() == Acknowledge(old(Value()), answers)
      ensures count > 0 <==> exists i :: i in answers && i in old(outgoing)
    {
      outgoing, stored, count := TakeResponses(outgoing, stored, answers);
      RemovedCount(old(outgoing), answers.Keys);
    }

    /** Responses told outside of blocks, one after the other. */
    method ProcessL2Responses(answers: seq<Answer>)
      modifies this`stored, this`outgoing
      ensures Value() == TakeEach(old(Value()), answers)
    {
      for i := 0 to |answers|
        invariant TakeEach(Value(), answers[i..]) == TakeEach(old(Value()), answers)
      {
        assert answers[i..][0] == answers[i] && answers[i..][1..] == answers[i + 1..];
        if answers[i].filedUnder in outgoing {
          stored := stored[answers[i].msgId := answers[i].data];
          outgoing := outgoing - {answers[i].filedUnder};
        }
      }
    }

    method OnL2Block(env: Env, ctx: nat, block: L2) returns (processed: bool)
      modifies this
      ensures (Value(), processed) == Queues.OnL2Block(env, ctx, old(Value()), block)
    {
      ghost var was := Value();
      ghost var rest: Queue := block.outgoing;
      var start := nextL2Id;
      while nextL2Id in block.outgoing
        invariant Absorb(env, ctx, was, block.outgoing) == Absorb(env, ctx, Value(), rest)
        invariant forall i :: i >= nextL2Id ==> (i in rest <==> i in block.outgoing)
        invariant forall i :: i >= nextL2Id && i in rest ==> rest[i] == block.outgoing[i]
        decreases |rest|
      {
        ghost var id := nextL2Id;
        ProcessIncomingMessage(env, ctx, block.outgoing[nextL2Id]);
        rest := rest - {id};
      }
      AbsorbFrame(env, ctx, was, block.outgoing);
      var count := ProcessResponses(block.responses);
      processed := nextL2Id != start || count > 0;
    }
  }

  class L2Queue {
    var nextMessageId: nat
    var outgoing: Queue
    var responses: Queue

    constructor (l2: L2)
      ensures Value() == l2
    {
      nextMessageId, outgoing, responses := l2.nextMessageId, l2.outgoing, l2.responses;
    }

    function Value(): L2
      reads this
    {
      L2(nextMessageId, outgoing, responses)
    }

    method SendMessage(data: Data) returns (id: nat)
      modifies this`nextMessageId, this`outgoing
      ensures id == old(nextMessageId) && Value() == SendL2(old(Value()), data)
    {
      id := nextMessageId;
      nextMessageId := id + 1;
      outgoing := outgoing[id := data];
    }

    /** Drops the responses L1 has seen. */
    static method DropSeen(known: Queue, waiting: Queue) returns (kept: Queue)
      ensures kept == Within(known, waiting)
    {
      var todo := known.Keys;
      kept := known;
      while todo != {}
        invariant todo <= known.Keys
        invariant forall i :: i in kept <==> i in known && (i in todo || i in waiting)
        invariant forall i :: i in kept ==> kept[i] == known[i]
        decreases |todo|
      {
        var id :| id in todo;
        if id !in waiting {
          kept := kept - {id};
        }
        todo := todo - {id};
      }
    }

    /** Answers the messages L1 waits on. */
    static method Answer(env: Env, kept: Queue, waiting: Queue) returns (answered: Queue)
      ensures answered == kept + Answers(env, waiting)
    {
      var todo := waiting.Keys;
      answered := kept;
      AnswerNone(env, kept, waiting);
      hide AnsweredBut, Answers;
      while todo != {}
        invariant todo <= waiting.Keys
        invariant answered == AnsweredBut(env, kept, waiting, todo)
        decreases |todo|
      {
        var id :| id in todo;
        AnswerOne(env, kept, waiting, todo, id);
        answered := answered[id := env.l2Reply(id, waiting[id])];
        todo := todo - {id};
      }
      AnswerAll(env, kept, waiting);
    }

    /** Builds the next block: the queues first, then what the transactions send. */
    method BuildNextBlock(env: Env, l1: L1, txs: seq<Data>)
      modifies this
      ensures Value() == BuildBlock(env, old(Value()), l1, txs)
    {
      ghost var was := Value();
      responses := DropSeen(responses, l1.outgoing);
      responses := Answer(env, responses, l1.outgoing);
      ghost var begun := Value();
      assert begun == was.(responses := responses);
      for k := 0 to |txs|
        invariant SendAll(begun, txs) == SendAll(Value(), txs[k..])
      {
        assert txs[k..][1..] == txs[k + 1..];
        var id := SendMessage(txs[k]);
      }
    }
  }
}
