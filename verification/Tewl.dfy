/** The commit-reveal oracle: bonded providers, a queue of requests with escrowed fees, one active request at a time, and
    scoring that is resumed call by call. Every call is a step on the stored state; a call that fails changes nothing. */
module Tewl {
  import opened Options
  import opened Bank
  import opened KeyOrder
  import Keys

  const SCRIPT: Address := "tewl.dys"
  const UDYS: Denom := "udys"
  const COMMIT_TIMEOUT := 30
  const REVEAL_TIMEOUT := 30
  const HASH_LENGTH := 32
  const ID_WIDTH := 6

  type Text = string
  type ScorerState = Option<Text>
  type Scores = seq<(Address, int)>

  /** What a scorer's final state says: a result, if there is one, and a score for each provider it names. */
  datatype Verdict = Verdict(result: Option<Text>, scores: Scores)

  /** The commitment hash, the schema check, one step of a scorer, reading a scorer's final state, and whether the bank sends
      to an address. A step and the reading may raise. */
  datatype Env = Env(
    hash: (nat, Text, Text, Address) -> Text,
    matches: (Text, Text) -> bool,
    step: (Text, Address, Text, ScorerState) -> Option<ScorerState>,
    read: Text -> Option<Verdict>,
    accepts: Address -> bool)

  predicate DistinctScores(scores: Scores) {
    forall i, j :: 0 <= i < j < |scores| ==> scores[i].0 != scores[j].0
  }

  /** A dictionary of scores names no provider twice. */
  ghost predicate ValidEnv(env: Env) {
    forall t: Text {:trigger env.read(t)} :: env.read(t).Some? ==> DistinctScores(env.read(t).value.scores)
  }

  datatype Error =
    | NoAttachment
    | AttachFailed
    | NotRegistered
    | IsJailed
    | ExceedsBond
    | BelowMinimum
    | SendFailed
    | InvalidRequest
    | NotActiveProvider
    | NotFound
    | WrongStatus
    | DeadlinePassed
    | AlreadyCommitted
    | ShortHash
    | TooEarly
    | NoCommit
    | AlreadyRevealed
    | HashMismatch
    | SchemaMismatch
    | ScorerUnreadable
    | PayeeRefused
    | NotTheActiveRequest
    | Unauthorized

  datatype Result<T> = Ok(value: T) | Err(error: Error)

  /** A provider's status: with a full bond, with less, or slashed below it. */
  datatype Standing = Bonded | Underbonded | Jailed

  datatype Provider = Provider(bond: nat, standing: Standing)

  datatype Status = Pending | Active | Revealing | Resolved | Failed

  datatype Entry = Entry(commitHash: Text, response: Option<Text>)

  type Entries = map<Address, Entry>

  datatype Request = Request(
    requester: Address, scorer: Text, schema: Text, fee: nat, createdAt: nat, status: Status,
    commitDeadline: nat, revealDeadline: nat, entries: Entries,
    processed: seq<Address>, scorerState: ScorerState, result: Option<Text>, scores: Scores)

  type Providers = map<Address, Provider>
  type Requests = map<nat, Request>

  datatype State = State(
    bank: Ledger, providers: Providers, requests: Requests, nextId: nat, minBond: nat, activeId: Option<nat>,
    clock: nat, height: nat)

  // ---- storage order ----

  function RequestKey(id: nat): string {
    "request/" + Keys.Pad(id, ID_WIDTH) + "/state"
  }

  predicate KeyBefore(i: nat, j: nat) {
    Keys.Less(RequestKey(i), RequestKey(j))
  }

  lemma RequestKeyOrder(i: nat, j: nat)
    ensures KeyBefore(i, j) <==> Keys.Less(Keys.Pad(i, ID_WIDTH) + "/state", Keys.Pad(j, ID_WIDTH) + "/state")
    ensures RequestKey(i) == RequestKey(j) <==> i == j
  {
    var a, b := Keys.Pad(i, ID_WIDTH), Keys.Pad(j, ID_WIDTH);
    Keys.PadReads(i, ID_WIDTH);
    Keys.PadReads(j, ID_WIDTH);
    hide Keys.Pad, Keys.Number, Keys.Less;
    assert RequestKey(i) == "request/" + (a + "/state") && RequestKey(j) == "request/" + (b + "/state");
    Keys.LessPrefix("request/", a + "/state", b + "/state");
    assert RequestKey(i)[8..|RequestKey(i)| - 6] == a && RequestKey(j)[8..|RequestKey(j)| - 6] == b;
  }

  lemma KeysAreOrdered()
    ensures StrictOrder(KeyBefore) && StrictOrder(Keys.Less)
  {
    hide Keys.Less, RequestKey;
    forall a: string, b: string ensures !Keys.Less(a, a) && (a == b || Keys.Less(a, b) || Keys.Less(b, a)) {
      Keys.LessIrreflexive(a);
      Keys.LessTotal(a, b);
    }
    forall a: string, b: string, c: string | Keys.Less(a, b) && Keys.Less(b, c) ensures Keys.Less(a, c) {
      Keys.LessTransitive(a, b, c);
    }
    forall i: nat, j: nat ensures i == j || KeyBefore(i, j) || KeyBefore(j, i) {
      RequestKeyOrder(i, j);
    }
  }

  /** Addresses in the order storage lists their entries. */
  function InKeyOrder(s: set<Address>): seq<Address> {
    KeysAreOrdered();
    Listing(s, Keys.Less)
  }

  // ---- the queue ----

  function PendingIds(requests: Requests): set<nat> {
    set id | id in requests && requests[id].status.Pending?
  }

  /** The sort key of a is smaller: a higher fee, then an earlier block. */
  predicate Outranks(a: Request, b: Request) {
    a.fee > b.fee || (a.fee == b.fee && a.createdAt < b.createdAt)
  }

  /** One step of a stable sort. */
  function Insert(requests: Requests, sorted: seq<nat>, id: nat): seq<nat>
    requires id in requests && forall k :: k in sorted ==> k in requests
    decreases |sorted|
  {
    if sorted == [] || Outranks(requests[id], requests[sorted[0]]) then [id] + sorted
    else [sorted[0]] + Insert(requests, sorted[1..], id)
  }

  function SortByRank(requests: Requests, ids: seq<nat>): (sorted: seq<nat>)
    requires forall k :: k in ids ==> k in requests
    ensures forall k :: k in sorted ==> k in ids
    decreases |ids|
  {
    if ids == [] then []
    else
      var sorted := SortByRank(requests, ids[..|ids| - 1]);
      InsertMembers(requests, sorted, ids[|ids| - 1]);
      Insert(requests, sorted, ids[|ids| - 1])
  }

  lemma {:induction false} InsertMembers(requests: Requests, sorted: seq<nat>, id: nat)
    requires id in requests && forall k :: k in sorted ==> k in requests
    ensures |Insert(requests, sorted, id)| == |sorted| + 1
    ensures forall k :: k in Insert(requests, sorted, id) <==> k == id || k in sorted
    decreases |sorted|
  {
    if sorted != [] && !Outranks(requests[id], requests[sorted[0]]) {
      InsertMembers(requests, sorted[1..], id);
      assert sorted == [sorted[0]] + sorted[1..];
    }
  }

  /** The pending requests, by fee descending, then creation height, then storage order. */
  function PendingOrder(requests: Requests): (ids: seq<nat>)
    ensures forall k :: k in ids ==> k in requests && requests[k].status.Pending?
  {
    KeysAreOrdered();
    ListingMembers(PendingIds(requests), KeyBefore);
    SortByRank(requests, Listing(PendingIds(requests), KeyBefore))
  }

  function Activated(r: Request, clock: nat): Request {
    r.(status := Active, commitDeadline := clock + COMMIT_TIMEOUT, revealDeadline := clock + COMMIT_TIMEOUT + REVEAL_TIMEOUT)
  }

  /** Activates the first pending request when none is active. */
  function TryActivate(s: State): State {
    var pending := PendingOrder(s.requests);
    if s.activeId.Some? || pending == [] then s
    else
      var id := pending[0];
      s.(requests := s.requests[id := Activated(s.requests[id], s.clock)], activeId := Some(id))
  }

  /** Gives the active request its final status and activates the next one. */
  function Deactivate(s: State, id: nat, status: Status): Result<State> {
    if s.activeId != Some(id) || id !in s.requests then Err(NotTheActiveRequest)
    else Ok(TryActivate(s.(requests := s.requests[id := s.requests[id].(status := status)], activeId := None)))
  }

  // ---- providers ----

  function Deposit(s: State, caller: Address, attached: nat): Result<State> {
    if attached == 0 then Err(NoAttachment)
    else
      var p := if caller in s.providers then s.providers[caller] else Provider(0, Underbonded);
      var bond := p.bond + attached;
      var standing := if bond >= s.minBond && p.standing.Underbonded? then Bonded else p.standing;
      Ok(s.(providers := s.providers[caller := Provider(bond, standing)]))
  }

  function Withdraw(s: State, caller: Address, amount: int): Result<State> {
    if caller !in s.providers then Err(NotRegistered)
    else
      var p := s.providers[caller];
      if p.standing.Jailed? then Err(IsJailed)
      else if amount > p.bond then Err(ExceedsBond)
      else if p.standing.Bonded? && p.bond - amount < s.minBond then Err(BelowMinimum)
      else
        match Send(s.bank, SCRIPT, caller, UDYS, amount)
        case None => Err(SendFailed)
        case Some(b) =>
          if p.bond == amount then Ok(s.(bank := b, providers := s.providers - {caller}))
          else Ok(s.(bank := b, providers := s.providers[caller := p.(bond := p.bond - amount)]))
  }

  // ---- requests ----

  function NewRequest(caller: Address, scorer: Text, schema: Text, fee: nat, height: nat): Request {
    Request(caller, scorer, schema, fee, height, Pending, 0, 0, map[], [], None, None, [])
  }

  function Create(s: State, caller: Address, fee: nat, scorer: Text, schema: Text, valid: bool): Result<State> {
    if fee == 0 then Err(NoAttachment)
    else if !valid then Err(InvalidRequest)
    else
      var r := NewRequest(caller, scorer, schema, fee, s.height);
      Ok(TryActivate(s.(requests := s.requests[s.nextId := r], nextId := s.nextId + 1)))
  }

  function BondedProviders(s: State): set<Address> {
    set a | a in s.providers && s.providers[a].standing.Bonded?
  }

  predicate AllCommitted(s: State, r: Request) {
    BondedProviders(s) != {} && BondedProviders(s) == r.entries.Keys
  }

  predicate AllRevealed(r: Request) {
    r.entries != map[] && forall a :: a in r.entries ==> r.entries[a].response.Some?
  }

  /** An active request starts its reveal phase when its deadline has passed or every bonded provider has committed. */
  function Transition(s: State, r: Request): Request {
    if r.status.Active? && (s.clock >= r.commitDeadline || AllCommitted(s, r))
    then r.(status := Revealing, revealDeadline := s.clock + REVEAL_TIMEOUT)
    else r
  }

  function Commit(s: State, caller: Address, id: nat, hash: Text): Result<State> {
    if caller !in s.providers then Err(NotRegistered)
    else if !s.providers[caller].standing.Bonded? then Err(NotActiveProvider)
    else if id !in s.requests then Err(NotFound)
    else
      var r := s.requests[id];
      if !r.status.Active? then Err(WrongStatus)
      else if s.clock >= r.commitDeadline then Err(DeadlinePassed)
      else if caller in r.entries then Err(AlreadyCommitted)
      else if |hash| < HASH_LENGTH then Err(ShortHash)
      else
        var committed := r.(entries := r.entries[caller := Entry(hash, None)]);
        Ok(s.(requests := s.requests[id := Transition(s, committed)]))
  }

  function Reveal(env: Env, s: State, caller: Address, id: nat, response: Text, salt: Text): Result<State> {
    if id !in s.requests then Err(NotFound)
    else
      var r := Transition(s, s.requests[id]);
      if !r.status.Active? && !r.status.Revealing? then Err(WrongStatus)
      else if s.clock < r.commitDeadline && !r.status.Revealing? then Err(TooEarly)
      else if s.clock >= r.revealDeadline then Err(DeadlinePassed)
      else if caller !in r.entries then Err(NoCommit)
      else if r.entries[caller].response.Some? then Err(AlreadyRevealed)
      else if env.hash(id, response, salt, caller) != r.entries[caller].commitHash then Err(HashMismatch)
      else if !env.matches(response, r.schema) then Err(SchemaMismatch)
      else
        var e := r.entries[caller].(response := Some(response));
        Ok(s.(requests := s.requests[id := r.(entries := r.entries[caller := e])]))
  }

  // ---- scoring ----

  function Revealed(r: Request): set<Address> {
    set a | a in r.entries && r.entries[a].response.Some?
  }

  /** What a provider revealed. */
  function ResponseOf(entries: Entries, a: Address): Text {
    if a in entries && entries[a].response.Some? then entries[a].response.value else ""
  }

  /** The reveals not scored yet, in the order storage lists them. */
  function Unprocessed(listed: seq<Address>, processed: seq<Address>): seq<Address>
    decreases |listed|
  {
    if listed == [] then []
    else (if listed[0] in processed then [] else [listed[0]]) + Unprocessed(listed[1..], processed)
  }

  datatype Progress = Progress(processed: seq<Address>, state: ScorerState, rest: seq<Address>, raised: bool)

  /** Scores reveals one by one until they are done, the scorer raises, or the gas budget is used up. */
  function Score(env: Env, scorer: Text, entries: Entries, rest: seq<Address>, processed: seq<Address>,
                 state: ScorerState, budget: nat): Progress
    decreases |rest|
  {
    if rest == [] || budget == 0 then Progress(processed, state, rest, false)
    else
      match env.step(scorer, rest[0], ResponseOf(entries, rest[0]), state)
      case None => Progress(processed, state, rest[1..], true)
      case Some(next) => Score(env, scorer, entries, rest[1..], processed + [rest[0]], next, budget - 1)
  }

  /** Scores what is left to score of a request. */
  function Progressed(env: Env, r: Request, budget: nat): Progress {
    Score(env, r.scorer, r.entries, Unprocessed(InKeyOrder(Revealed(r)), r.processed), r.processed, r.scorerState, budget)
  }

  function Saved(r: Request, p: Progress): Request {
    r.(processed := p.processed, scorerState := p.state)
  }

  // ---- settling ----

  function TotalScore(scores: Scores): nat
    decreases |scores|
  {
    if scores == [] then 0 else (if scores[0].1 > 0 then scores[0].1 else 0) + TotalScore(scores[1..])
  }

  /** floor(fee * score / total) */
  function Share(fee: nat, score: int, total: nat): nat
    requires score > 0 ==> total > 0
  {
    if score <= 0 then 0 else fee * score / total
  }

  /** Pays each provider with a positive score its share. */
  function Distribute(b: Ledger, fee: nat, scores: Scores, total: nat): Option<Ledger>
    requires total > 0
    decreases |scores|
  {
    if scores == [] then Some(b)
    else if Share(fee, scores[0].1, total) == 0 then Distribute(b, fee, scores[1..], total)
    else
      match Send(b, SCRIPT, scores[0].0, UDYS, Share(fee, scores[0].1, total))
      case None => None
      case Some(b') => Distribute(b', fee, scores[1..], total)
  }

  function PayFees(b: Ledger, fee: nat, scores: Scores): Option<Ledger> {
    if TotalScore(scores) == 0 then Some(b) else Distribute(b, fee, scores, TotalScore(scores))
  }

  /** The bank sends to everyone who is due a share. */
  predicate AllAccepted(env: Env, fee: nat, scores: Scores, total: nat)
    requires total > 0
    decreases |scores|
  {
    scores == [] || ((Share(fee, scores[0].1, total) > 0 ==> env.accepts(scores[0].0)) && AllAccepted(env, fee, scores[1..], total))
  }

  predicate Payable(env: Env, fee: nat, scores: Scores) {
    TotalScore(scores) == 0 || AllAccepted(env, fee, scores, TotalScore(scores))
  }

  function SlashAmount(minBond: nat): nat {
    minBond / 10
  }

  /** Takes up to amount from a registered provider's bond, jailing it when too little is left. */
  function Slash(ps: Providers, a: Address, amount: nat, minBond: nat): Providers {
    if a !in ps then ps
    else
      var cut := if amount < ps[a].bond then amount else ps[a].bond;
      if cut == 0 then ps
      else
        var left := ps[a].bond - cut;
        ps[a := Provider(left, if left < minBond then Jailed else ps[a].standing)]
  }

  function SlashScored(ps: Providers, scores: Scores, minBond: nat): Providers
    decreases |scores|
  {
    if scores == [] then ps
    else
      SlashScored(if scores[0].1 <= 0 then Slash(ps, scores[0].0, SlashAmount(minBond), minBond) else ps, scores[1..], minBond)
  }

  function SlashEach(ps: Providers, addresses: seq<Address>, minBond: nat): Providers
    decreases |addresses|
  {
    if addresses == [] then ps
    else SlashEach(Slash(ps, addresses[0], SlashAmount(minBond), minBond), addresses[1..], minBond)
  }

  /** Who committed and did not reveal. */
  function Silent(r: Request): seq<Address> {
    InKeyOrder(r.entries.Keys - Revealed(r))
  }

  /** Returns the fee to the requester. */
  function Refund(b: Ledger, r: Request): Option<Ledger> {
    if r.fee == 0 then Some(b) else Send(b, SCRIPT, r.requester, UDYS, r.fee)
  }

  function Fail(s: State, id: nat, r: Request): Result<State> {
    match Refund(s.bank, r)
    case None => Err(SendFailed)
    case Some(b) => Deactivate(s.(bank := b, requests := s.requests[id := r.(result := None)]), id, Failed)
  }

  /** An unset scorer state has no result. */
  function ReadVerdict(env: Env, state: ScorerState): Option<Verdict> {
    match state
    case None => Some(Verdict(None, []))
    case Some(t) => env.read(t)
  }

  function Settle(env: Env, s: State, id: nat, r: Request): Result<State> {
    match ReadVerdict(env, r.scorerState)
    case None => Err(ScorerUnreadable)
    case Some(v) =>
      if v.result.None? then Fail(s, id, r.(scores := v.scores))
      else if !Payable(env, r.fee, v.scores) then Err(PayeeRefused)
      else
        match PayFees(s.bank, r.fee, v.scores)
        case None => Err(SendFailed)
        case Some(b) =>
          var slashed := SlashEach(SlashScored(s.providers, v.scores, s.minBond), Silent(r), s.minBond);
          Deactivate(s.(bank := b, providers := slashed,
                        requests := s.requests[id := r.(result := v.result, scores := v.scores)]), id, Resolved)
  }

  /** What follows the scoring of a call: the request fails, is saved for the next call, or is settled. */
  function Conclude(env: Env, s: State, id: nat, r: Request, p: Progress): Result<State> {
    if p.raised then Fail(s, id, Saved(r, p))
    else if p.rest != [] then Ok(s.(requests := s.requests[id := Saved(r, p)]))
    else Settle(env, s, id, Saved(r, p))
  }

  /** One call of finalize; budget is the number of reveals its gas lets it score. */
  function Finalize(env: Env, s: State, id: nat, budget: nat): Result<State> {
    if id !in s.requests then Err(NotFound)
    else
      var r := s.requests[id];
      if r.status.Resolved? || r.status.Failed? then Ok(s)
      else if r.status.Pending? then Err(WrongStatus)
      else if s.clock < r.revealDeadline && !AllRevealed(r) then Err(TooEarly)
      else
        Conclude(env, s, id, r, Progressed(env, r, budget))
  }

  // ---- transactions and runs ----

  datatype Op =
    | DepositBond
    | WithdrawBond(amount: int)
    | CreateRequest(scorer: Text, schema: Text, valid: bool)
    | CommitTo(id: nat, hash: Text)
    | RevealTo(id: nat, response: Text, salt: Text)
    | FinalizeRequest(id: nat, budget: nat)
    | SetMinBond(value: nat)

  /** A call with the coins attached to it, the next block some seconds later, or a transfer between others. */
  datatype Tx =
    | Call(caller: Address, attached: nat, op: Op)
    | NextBlock(seconds: nat)
    | UserSend(from: Address, to: Address, amount: int)

  function Attach(b: Ledger, caller: Address, attached: nat): Option<Ledger> {
    if attached == 0 then Some(b) else Send(b, caller, SCRIPT, UDYS, attached)
  }

  function CallOp(env: Env, s: State, caller: Address, attached: nat, op: Op): Result<State> {
    match op
    case DepositBond => Deposit(s, caller, attached)
    case WithdrawBond(amount) => Withdraw(s, caller, amount)
    case CreateRequest(scorer, schema, valid) => Create(s, caller, attached, scorer, schema, valid)
    case CommitTo(id, hash) => Commit(s, caller, id, hash)
    case RevealTo(id, response, salt) => Reveal(env, s, caller, id, response, salt)
    case FinalizeRequest(id, budget) => Finalize(env, s, id, budget)
    case SetMinBond(value) => if caller != SCRIPT then Err(Unauthorized) else Ok(s.(minBond := value))
  }

  function Apply(env: Env, s: State, tx: Tx): Result<State> {
    match tx
    case Call(caller, attached, op) =>
      (match Attach(s.bank, caller, attached)
       case None => Err(AttachFailed)
       case Some(b) => CallOp(env, s.(bank := b), caller, attached, op))
    case NextBlock(seconds) => Ok(s.(clock := s.clock + seconds, height := s.height + 1))
    case UserSend(from, to, amount) =>
      (match Send(s.bank, from, to, UDYS, amount) case None => Err(SendFailed) case Some(b) => Ok(s.(bank := b)))
  }

  function Step(env: Env, s: State, tx: Tx): State {
    match Apply(env, s, tx) case Ok(s') => s' case Err(_) => s
  }

  function Run(env: Env, s: State, txs: seq<Tx>): State
    decreases |txs|
  {
    if txs == [] then s else Run(env, Step(env, s, txs[0]), txs[1..])
  }

  /** Before any call: no providers and no requests. */
  function Start(bank: Ledger, clock: nat, height: nat): State {
    State(bank, map[], map[], 1, 1000000, None, clock, height)
  }
}
