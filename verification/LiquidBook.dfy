/** The order book of solid and liquid coins: wrapping and unwrapping, escrowed offers, deposit-locked offers, and the
    batch take that settles both kinds. Every call runs after the coins attached to it have reached the script. */
module LiquidBook {
  import opened Options
  import opened Totals
  import opened Bank
  import opened Dicts
  import Lots

  const SCRIPT: Address := "script"
  const COMMUNITY_POOL: Address := "community-pool"
  const UDYS: Denom := "udys"
  const PFAND: Denom := "whaleswap.dys/pfand"

  /** The denom codec and the mint fee per coin, a fraction. Decoding may raise. */
  datatype Env = Env(
    quote: Denom -> Denom, decode: Denom -> Option<Denom>, isLiquid: Denom -> bool, feeNum: nat, feeDen: nat)

  /** What the order book needs of the codec: liquid denoms decode to the solid denom they quote, and neither of the two
      fixed denoms is liquid. */
  ghost predicate ValidEnv(env: Env) {
    && env.feeDen > 0
    && (forall d {:trigger env.quote(d)} :: env.isLiquid(env.quote(d)) && env.decode(env.quote(d)) == Some(d))
    && !env.isLiquid(UDYS) && !env.isLiquid(PFAND)
  }

  datatype Error =
    | AttachFailed
    | AmountNotPositive
    | InsufficientAttached
    | NotLiquid
    | BadEncoding
    | InsufficientBalance
    | SameDenom
    | WantLiquid
    | LiquidAttached
    | InsufficientPfand
    | BadEscrow
    | NoTrades
    | DuplicateOffer
    | NotFound
    | NotOpen
    | BadUnits
    | ExcessAttached
    | ModeMismatch
    | MoveFailed
    | SendFailed
    | NotEligible

  datatype Result<T> = Ok(value: T) | Err(error: Error)

  datatype Coin = Coin(denom: Denom, amount: nat)

  datatype Status = Open | Closed | Cancelled

  datatype Offer = Offer(
    maker: Address, status: Status, haveDenom: Denom, wantDenom: Denom,
    have: nat, want: nat, unitHave: nat, unitWant: nat, units: nat, pfand: nat)

  type Offers = map<nat, Offer>

  datatype State = State(bank: Ledger, offers: Offers, lastId: nat, pfandPerOffer: nat)

  // ---- attachments ----

  function Attached(att: seq<Coin>, d: Denom): nat {
    if att == [] then 0 else (if att[0].denom == d then att[0].amount else 0) + Attached(att[1..], d)
  }

  /** Runs the attached sends of the caller to the script, before the call. */
  function Attach(b: Ledger, caller: Address, att: seq<Coin>): Option<Ledger>
    decreases |att|
  {
    if att == [] then Some(b)
    else
      match Send(b, caller, SCRIPT, att[0].denom, att[0].amount)
      case None => None
      case Some(b') => Attach(b', caller, att[1..])
  }

  // ---- minting ----

  /** ceil(amount * fee per coin) */
  function MintFee(env: Env, amount: nat): nat
    requires env.feeDen > 0
  {
    (amount * env.feeNum + env.feeDen - 1) / env.feeDen
  }

  /** The fee is the least whole number of coins that covers the amount at the fee per coin. */
  lemma MintFeeIsCeiling(env: Env, amount: nat)
    requires env.feeDen > 0
    ensures env.feeDen * MintFee(env, amount) >= amount * env.feeNum
    ensures forall n: nat :: env.feeDen * n >= amount * env.feeNum ==> n >= MintFee(env, amount)
  {
    var fee, due := MintFee(env, amount), amount * env.feeNum;
    assert env.feeDen * fee <= due + env.feeDen - 1 < env.feeDen * fee + env.feeDen;
    forall n: nat | env.feeDen * n >= due ensures n >= fee {
      if n < fee {
        Lots.Distribute(env.feeDen, fee, 1);
        if n < fee - 1 { Lots.CancelLeft(env.feeDen, n, fee - 1); }
      }
    }
  }

  /** Charges the fee to the script and mints a coin to it; the attached fee coins must cover the fee. */
  function Mint(env: Env, b: Ledger, att: seq<Coin>, d: Denom, amount: nat): Result<Ledger>
    requires env.feeDen > 0
  {
    var fee := MintFee(env, amount);
    if Attached(att, UDYS) < fee then Err(InsufficientAttached)
    else if fee == 0 then Ok(Credit(b, SCRIPT, d, amount))
    else
      match Send(b, SCRIPT, COMMUNITY_POOL, UDYS, fee)
      case None => Err(SendFailed)
      case Some(b') => Ok(Credit(b', SCRIPT, d, amount))
  }

  // ---- wrapping ----

  function ConvertToLiquid(env: Env, s: State, caller: Address, att: seq<Coin>, d: Denom, amount: int): Result<State>
    requires env.feeDen > 0
  {
    if amount <= 0 then Err(AmountNotPositive)
    else
      var fee := MintFee(env, amount);
      if d == UDYS && Attached(att, UDYS) < amount + fee then Err(InsufficientAttached)
      else if d != UDYS && Attached(att, d) < amount then Err(InsufficientAttached)
      else
        match Mint(env, s.bank, att, env.quote(d), amount)
        case Err(e) => Err(e)
        case Ok(b) =>
          match Send(b, SCRIPT, caller, env.quote(d), amount)
          case None => Err(SendFailed)
          case Some(b') => Ok(s.(bank := b'))
  }

  function ConvertToSolid(env: Env, s: State, caller: Address, liquid: Denom, amount: int): Result<State> {
    if !env.isLiquid(liquid) then Err(NotLiquid)
    else
      match env.decode(liquid)
      case None => Err(BadEncoding)
      case Some(d) =>
        if amount <= 0 then Err(AmountNotPositive)
        else if Balance(s.bank, caller, liquid) < amount || Balance(s.bank, SCRIPT, d) < amount then Err(InsufficientBalance)
        else
          match Send(s.bank, caller, SCRIPT, liquid, amount)
          case None => Err(MoveFailed)
          case Some(b) =>
            match Burn(b, SCRIPT, liquid, amount)
            case None => Err(MoveFailed)
            case Some(b') =>
              match Send(b', SCRIPT, caller, d, amount)
              case None => Err(SendFailed)
              case Some(b'') => Ok(s.(bank := b''))
  }

  // ---- offers ----

  function AnyLiquid(env: Env, att: seq<Coin>): bool {
    att != [] && (env.isLiquid(att[0].denom) || AnyLiquid(env, att[1..]))
  }

  function NewOffer(maker: Address, have: Coin, want: Coin, pfand: nat): Offer
    requires have.amount > 0 && want.amount > 0
  {
    var lot := Lots.Split(have.amount, want.amount);
    Offer(maker, Open, have.denom, want.denom, have.amount, want.amount, lot.unitHave, lot.unitWant, lot.units, pfand)
  }

  function AddOffer(s: State, b: Ledger, o: Offer): State {
    State(b, s.offers[s.lastId + 1 := o], s.lastId + 1, s.pfandPerOffer)
  }

  /** A liquid offer locks a deposit and escrows nothing; a normal one is escrowed by its attachment. */
  function MakeOffer(env: Env, s: State, caller: Address, att: seq<Coin>, have: Coin, want: Coin): Result<State> {
    if have.amount == 0 || want.amount == 0 then Err(AmountNotPositive)
    else if have.denom == want.denom then Err(SameDenom)
    else if env.isLiquid(want.denom) then Err(WantLiquid)
    else if AnyLiquid(env, att) then Err(LiquidAttached)
    else if env.isLiquid(have.denom) then
      if Attached(att, have.denom) > 0 then Err(LiquidAttached)
      else if Balance(s.bank, caller, PFAND) < s.pfandPerOffer then Err(InsufficientPfand)
      else
        match Send(s.bank, caller, SCRIPT, PFAND, s.pfandPerOffer)
        case None => Err(MoveFailed)
        case Some(b) => Ok(AddOffer(s, b, NewOffer(caller, have, want, s.pfandPerOffer)))
    else if Attached(att, have.denom) != have.amount then Err(BadEscrow)
    else Ok(AddOffer(s, s.bank, NewOffer(caller, have, want, 0)))
  }

  /** The maker may cancel; anyone may cancel a liquid offer whose maker cannot fund one unit. The deposit goes to whoever
      cancels. The escrow of a normal offer stays with the script. */
  function CancelOffer(env: Env, s: State, caller: Address, id: nat): Result<State> {
    if id !in s.offers then Err(NotFound)
    else
      var o := s.offers[id];
      if !o.status.Open? then Err(NotOpen)
      else if !(caller == o.maker
                || (o.pfand > 0 && env.isLiquid(o.haveDenom) && Balance(s.bank, o.maker, o.haveDenom) < o.unitHave))
      then Err(NotEligible)
      else
        var s' := s.(offers := s.offers[id := o.(status := Cancelled)]);
        if o.pfand > 0 then
          match Send(s.bank, SCRIPT, caller, PFAND, o.pfand)
          case None => Err(SendFailed)
          case Some(b) => Ok(s'.(bank := b))
        else Ok(s')
  }

  // ---- the batch take: what each trade is ----

  datatype Trade = Trade(offerId: nat, units: Option<int>)

  /** The amounts of one trade, computed before anything moves. */
  datatype Info = Info(
    id: nat, maker: Address, pfand: nat, units: nat, sent: nat, received: nat, wantDenom: Denom, haveDenom: Denom)

  function UnitsOf(o: Offer, t: Trade): int {
    if t.units.None? then o.units else t.units.value
  }

  function InfoOf(o: Offer, id: nat, n: nat): Info {
    Info(id, o.maker, o.pfand, n, n * o.unitWant, n * o.unitHave, o.wantDenom, o.haveDenom)
  }

  /** One trade of the list, given the offers named before it. */
  function CheckTrade(offers: Offers, t: Trade, seen: seq<Info>): Result<Info> {
    if exists i :: 0 <= i < |seen| && seen[i].id == t.offerId then Err(DuplicateOffer)
    else if t.offerId !in offers then Err(NotFound)
    else if !offers[t.offerId].status.Open? then Err(NotOpen)
    else if !(1 <= UnitsOf(offers[t.offerId], t) <= offers[t.offerId].units) then Err(BadUnits)
    else Ok(InfoOf(offers[t.offerId], t.offerId, UnitsOf(offers[t.offerId], t)))
  }

  function Infos(offers: Offers, trades: seq<Trade>): Result<seq<Info>>
    decreases |trades|
  {
    if trades == [] then Ok([])
    else
      match Infos(offers, trades[..|trades| - 1])
      case Err(e) => Err(e)
      case Ok(infos) =>
        match CheckTrade(offers, trades[|trades| - 1], infos)
        case Err(e) => Err(e)
        case Ok(info) => Ok(infos + [info])
  }

  function Last(infos: seq<Info>): Info
    requires infos != []
  {
    infos[|infos| - 1]
  }

  function Init(infos: seq<Info>): seq<Info>
    requires infos != []
  {
    infos[..|infos| - 1]
  }

  // ---- the batch take: the dictionaries ----

  /** What the taker owes, by wanted denom. */
  function Required(infos: seq<Info>): Dict<Denom>
    decreases |infos|
  {
    if infos == [] then [] else AddTo(Required(Init(infos)), Last(infos).wantDenom, Last(infos).sent)
  }

  function OverAttached(required: Dict<Denom>, att: seq<Coin>): bool {
    required != [] && (Attached(att, required[0].0) > required[0].1 || OverAttached(required[1..], att))
  }

  /** What of each wanted denom is left to pay in liquid coins. */
  function Remainder(env: Env, required: Dict<Denom>, att: seq<Coin>): Dict<Denom>
    requires !OverAttached(required, att)
  {
    if required == [] then []
    else
      var left := required[0].1 - Attached(att, required[0].0);
      var rest := Remainder(env, required[1..], att);
      if left > 0 then [(env.quote(required[0].0), left)] + rest else rest
  }

  datatype Legs = Legs(makerLiquid: Nested<Address, Denom>, toTaker: Dict<Denom>, toMaker: Nested<Address, Denom>)

  /** What one trade adds: the liquid coins its maker gives up, the solid coins the taker and the maker receive. */
  function AddLeg(env: Env, legs: Legs, info: Info): Result<Legs> {
    var toMaker := AddNested(legs.toMaker, info.maker, info.wantDenom, info.sent);
    if info.pfand > 0 then
      if !env.isLiquid(info.haveDenom) then Err(ModeMismatch)
      else
        match env.decode(info.haveDenom)
        case None => Err(BadEncoding)
        case Some(d) =>
          Ok(Legs(AddNested(legs.makerLiquid, info.maker, info.haveDenom, info.received),
                  AddTo(legs.toTaker, d, info.received), toMaker))
    else if env.isLiquid(info.haveDenom) then Err(ModeMismatch)
    else Ok(Legs(legs.makerLiquid, AddTo(legs.toTaker, info.haveDenom, info.received), toMaker))
  }

  function LegsOf(env: Env, infos: seq<Info>): Result<Legs>
    decreases |infos|
  {
    if infos == [] then Ok(Legs([], [], []))
    else
      match LegsOf(env, Init(infos))
      case Err(e) => Err(e)
      case Ok(legs) => AddLeg(env, legs, Last(infos))
  }

  // ---- the batch take: bank actions ----

  /** A send, or a burn of the script's coins. */
  datatype Act = Transfer(from: Address, to: Address, denom: Denom, amount: nat) | Destroy(denom: Denom, amount: nat)

  function ExecOne(b: Ledger, act: Act): Option<Ledger> {
    match act
    case Transfer(from, to, d, x) => Send(b, from, to, d, x)
    case Destroy(d, x) => Burn(b, SCRIPT, d, x)
  }

  function Exec(b: Ledger, acts: seq<Act>): Option<Ledger>
    decreases |acts|
  {
    if acts == [] then Some(b)
    else
      match ExecOne(b, acts[0])
      case None => None
      case Some(b') => Exec(b', acts[1..])
  }

  function Payments(from: Address, to: Address, m: Dict<Denom>): seq<Act> {
    if m == [] then []
    else (if m[0].1 > 0 then [Transfer(from, to, m[0].0, m[0].1)] else []) + Payments(from, to, m[1..])
  }

  function PaymentsFrom(mm: Nested<Address, Denom>): seq<Act> {
    if mm == [] then [] else Payments(mm[0].0, SCRIPT, mm[0].1) + PaymentsFrom(mm[1..])
  }

  function PaymentsTo(mm: Nested<Address, Denom>): seq<Act> {
    if mm == [] then [] else Payments(SCRIPT, mm[0].0, mm[0].1) + PaymentsTo(mm[1..])
  }

  /** The moved amounts by denom: the single output of the move, and what is burnt. */
  function MovedByDenom(moves: seq<Act>): Dict<Denom>
    decreases |moves|
  {
    if moves == [] then []
    else AddTo(MovedByDenom(moves[..|moves| - 1]), moves[|moves| - 1].denom, moves[|moves| - 1].amount)
  }

  function Burns(m: Dict<Denom>): seq<Act> {
    if m == [] then [] else [Destroy(m[0].0, m[0].1)] + Burns(m[1..])
  }

  /** The liquid coins of the taker and of the makers, moved to the script. */
  function MoveActs(taker: Address, remainder: Dict<Denom>, legs: Legs): seq<Act> {
    Payments(taker, SCRIPT, remainder) + PaymentsFrom(legs.makerLiquid)
  }

  /** The solid coins forwarded by the script. */
  function SendActs(taker: Address, legs: Legs): seq<Act> {
    Payments(SCRIPT, taker, legs.toTaker) + PaymentsTo(legs.toMaker)
  }

  // ---- the batch take: the offers ----

  /** An offer after n of its units were taken. The record keeps its deposit, but a closed offer locks nothing. */
  function TakeUnits(o: Offer, n: nat): Offer
    requires n <= o.units
  {
    var left := o.units - n;
    if left == 0 then o.(status := Closed, units := 0, have := 0, want := 0)
    else o.(units := left, have := left * o.unitHave, want := left * o.unitWant)
  }

  function FillOne(offers: Offers, info: Info): Offers {
    if info.id in offers && info.units <= offers[info.id].units
    then offers[info.id := TakeUnits(offers[info.id], info.units)] else offers
  }

  function Fill(offers: Offers, infos: seq<Info>): Offers
    decreases |infos|
  {
    if infos == [] then offers else FillOne(Fill(offers, Init(infos)), Last(infos))
  }

  /** The deposits released to the taker: those of the liquid offers this batch closes. */
  function Releases(offers: Offers, infos: seq<Info>, taker: Address): seq<Act>
    decreases |infos|
  {
    if infos == [] then []
    else Releases(offers, Init(infos), taker) + ReleaseOne(offers, Last(infos), taker)
  }

  function ReleaseOne(offers: Offers, info: Info, taker: Address): seq<Act> {
    if info.id in offers && info.units >= offers[info.id].units && info.pfand > 0
    then [Transfer(SCRIPT, taker, PFAND, info.pfand)] else []
  }

  /** The bank legs of a batch: liquid moves and burns, then the solid forwards, then the released deposits. */
  function Settle(b: Ledger, moves: seq<Act>, sends: seq<Act>, releases: seq<Act>): Result<Ledger> {
    match Exec(b, moves)
    case None => Err(MoveFailed)
    case Some(b1) =>
      match Exec(b1, Burns(MovedByDenom(moves)))
      case None => Err(MoveFailed)
      case Some(b2) =>
        match Exec(b2, sends)
        case None => Err(SendFailed)
        case Some(b3) =>
          match Exec(b3, releases)
          case None => Err(SendFailed)
          case Some(b4) => Ok(b4)
  }

  function TakeOffer(env: Env, s: State, taker: Address, att: seq<Coin>, trades: seq<Trade>): Result<State> {
    if trades == [] then Err(NoTrades)
    else
      match Infos(s.offers, trades)
      case Err(e) => Err(e)
      case Ok(infos) =>
        var required := Required(infos);
        if OverAttached(required, att) then Err(ExcessAttached)
        else
          match LegsOf(env, infos)
          case Err(e) => Err(e)
          case Ok(legs) =>
            match Settle(s.bank, MoveActs(taker, Remainder(env, required, att), legs), SendActs(taker, legs),
                         Releases(s.offers, infos, taker))
            case Err(e) => Err(e)
            case Ok(b) => Ok(s.(bank := b, offers := Fill(s.offers, infos)))
  }

  // ---- transactions and runs ----

  datatype Op =
    | ToLiquid(denom: Denom, amount: int)
    | ToSolid(liquid: Denom, burnt: int)
    | Make(have: Coin, want: Coin)
    | Take(trades: seq<Trade>)
    | Cancel(offerId: nat)

  /** A call to the script with its attached coins, a change of the deposit parameter, or what others do on the bank. */
  datatype Tx =
    | Call(caller: Address, attachments: seq<Coin>, op: Op)
    | SetPfand(value: nat)
    | UserSend(from: Address, to: Address, denom: Denom, amount: nat)
    | UserMint(to: Address, denom: Denom, amount: nat)

  function CallOp(env: Env, s: State, caller: Address, att: seq<Coin>, op: Op): Result<State>
    requires env.feeDen > 0
  {
    match op
    case ToLiquid(d, x) => ConvertToLiquid(env, s, caller, att, d, x)
    case ToSolid(l, x) => ConvertToSolid(env, s, caller, l, x)
    case Make(have, want) => MakeOffer(env, s, caller, att, have, want)
    case Take(trades) => TakeOffer(env, s, caller, att, trades)
    case Cancel(id) => CancelOffer(env, s, caller, id)
  }

  function Apply(env: Env, s: State, tx: Tx): Result<State>
    requires env.feeDen > 0
  {
    match tx
    case Call(caller, att, op) =>
      (match Attach(s.bank, caller, att)
       case None => Err(AttachFailed)
       case Some(b) => CallOp(env, s.(bank := b), caller, att, op))
    case SetPfand(v) => Ok(s.(pfandPerOffer := v))
    case UserSend(from, to, d, x) =>
      (match Send(s.bank, from, to, d, x) case None => Err(SendFailed) case Some(b) => Ok(s.(bank := b)))
    case UserMint(to, d, x) => Ok(s.(bank := Credit(s.bank, to, d, x)))
  }

  /** A transaction that fails is reverted. */
  function Step(env: Env, s: State, tx: Tx): State
    requires env.feeDen > 0
  {
    match Apply(env, s, tx) case Ok(s') => s' case Err(_) => s
  }

  function Run(env: Env, s: State, txs: seq<Tx>): State
    requires env.feeDen > 0
    decreases |txs|
  {
    if txs == [] then s else Run(env, Step(env, s, txs[0]), txs[1..])
  }
}
