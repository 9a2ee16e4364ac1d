/** The chain's bank as a ledger of balances. A coin's supply is the sum of its balances; a send needs a positive amount
    and a sufficient balance. */
module Bank {
  import opened Options
  import opened Totals

  type Address = string
  type Denom = string
  type Row = map<Address, nat>
  type Ledger = map<Denom, Row>

  function Held(row: Row, a: Address): nat {
    if a in row then row[a] else 0
  }

  function RowOf(b: Ledger, d: Denom): Row {
    if d in b then b[d] else map[]
  }

  function Balance(b: Ledger, a: Address, d: Denom): nat {
    Held(RowOf(b, d), a)
  }

  function Amount(): nat -> int {
    (n: nat) => n
  }

  ghost function Supply(b: Ledger, d: Denom): int {
    Total<Address, nat>(RowOf(b, d), Amount())
  }

  function Credit(b: Ledger, a: Address, d: Denom, x: nat): Ledger {
    b[d := RowOf(b, d)[a := Balance(b, a, d) + x]]
  }

  function Debit(b: Ledger, a: Address, d: Denom, x: nat): Ledger
    requires x <= Balance(b, a, d)
  {
    b[d := RowOf(b, d)[a := Balance(b, a, d) - x]]
  }

  function Send(b: Ledger, from: Address, to: Address, d: Denom, x: int): Option<Ledger> {
    if x <= 0 || Balance(b, from, d) < x then None
    else Some(Credit(Debit(b, from, d, x), to, d, x))
  }

  function Burn(b: Ledger, a: Address, d: Denom, x: int): Option<Ledger> {
    if x <= 0 || Balance(b, a, d) < x then None else Some(Debit(b, a, d, x))
  }

  /** What x coins moving from one account to another does to account a. */
  function Moved(a: Address, from: Address, to: Address, x: int): int {
    (if a == to then x else 0) - (if a == from then x else 0)
  }

  lemma CreditEffect(b: Ledger, a: Address, d: Denom, x: nat)
    ensures forall o, e :: Balance(Credit(b, a, d, x), o, e) == Balance(b, o, e) + if o == a && e == d then x else 0
    ensures forall e :: Supply(Credit(b, a, d, x), e) == Supply(b, e) + if e == d then x else 0
  {
    TotalPut<Address, nat>(RowOf(b, d), Amount(), a, Balance(b, a, d) + x);
    hide Total;
  }

  lemma DebitEffect(b: Ledger, a: Address, d: Denom, x: nat)
    requires x <= Balance(b, a, d)
    ensures forall o, e :: Balance(Debit(b, a, d, x), o, e) == Balance(b, o, e) - if o == a && e == d then x else 0
    ensures forall e :: Supply(Debit(b, a, d, x), e) == Supply(b, e) - if e == d then x else 0
  {
    TotalPut<Address, nat>(RowOf(b, d), Amount(), a, Balance(b, a, d) - x);
    hide Total;
  }

  /** A send succeeds exactly on a positive amount the sender holds; it moves that amount and keeps every supply. */
  lemma SendEffect(b: Ledger, from: Address, to: Address, d: Denom, x: int)
    ensures Send(b, from, to, d, x).Some? <==> 0 < x <= Balance(b, from, d)
    ensures Send(b, from, to, d, x).Some? ==>
      && (forall a, e :: Balance(Send(b, from, to, d, x).value, a, e)
                      == Balance(b, a, e) + if e == d then Moved(a, from, to, x) else 0)
      && (forall e :: Supply(Send(b, from, to, d, x).value, e) == Supply(b, e))
  {
    if 0 < x <= Balance(b, from, d) {
      DebitEffect(b, from, d, x);
      CreditEffect(Debit(b, from, d, x), to, d, x);
      hide Supply;
    }
  }

  lemma BurnEffect(b: Ledger, a: Address, d: Denom, x: int)
    ensures Burn(b, a, d, x).Some? <==> 0 < x <= Balance(b, a, d)
    ensures Burn(b, a, d, x).Some? ==>
      && (forall o, e :: Balance(Burn(b, a, d, x).value, o, e) == Balance(b, o, e) - if o == a && e == d then x else 0)
      && (forall e :: Supply(Burn(b, a, d, x).value, e) == Supply(b, e) - if e == d then x else 0)
  {
    if 0 < x <= Balance(b, a, d) {
      DebitEffect(b, a, d, x);
      hide Supply;
    }
  }

  /** No account holds more of a coin than its supply. */
  lemma BalanceWithinSupply(b: Ledger, a: Address, d: Denom)
    ensures 0 <= Balance(b, a, d) <= Supply(b, d)
  {
    TotalAtLeast<Address, nat>(RowOf(b, d), Amount());
  }
}
