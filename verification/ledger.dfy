/**
 * An abstract token ledger standing in for the token program: one balance per
 * owner and one allowance per owner, granted to the platform. Granting an
 * allowance replaces the previous one; a transfer made under the allowance
 * consumes it.
 */
module Ledger {
  import opened Results
  import opened Ints
  import opened State

  datatype Ledger = Ledger(balances: map<Pubkey, u64>, allowances: map<Pubkey, u64>)

  /** The token balance held by `who`; an owner with no entry holds nothing. */
  function BalanceOf(l: Ledger, who: Pubkey): u64
  {
    if who in l.balances then l.balances[who] else 0
  }

  /** How much the platform may still move out of `who`'s balance. */
  function AllowanceOf(l: Ledger, who: Pubkey): u64
  {
    if who in l.allowances then l.allowances[who] else 0
  }

  /** Grants the platform an allowance of `amount` over `owner`'s balance, replacing any earlier one. */
  function Approve(l: Ledger, owner: Pubkey, amount: u64): (l': Ledger)
    ensures AllowanceOf(l', owner) == amount
    ensures forall o :: o != owner ==> AllowanceOf(l', o) == AllowanceOf(l, o)
    ensures forall o :: BalanceOf(l', o) == BalanceOf(l, o)
  {
    l.(allowances := l.allowances[owner := amount])
  }

  /** Withdraws the platform's allowance over `owner`'s balance. */
  function Revoke(l: Ledger, owner: Pubkey): (l': Ledger)
    ensures AllowanceOf(l', owner) == 0
    ensures forall o :: o != owner ==> AllowanceOf(l', o) == AllowanceOf(l, o)
    ensures forall o :: BalanceOf(l', o) == BalanceOf(l, o)
  {
    l.(allowances := l.allowances[owner := 0])
  }

  /**
   * A transfer the platform makes out of `from`'s balance under its allowance.
   * It fails when the balance or the allowance is short, or when the recipient's
   * balance would overflow; otherwise it moves exactly `amount` and consumes as
   * much allowance. A transfer to oneself changes nothing.
   */
  function DelegatedTransfer(l: Ledger, from: Pubkey, to: Pubkey, amount: u64): (r: Result<Ledger>)
    ensures r.Ok? <==>
              BalanceOf(l, from) >= amount && AllowanceOf(l, from) >= amount
              && (from == to || BalanceOf(l, to) + amount <= U64_MAX)
    ensures BalanceOf(l, from) < amount || AllowanceOf(l, from) < amount ==>
              r == Err(TokenInsufficientFunds)
    ensures r.Err? ==> r.error in {TokenInsufficientFunds, TokenOverflow}
    ensures r.Ok? && from != to ==>
              && BalanceOf(r.value, from) == BalanceOf(l, from) - amount
              && BalanceOf(r.value, to) == BalanceOf(l, to) + amount
              && AllowanceOf(r.value, from) == AllowanceOf(l, from) - amount
    ensures r.Ok? ==> forall o :: o != from && o != to ==> BalanceOf(r.value, o) == BalanceOf(l, o)
    ensures r.Ok? ==> forall o :: o != from ==> AllowanceOf(r.value, o) == AllowanceOf(l, o)
    ensures r.Ok? && from == to ==> r.value == l
  {
    if BalanceOf(l, from) < amount || AllowanceOf(l, from) < amount then Err(TokenInsufficientFunds)
    else if from == to then Ok(l)
    else if BalanceOf(l, to) + amount > U64_MAX then Err(TokenOverflow)
    else
      Ok(Ledger(
           l.balances[from := BalanceOf(l, from) - amount][to := BalanceOf(l, to) + amount],
           l.allowances[from := AllowanceOf(l, from) - amount]))
  }
}
