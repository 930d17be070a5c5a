/** The per-caller balance store (server/ledger.go): balances in atoms, every mutation written through to disk. */
module ServerLedger {
  import opened Wrappers
  import opened MapSums

  type Balances = map<string, int>

  function BalanceOf(b: Balances, uid: string): int {
    if uid in b then b[uid] else 0
  }

  function Credited(b: Balances, uid: string, atoms: int): Balances {
    if atoms <= 0 then b else b[uid := BalanceOf(b, uid) + atoms]
  }

  /** None stands for ErrInsufficient. */
  function Debited(b: Balances, uid: string, atoms: int): Option<Balances> {
    if atoms <= 0 then Some(b)
    else if BalanceOf(b, uid) < atoms then None
    else Some(b[uid := BalanceOf(b, uid) - atoms])
  }

  ghost predicate Solvent(b: Balances) {
    forall uid :: uid in b ==> 0 <= b[uid]
  }

  /** A credit adds exactly its positive amount to the total, and to nobody but its uid. */
  lemma CreditAdds(b: Balances, uid: string, atoms: int)
    ensures Sum(Credited(b, uid, atoms)) == Sum(b) + (if atoms > 0 then atoms else 0)
    ensures Solvent(b) ==> Solvent(Credited(b, uid, atoms))
    ensures forall other :: other != uid ==> BalanceOf(Credited(b, uid, atoms), other) == BalanceOf(b, other)
  {
    if atoms > 0 {
      SumStore(b, uid, BalanceOf(b, uid) + atoms);
    }
  }

  /** A debit succeeds exactly when the balance covers it, removes exactly its amount, and never overdraws. */
  lemma DebitRemoves(b: Balances, uid: string, atoms: int)
    requires atoms > 0
    ensures Debited(b, uid, atoms).Some? <==> atoms <= BalanceOf(b, uid)
    ensures Debited(b, uid, atoms).Some? ==>
              var c := Debited(b, uid, atoms).value;
              && Sum(c) == Sum(b) - atoms
              && (Solvent(b) ==> Solvent(c))
              && BalanceOf(c, uid) == BalanceOf(b, uid) - atoms
  {
    if atoms <= BalanceOf(b, uid) {
      SumStore(b, uid, BalanceOf(b, uid) - atoms);
    }
  }

  /** A refund of a successful debit restores every balance. */
  lemma RefundUndoesDebit(b: Balances, uid: string, atoms: int)
    requires 0 < atoms <= BalanceOf(b, uid)
    ensures forall other :: BalanceOf(Credited(Debited(b, uid, atoms).value, uid, atoms), other) == BalanceOf(b, other)
  {
  }

  class Ledger {
    var balances: Balances
    var disk: Balances

    ghost predicate Valid()
      reads this
    {
      disk == balances && Solvent(balances)
    }

    constructor (stored: Balances)
      requires Solvent(stored)
      ensures Valid() && balances == stored
    {
      balances, disk := stored, stored;
    }

    method Balance(uid: string) returns (atoms: int)
      requires Valid()
      ensures atoms == BalanceOf(balances, uid) && 0 <= atoms
    {
      atoms := if uid in balances then balances[uid] else 0;
    }

    method Credit(uid: string, atoms: int)
      requires Valid()
      modifies this
      ensures Valid() && balances == Credited(old(balances), uid, atoms)
      ensures forall other :: BalanceOf(balances, other)
                           == BalanceOf(old(balances), other) + (if other == uid && 0 < atoms then atoms else 0)
    {
      if atoms <= 0 {
        return;
      }
      balances := balances[uid := BalanceOf(balances, uid) + atoms];
      disk := balances;
    }

    method Debit(uid: string, atoms: int) returns (ok: bool)
      requires Valid()
      modifies this
      ensures Valid()
      ensures ok <==> atoms <= 0 || atoms <= BalanceOf(old(balances), uid)
      ensures forall other :: BalanceOf(balances, other)
                           == BalanceOf(old(balances), other) - (if ok && other == uid && 0 < atoms then atoms else 0)
      ensures ok <==> Debited(old(balances), uid, atoms).Some?
      ensures balances == if ok then Debited(old(balances), uid, atoms).value else old(balances)
    {
      if atoms <= 0 {
        return true;
      }
      if BalanceOf(balances, uid) < atoms {
        return false;
      }
      balances := balances[uid := BalanceOf(balances, uid) - atoms];
      disk := balances;
      ok := true;
    }
  }
}
