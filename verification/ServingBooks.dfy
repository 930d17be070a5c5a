/** Where every atom of the serving machine is, and that no step creates or loses one unnoticed. */
module ServingBooks {
  import opened Wrappers
  import opened MapSums
  import opened CallJournal
  import opened ServerLedger
  import opened ServingHarness
  import opened Serving
  import opened ServingInvariant

  function OpenAmount(e: Entry): int {
    if e.done then 0 else e.atoms
  }

  /** The atoms of all charges journaled as open. */
  ghost function OpenCharges(j: Journal): int {
    Sum(map k | k in j :: OpenAmount(j[k]))
  }

  /** Where every credited atom is. */
  ghost predicate Books(s: State) {
    && Solvent(s.ledger)
    && Sum(s.ledger) + OpenCharges(s.journal) + s.hist.earned
       + LostSum(s.owners) - OverpaidSum(s.owners) - HalfRefunded(s)
       + s.hist.lost - s.hist.over
       == s.hist.credited
  }

  ghost predicate Inv(s: State) {
    Shape(s) && Books(s)
  }

  lemma OwnerSums(owners: map<Id, Owner>, r: Id, o: Owner)
    requires r in owners
    ensures LostSum(owners[r := o]) == LostSum(owners) - LostBy(owners[r]) + LostBy(o)
    ensures OverpaidSum(owners[r := o]) == OverpaidSum(owners) - OverpaidBy(owners[r]) + OverpaidBy(o)
  {
    var lost := map q | q in owners :: LostBy(owners[q]);
    var over := map q | q in owners :: OverpaidBy(owners[q]);
    var after := owners[r := o];
    assert (map q | q in after :: LostBy(after[q])) == lost[r := LostBy(o)];
    assert (map q | q in after :: OverpaidBy(after[q])) == over[r := OverpaidBy(o)];
    SumStore(lost, r, LostBy(o));
    SumStore(over, r, OverpaidBy(o));
  }

  lemma OwnerComesOrGoes(owners: map<Id, Owner>, r: Id)
    requires r in owners && LostBy(owners[r]) == 0 && OverpaidBy(owners[r]) == 0
    ensures LostSum(owners) == LostSum(owners - {r})
    ensures OverpaidSum(owners) == OverpaidSum(owners - {r})
  {
    var lost := map q | q in owners :: LostBy(owners[q]);
    var over := map q | q in owners :: OverpaidBy(owners[q]);
    var rest := owners - {r};
    assert (map q | q in rest :: LostBy(rest[q])) == lost - {r};
    assert (map q | q in rest :: OverpaidBy(rest[q])) == over - {r};
    SumDrop(lost, r);
    SumDrop(over, r);
  }

  lemma OpenStored(j: Journal, k: string, e: Entry)
    ensures OpenCharges(j[k := e]) == OpenCharges(j) - (if k in j then OpenAmount(j[k]) else 0) + OpenAmount(e)
  {
    var m := map q | q in j :: OpenAmount(j[q]);
    var after := j[k := e];
    assert (map q | q in after :: OpenAmount(after[q])) == m[k := OpenAmount(e)];
    SumStore(m, k, OpenAmount(e));
  }

  lemma OpenRemoved(j: Journal, k: string)
    requires k in j
    ensures OpenCharges(j - {k}) == OpenCharges(j) - OpenAmount(j[k])
  {
    var m := map q | q in j :: OpenAmount(j[q]);
    var after := j - {k};
    assert (map q | q in after :: OpenAmount(after[q])) == m - {k};
    SumDrop(m, k);
  }

  lemma OpenCollected(j: Journal, now: int)
    ensures OpenCharges(Collected(j, now)) == OpenCharges(j)
  {
    var c := Collected(j, now);
    SumSupport(map q | q in j :: OpenAmount(j[q]), map q | q in c :: OpenAmount(c[q]));
  }

  /** Steps that move an owner but no money. */
  lemma SameMoney(s: State, s': State, r: Id)
    requires Books(s) && r in s.owners && r in s'.owners && s'.owners == s.owners[r := s'.owners[r]]
    requires LostBy(s'.owners[r]) == LostBy(s.owners[r]) && OverpaidBy(s'.owners[r]) == OverpaidBy(s.owners[r])
    requires s'.ledger == s.ledger && s'.journal == s.journal && s'.mode == s.mode
    requires s'.hist.credited == s.hist.credited && s'.hist.earned == s.hist.earned
    requires s'.hist.lost == s.hist.lost && s'.hist.over == s.hist.over
    ensures Books(s')
  {
    OwnerSums(s.owners, r, s'.owners[r]);
  }

  lemma DebitBooks(s: State, r: Id, price: int)
    requires Books(s) && Moving(s, r) && DebitAt(s, r, price).Some?
    ensures Books(DebitAt(s, r, price).value)
  {
    var s' := DebitAt(s, r, price).value;
    OwnerSums(s.owners, r, s'.owners[r]);
    DebitRemoves(s.ledger, s.owners[r].peer, price);
  }

  lemma RepayBooks(s: State, r: Id)
    requires Books(s) && Moving(s, r) && RepayAt(s, r).Some?
    ensures Books(RepayAt(s, r).value)
  {
    OwnerSums(s.owners, r, RepayAt(s, r).value.owners[r]);
    CreditAdds(s.ledger, s.owners[r].peer, s.owners[r].price);
  }

  lemma ChargeBooks(s: State, r: Id)
    requires Books(s) && Filed(s, r) && ChargeAt(s, r).Some?
    ensures Books(ChargeAt(s, r).value)
  {
    var s', o := ChargeAt(s, r).value, s.owners[r];
    OwnerSums(s.owners, r, s'.owners[r]);
    OpenStored(s.journal, o.key, OpenEntry(o.peer, o.price));
  }

  lemma OutcomeBooks(s: State, r: Id)
    requires Books(s) && Filed(s, r) && OutcomeAt(s, r).Some?
    ensures Books(OutcomeAt(s, r).value)
  {
    OwnerSums(s.owners, r, OutcomeAt(s, r).value.owners[r]);
    OutcomeCloses(s, r);
  }

  /** Completing the journal entry takes exactly the owner's price out of the open charges. */
  lemma OutcomeCloses(s: State, r: Id)
    requires Filed(s, r) && OutcomeAt(s, r).Some?
    ensures OpenCharges(OutcomeAt(s, r).value.journal)
         == OpenCharges(s.journal) - (if 0 < s.owners[r].price then s.owners[r].price else 0)
  {
    var s', key := OutcomeAt(s, r).value, s.owners[r].key;
    if key in s.journal {
      assert EntryOk(s, key);
      OpenStored(s.journal, key, s'.journal[key]);
    }
  }

  lemma CloseBooks(s: State, r: Id)
    requires Books(s) && Moving(s, r) && CloseAt(s, r).Some?
    ensures Books(CloseAt(s, r).value)
  {
    OwnerComesOrGoes(s.owners, r);
  }

  lemma RefuseBooks(s: State, r: Id)
    requires Books(s) && Moving(s, r) && RefuseAt(s, r).Some?
    ensures Books(RefuseAt(s, r).value)
  {
    SameMoney(s, RefuseAt(s, r).value, r);
  }

  lemma FreeBooks(s: State, r: Id)
    requires Books(s) && Moving(s, r) && FreeAt(s, r).Some?
    ensures Books(FreeAt(s, r).value)
  {
    SameMoney(s, FreeAt(s, r).value, r);
  }

  lemma QuoteBooks(s: State, r: Id)
    requires Books(s) && Moving(s, r) && QuoteAt(s, r).Some?
    ensures Books(QuoteAt(s, r).value)
  {
    SameMoney(s, QuoteAt(s, r).value, r);
  }

  lemma StartBooks(s: State, r: Id)
    requires Books(s) && Moving(s, r) && StartAt(s, r).Some?
    ensures Books(StartAt(s, r).value)
  {
    SameMoney(s, StartAt(s, r).value, r);
  }

  lemma ReturnBooks(s: State, r: Id, o: Outcome)
    requires Books(s) && Moving(s, r) && ReturnAt(s, r, o).Some?
    ensures Books(ReturnAt(s, r, o).value)
  {
    SameMoney(s, ReturnAt(s, r, o).value, r);
  }

  lemma RecordBooks(s: State, r: Id)
    requires Books(s) && Moving(s, r) && RecordAt(s, r).Some?
    ensures Books(RecordAt(s, r).value)
  {
    SameMoney(s, RecordAt(s, r).value, r);
  }

  lemma EarlyStepBalances(s: State, l: Label)
    requires Books(s) && IsOwnerStep(l) && IsEarly(l) && OwnerStep(s, l).Some? && Filed(s, l.r)
    ensures Books(OwnerStep(s, l).value)
  {
    if l.Refuse? {
      RefuseBooks(s, l.r);
    } else if l.Free? {
      FreeBooks(s, l.r);
    } else if l.Debit? {
      DebitBooks(s, l.r, l.price);
    } else if l.Quote? {
      QuoteBooks(s, l.r);
    } else {
      ChargeBooks(s, l.r);
    }
  }

  lemma LateStepBalances(s: State, l: Label)
    requires Books(s) && IsOwnerStep(l) && !IsEarly(l) && OwnerStep(s, l).Some? && Filed(s, l.r)
    ensures Books(OwnerStep(s, l).value)
  {
    if l.Start? {
      StartBooks(s, l.r);
    } else if l.Return? {
      ReturnBooks(s, l.r, l.o);
    } else if l.Repay? {
      RepayBooks(s, l.r);
    } else if l.Record? {
      RecordBooks(s, l.r);
    } else if l.JournalOutcome? {
      OutcomeBooks(s, l.r);
    } else {
      CloseBooks(s, l.r);
    }
  }

  lemma OwnerStepBalances(s: State, l: Label)
    requires Inv(s) && IsOwnerStep(l) && OwnerStep(s, l).Some?
    ensures Books(OwnerStep(s, l).value)
  {
    ShapeIsForAll(s);
    OwnerIsFiled(s, l.r);
    if IsEarly(l) {
      EarlyStepBalances(s, l);
    } else {
      LateStepBalances(s, l);
    }
  }

  lemma EnterBalances(s: State, key: string, peer: string)
    requires Core(s) && Books(s)
    ensures Books(Entered(s, key, peer))
  {
    var s', r := Entered(s, key, peer), Fresh(s.nextId);
    assert r in s.owners ==> OwnerOk(s, r);
    assert s'.owners - {r} == s.owners;
    OwnerComesOrGoes(s'.owners, r);
  }

  lemma ClaimBalances(s: State, peer: string, callKey: string)
    requires Inv(s) && Linked(s) && s.mode == Up
    ensures Books(ClaimStep(s, peer, callKey))
  {
    var key, s1 := peer + "|" + callKey, SweptState(s);
    OpenCollected(s.journal, s.now);
    SweepCore(s);
    if key !in s1.calls {
      EnterBalances(s1, key, peer);
    }
  }

  lemma RefundBalances(s: State, key: string)
    requires Inv(s) && BootStep(s, RefundOpen(key)).Some?
    ensures Books(BootStep(s, RefundOpen(key)).value)
  {
    ShapeIsForAll(s);
    CreditAdds(s.ledger, s.journal[key].peer, s.journal[key].atoms);
  }

  lemma ForgetBalances(s: State)
    requires Inv(s) && BootStep(s, ForgetOpen).Some?
    ensures Books(BootStep(s, ForgetOpen).value)
  {
    var key := s.mode.credited.value;
    assert PaperFor(s, key);
    assert key in InterruptedIn(s.journal);
    OpenRemoved(s.journal, key);
  }

  lemma BootStepBalances(s: State, l: Label)
    requires Inv(s) && IsBootStep(l) && BootStep(s, l).Some?
    ensures Books(BootStep(s, l).value)
  {
    match l {
      case Crash =>
      case Boot =>
      case RefundOpen(key) => RefundBalances(s, key);
      case ForgetOpen => ForgetBalances(s);
      case BootDone => OpenCollected(s.journal, s.now);
    }
  }

  /** Every step keeps the equation that accounts for all credited atoms. */
  lemma {:induction false} StepBalances(s: State, l: Label)
    requires Inv(s) && Step(s, l).Some?
    ensures Books(Step(s, l).value)
  {
    if IsOwnerStep(l) {
      OwnerStepBalances(s, l);
    } else if IsBootStep(l) {
      BootStepBalances(s, l);
    } else if l.Claim? {
      ClaimBalances(s, l.peer, l.callKey);
    } else if l.Tip? {
      CreditAdds(s.ledger, l.peer, l.atoms);
    }
  }

  lemma StepKeeps(s: State, l: Label)
    requires Inv(s) && Step(s, l).Some? && Timely(s, l)
    ensures Inv(Step(s, l).value)
  {
    StepKeepsShape(s, l);
    StepBalances(s, l);
  }
}
