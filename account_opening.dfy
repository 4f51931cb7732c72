/** The four-step account-opening wizard: confirm the company restrictions,
    confirm investor eligibility, tick at least four of the eight required
    documents, then submit. */
module AccountOpening {
  import opened Seqs

  /** The ids of `REQUIRED_DOCUMENTS`, in display order. */
  const DocumentIds: seq<string> :=
    ["license", "legal_rep", "articles", "financial", "investor_cert", "aml", "board", "ubo"]

  const FirstStep: int := 1
  const LastStep: int := 4

  /** The documents the third step asks for: eight, none listed twice. */
  lemma DocumentIdsSpec()
    ensures |DocumentIds| == 8 && Distinct(DocumentIds)
  {
  }

  /** `canProceed`: the gate on the next button. */
  function CanProceed(step: int, confirmedCompany: bool, confirmedInvestor: bool, checkedDocs: seq<string>): (r: bool)
    ensures step == 1 ==> (r <==> confirmedCompany)
    ensures step == 2 ==> (r <==> confirmedInvestor)
    ensures step == 3 ==> (r <==> |checkedDocs| >= 4)
    ensures step != 1 && step != 2 && step != 3 ==> r
  {
    if step == 1 then confirmedCompany
    else if step == 2 then confirmedInvestor
    else if step == 3 then |checkedDocs| >= 4
    else true
  }

  /** The back button, offered only before the last step: `Math.max(1, step - 1)`. */
  function BackStep(step: int): (r: int)
    ensures FirstStep <= step <= LastStep ==> FirstStep <= r <= LastStep
    ensures step == LastStep ==> r == step
    ensures FirstStep < step < LastStep ==> r == step - 1
  {
    if step < LastStep then (if step - 1 > FirstStep then step - 1 else FirstStep) else step
  }

  /** The next button, offered only before the last step and enabled only when
      the step's gate holds: `Math.min(4, step + 1)`. */
  function NextStep(step: int, canProceed: bool): (r: int)
    ensures FirstStep <= step <= LastStep ==> FirstStep <= r <= LastStep
    ensures step >= LastStep || !canProceed ==> r == step
    ensures step < LastStep && canProceed ==> r == step + 1
  {
    if step < LastStep && canProceed then (if step + 1 < LastStep then step + 1 else LastStep) else step
  }

  /** Back undoes an accepted next, except into the last step, which is final. */
  lemma BackUndoesNext(step: int)
    requires FirstStep <= step < LastStep - 1
    ensures BackStep(NextStep(step, true)) == step
    ensures BackStep(NextStep(LastStep - 1, true)) == LastStep
  {
  }

  /** `handleDocCheck`'s list stays duplicate-free, and, holding only listed
      documents, counts at most eight. */
  lemma CheckedDocsBounded(checkedDocs: seq<string>, docId: string)
    requires Distinct(checkedDocs)
    requires forall d :: d in checkedDocs ==> d in DocumentIds
    requires docId in DocumentIds
    ensures Distinct(Toggle(checkedDocs, docId))
    ensures |Toggle(checkedDocs, docId)| <= 8
  {
    ToggleDistinct(checkedDocs, docId);
    DistinctBounded(Toggle(checkedDocs, docId), set d | d in DocumentIds);
    DocumentIdsSpec();
    assert |set d | d in DocumentIds| <= 8 by {
      SetOfSeqBounded(DocumentIds);
    }
  }

  lemma {:induction false} SetOfSeqBounded(s: seq<string>)
    ensures |set d | d in s| <= |s|
  {
    if s != [] {
      SetOfSeqBounded(s[1..]);
      assert (set d | d in s) == (set d | d in s[1..]) + {s[0]};
    }
  }

  /** A click on a document's checkbox reaches two handlers: the checkbox's own
      change handler and, bubbling up, the card's click handler. Both toggle
      the document, so on an unticked document the click changes nothing. */
  lemma CheckboxClickToggleTwice(checkedDocs: seq<string>, docId: string)
    requires docId !in checkedDocs
    ensures Toggle(Toggle(checkedDocs, docId), docId) == checkedDocs
  {
    ToggleTwice(checkedDocs, docId);
  }

  class Flow {
    var currentStep: int
    var confirmedCompany: bool
    var confirmedInvestor: bool
    var checkedDocs: seq<string>

    constructor ()
      ensures currentStep == FirstStep && !confirmedCompany && !confirmedInvestor && checkedDocs == []
    {
      currentStep := FirstStep;
      confirmedCompany := false;
      confirmedInvestor := false;
      checkedDocs := [];
    }

    /** Whether the next button is enabled now. */
    function CanProceedNow(): bool
      reads this`currentStep, this`confirmedCompany, this`confirmedInvestor, this`checkedDocs
    {
      CanProceed(currentStep, confirmedCompany, confirmedInvestor, checkedDocs)
    }

    method SetConfirmedCompany(checked: bool)
      modifies this`confirmedCompany
      ensures confirmedCompany == checked
    {
      confirmedCompany := checked;
    }

    method SetConfirmedInvestor(checked: bool)
      modifies this`confirmedInvestor
      ensures confirmedInvestor == checked
    {
      confirmedInvestor := checked;
    }

    /** Going back moves only the step; confirmations and ticked documents stay. */
    method Back()
      modifies this`currentStep
      ensures currentStep == BackStep(old(currentStep))
      ensures FirstStep <= old(currentStep) <= LastStep ==> FirstStep <= currentStep <= LastStep
    {
      if currentStep < LastStep {
        currentStep := if currentStep - 1 > FirstStep then currentStep - 1 else FirstStep;
      }
    }

    method Next()
      modifies this`currentStep
      ensures currentStep == NextStep(old(currentStep), old(CanProceedNow()))
      ensures FirstStep <= old(currentStep) <= LastStep ==> FirstStep <= currentStep <= LastStep
    {
      if currentStep < LastStep && CanProceedNow() {
        currentStep := if currentStep + 1 < LastStep then currentStep + 1 else LastStep;
      }
    }

    /** Ticks an unticked document (at the end) or unticks a ticked one. */
    method HandleDocCheck(docId: string)
      modifies this`checkedDocs
      ensures checkedDocs == Toggle(old(checkedDocs), docId)
      ensures (docId in checkedDocs) == (docId !in old(checkedDocs))
      ensures docId !in old(checkedDocs) ==> checkedDocs == old(checkedDocs) + [docId]
    {
      if docId in checkedDocs {
        checkedDocs := Remove(checkedDocs, docId);
      } else {
        checkedDocs := checkedDocs + [docId];
      }
    }

    /** A click on the checkbox itself, as written: both handlers run. */
    method ClickCheckboxAsWritten(docId: string)
      modifies this`checkedDocs
      ensures checkedDocs == Toggle(Toggle(old(checkedDocs), docId), docId)
      ensures docId !in old(checkedDocs) ==> checkedDocs == old(checkedDocs)
    {
      HandleDocCheck(docId);
      HandleDocCheck(docId);
      if docId !in old(checkedDocs) {
        CheckboxClickToggleTwice(old(checkedDocs), docId);
      }
    }

    /** A click on the checkbox with the event kept from the card: one toggle. */
    method ClickCheckbox(docId: string)
      modifies this`checkedDocs
      ensures checkedDocs == Toggle(old(checkedDocs), docId)
      ensures (docId in checkedDocs) == (docId !in old(checkedDocs))
    {
      HandleDocCheck(docId);
    }
  }
}
