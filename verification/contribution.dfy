/** The approval workflow of a contributed sound fragment
    (ContributionWorkflow): a status and the history of its changes. Setting
    a status records the change from a previous non-null status; a first
    status is recorded nowhere. The history is a list that nothing in the
    class creates, so recording into a null history fails as Java's
    NullPointerException does. Approval statuses are carried by their names
    (the ApprovalStatus enum is not part of this model); the clock is a
    parameter. */
module Contribution {
  import opened Common

  datatype ApprovalStatus = ApprovalStatus(name: string)

  /** One recorded change: when, from which status, to which (possibly null). */
  datatype ApprovalStatusChange = ApprovalStatusChange(timestamp: int, oldStatus: ApprovalStatus,
                                                       newStatus: Option<ApprovalStatus>)

  /** The part of the workflow that setStatus reads and writes. */
  datatype Workflow = Workflow(status: Option<ApprovalStatus>, history: Option<seq<ApprovalStatusChange>>)

  /** setStatus on a value: None when it throws. */
  function NextWorkflow(w: Workflow, newStatus: Option<ApprovalStatus>, now: int): Option<Workflow> {
    if w.status.None? then Some(w.(status := newStatus))
    else if w.history.None? then None
    else Some(Workflow(newStatus, Some(w.history.value + [ApprovalStatusChange(now, w.status.value, newStatus)])))
  }

  /** The history is a chain: each change starts where the one before it
      ended, the last one ends at the current status, and a status has been
      set before any change was recorded. */
  predicate Chained(w: Workflow) {
    w.history.Some? ==>
      var h := w.history.value;
      && (forall i :: 0 < i < |h| ==> h[i - 1].newStatus == Some(h[i].oldStatus))
      && (h != [] ==> h[|h| - 1].newStatus == w.status)
      && (w.status.None? ==> h == [])
  }

  /** Setting a status succeeds unless a previous status must be recorded
      into a null history; afterwards the status is the one set, and the
      history has grown by exactly one entry, (previous, new), exactly when
      there was a previous status. */
  lemma NextWorkflowSpec(w: Workflow, newStatus: Option<ApprovalStatus>, now: int)
    ensures NextWorkflow(w, newStatus, now).None? <==> w.status.Some? && w.history.None?
    ensures NextWorkflow(w, newStatus, now).Some? ==>
      var w' := NextWorkflow(w, newStatus, now).value;
      && w'.status == newStatus
      && (w.status.None? ==> w'.history == w.history)
      && (w.status.Some? ==> w'.history.Some? && |w'.history.value| == |w.history.value| + 1
                             && w'.history.value[..|w.history.value|] == w.history.value
                             && w'.history.value[|w.history.value|] == ApprovalStatusChange(now, w.status.value, newStatus))
  {
    if w.status.Some? && w.history.Some? {
      var h := w.history.value;
      var e := ApprovalStatusChange(now, w.status.value, newStatus);
      assert (h + [e])[..|h|] == h;
    }
  }

  /** The first status of a workflow leaves no trace in the history. */
  lemma FirstStatusNotRecorded(history: Option<seq<ApprovalStatusChange>>, s: Option<ApprovalStatus>, now: int)
    ensures NextWorkflow(Workflow(None, history), s, now) == Some(Workflow(s, history))
  {
  }

  /** Setting the status it already has still records a change. */
  lemma SameStatusRecorded(s: ApprovalStatus, h: seq<ApprovalStatusChange>, now: int)
    ensures NextWorkflow(Workflow(Some(s), Some(h)), Some(s), now)
            == Some(Workflow(Some(s), Some(h + [ApprovalStatusChange(now, s, Some(s))])))
  {
  }

  /** With a history in place and only non-null statuses set, the history
      stays a chain. */
  lemma ChainPreserved(w: Workflow, s: ApprovalStatus, now: int)
    requires Chained(w) && NextWorkflow(w, Some(s), now).Some?
    ensures Chained(NextWorkflow(w, Some(s), now).value)
  {
    if w.status.Some? {
      var h := w.history.value;
      var h' := h + [ApprovalStatusChange(now, w.status.value, Some(s))];
      assert forall i :: 0 < i < |h'| ==> h'[i - 1].newStatus == Some(h'[i].oldStatus) by {
        forall i | 0 < i < |h'|
          ensures h'[i - 1].newStatus == Some(h'[i].oldStatus)
        {
          if i < |h| {
            assert h'[i - 1] == h[i - 1] && h'[i] == h[i];
          } else {
            assert h'[i - 1] == h[|h| - 1];
          }
        }
      }
    }
  }

  /** A null status breaks the chain: after a, null, b the history records
      only the change from a to null, and nothing leads to b. */
  lemma NullStatusLeavesGap(a: ApprovalStatus, b: ApprovalStatus, t1: int, t2: int)
    ensures var w1 := NextWorkflow(Workflow(Some(a), Some([])), None, t1).value;
            var w2 := NextWorkflow(w1, Some(b), t2).value;
            w2 == Workflow(Some(b), Some([ApprovalStatusChange(t1, a, None)])) && !Chained(w2)
  {
    var e := ApprovalStatusChange(t1, a, None);
    assert [] + [e] == [e];
  }

  /** A workflow fresh from its constructor has a null history, so its
      second status change throws. */
  lemma FreshWorkflowFailsOnSecondStatus(a: ApprovalStatus, b: Option<ApprovalStatus>, t1: int, t2: int)
    ensures NextWorkflow(NextWorkflow(Workflow(None, None), Some(a), t1).value, b, t2).None?
  {
  }

  class ContributionWorkflow {
    var contributor: Option<string>
    var contributionTime: Option<int>
    var status: Option<ApprovalStatus>
    var statusChangeHistory: Option<seq<ApprovalStatusChange>>

    function State(): Workflow
      reads this
    {
      Workflow(status, statusChangeHistory)
    }

    /** Every field null. */
    constructor()
      ensures contributor.None? && contributionTime.None? && State() == Workflow(None, None)
    {
      contributor, contributionTime, status, statusChangeHistory := None, None, None, None;
    }

    /** The generated setter of the history list. */
    method SetStatusChangeHistory(history: Option<seq<ApprovalStatusChange>>)
      modifies this
      ensures statusChangeHistory == history
      ensures status == old(status) && contributor == old(contributor) && contributionTime == old(contributionTime)
    {
      statusChangeHistory := history;
    }

    /** setStatus: `thrown` when the previous status must be recorded into a
        null history, in which case nothing changes; otherwise the new state
        is NextWorkflow of the old one. */
    method SetStatus(newStatus: Option<ApprovalStatus>, now: int) returns (thrown: bool)
      modifies this
      ensures thrown <==> NextWorkflow(old(State()), newStatus, now).None?
      ensures thrown ==> State() == old(State())
      ensures !thrown ==> State() == NextWorkflow(old(State()), newStatus, now).value
      ensures contributor == old(contributor) && contributionTime == old(contributionTime)
    {
      thrown := false;
      if status.Some? {
        if statusChangeHistory.None? {
          thrown := true;
          return;
        }
        statusChangeHistory := Some(statusChangeHistory.value + [ApprovalStatusChange(now, status.value, newStatus)]);
      }
      status := newStatus;
    }
  }
}
