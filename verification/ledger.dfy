/** Edit requests as the pages receive them, the owner's approve/reject
    decision dialog, and the pending-request lists the dashboards show. The
    ledger itself (creation, decisions, consumption) lives on the server;
    here a request is only an input value. */
module Ledger {
  import opened Values

  datatype Status = Pending | Approved | Rejected

  /** One edit request: its id, the field path it asks for, its status and
      whether an approved request has already been used by a staff update. */
  datatype Request = Request(id: string, fieldPath: string, status: Status, consumed: bool)

  /** The status value the owner's buttons send. */
  datatype Decision = Approve | Reject

  /** The confirmation dialog. An id of `""` stands for `null`: both are
      falsy in the guard of `confirmAction`. */
  datatype Dialog = Dialog(open: bool, action: Option<Decision>, id: string)

  const ClosedDialog: Dialog := Dialog(false, None, "")

  /** The PATCH that sets a request's status. */
  datatype Mutation = Mutation(id: string, decision: Decision)

  /** Clicking Approve or Reject on a row opens the dialog for that row. */
  function OpenDialog(r: Request, d: Decision): (dlg: Dialog)
    ensures dlg.open && dlg.action == Some(d) && dlg.id == r.id
  {
    Dialog(true, Some(d), r.id)
  }

  /** `confirmAction`: at most one decision is sent, only when both the id
      and the action are set, and the dialog always ends closed. */
  function ConfirmAction(dlg: Dialog): (res: (Option<Mutation>, Dialog))
    ensures res.1 == ClosedDialog
    ensures res.0.Some? <==> dlg.id != "" && dlg.action.Some?
    ensures res.0.Some? ==> res.0.value == Mutation(dlg.id, dlg.action.value)
  {
    if dlg.id != "" && dlg.action.Some? then (Some(Mutation(dlg.id, dlg.action.value)), ClosedDialog)
    else (None, ClosedDialog)
  }

  /** Confirming an opened row dialog sends exactly that row's decision; a
      second confirm on the closed dialog sends nothing. */
  lemma ConfirmOnce(r: Request, d: Decision)
    requires r.id != ""
    ensures ConfirmAction(OpenDialog(r, d)).0 == Some(Mutation(r.id, d))
    ensures ConfirmAction(ConfirmAction(OpenDialog(r, d)).1).0 == None
  {
  }

  // ----- pending requests -----------------------------------------------------

  /** `requests.filter(r => r.status === "PENDING")`. */
  function PendingRequests(rs: seq<Request>): (ps: seq<Request>)
    ensures |ps| <= |rs|
    ensures forall i | 0 <= i < |ps| :: ps[i].status == Pending
  {
    if |rs| == 0 then []
    else PendingRequests(rs[..|rs| - 1]) + (if rs[|rs| - 1].status == Pending then [rs[|rs| - 1]] else [])
  }

  /** Filtering keeps input order: it distributes over concatenation. */
  lemma {:induction false} PendingConcat(a: seq<Request>, b: seq<Request>)
    ensures PendingRequests(a + b) == PendingRequests(a) + PendingRequests(b)
  {
    if |b| == 0 {
      assert a + b == a;
    } else {
      assert (a + b)[..|a + b| - 1] == a + b[..|b| - 1];
      PendingConcat(a, b[..|b| - 1]);
    }
  }

  /** Each pending request is kept as often as it occurs, every other one
      is dropped. */
  lemma {:induction false} PendingCount(rs: seq<Request>, r: Request)
    ensures Count(PendingRequests(rs), r) == if r.status == Pending then Count(rs, r) else 0
  {
    if |rs| > 0 {
      var last := rs[|rs| - 1];
      var kept := if last.status == Pending then [last] else [];
      PendingCount(rs[..|rs| - 1], r);
      CountConcat(PendingRequests(rs[..|rs| - 1]), kept, r);
      if last.status == Pending {
        CountOne(last, r);
      }
    }
  }

  /** `pendingRequests.slice(0, 3)`. */
  function LatestRequests(rs: seq<Request>): (ls: seq<Request>)
    ensures |ls| == if |PendingRequests(rs)| < 3 then |PendingRequests(rs)| else 3
    ensures ls <= PendingRequests(rs)
  {
    var ps := PendingRequests(rs);
    if |ps| < 3 then ps else ps[..3]
  }
}
