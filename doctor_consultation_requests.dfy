/**
  The doctor's consultation-requests screen of the frontend: which actions
  each request offers, depending on its status string, and how the
  component's state (`requests`, `updatingId`, `newDateTime`) changes when
  the doctor acts.

  The status PUT request is not modelled; its outcome is a parameter.
 */
module DoctorRequests {
  import opened JsValues

  // ---------------------------------------------------------------- statuses

  const Pending := "pending"
  const Accepted := "Accepted"
  const Rejected := "Rejected"
  const Confirmed := "Confirmed"
  const Completed := "Completed"

  /** A consultation request as the doctor's request list holds it. */
  datatype Request = Request(
    id: int, status: string, dateTime: Nullable,
    patientUsername: Nullable, reason: Nullable, description: Nullable, imageUrl: Nullable)

  /** The buttons a request card can show. */
  datatype Action = Accept | Reject | ChangeTime | SaveTime | Confirm | Complete

  /**
    Reference table of the workflow, read per action: the status from which
    each action is legal.
   */
  predicate Permitted(status: string, a: Action) {
    match a
    case Accept => status == Pending
    case Reject => status == Pending
    case ChangeTime => status == Accepted
    case SaveTime => status == Accepted
    case Confirm => status == Accepted
    case Complete => status == Confirmed
  }

  /**
    The status edges of the workflow: pending to Accepted or Rejected;
    Accepted to itself (a new time) or Confirmed; Confirmed to Completed.
   */
  predicate Step(from: string, to: string) {
    || (from == Pending && (to == Accepted || to == Rejected))
    || (from == Accepted && (to == Accepted || to == Confirmed))
    || (from == Confirmed && to == Completed)
  }

  /**
    The buttons rendered for request `r`, in screen order: the time editor's
    Save Time first (only while this request is the one being re-timed), then
    the status buttons.
   */
  function Buttons(r: Request, updatingId: Option<int>): (bs: seq<Action>)
    ensures forall a :: a in bs ==> Permitted(r.status, a)
    ensures forall a :: Permitted(r.status, a) && a != SaveTime ==> a in bs
    ensures SaveTime in bs <==> r.status == Accepted && updatingId == Some(r.id)
    ensures bs == [] <==> r.status != Pending && r.status != Accepted && r.status != Confirmed
  {
    (if r.status == Accepted && updatingId == Some(r.id) then [SaveTime] else [])
    + (if r.status == Pending then [Accept, Reject] else [])
    + (if r.status == Accepted then [ChangeTime, Confirm] else [])
    + (if r.status == Confirmed then [Complete] else [])
  }

  /** What a button's click handler does. */
  datatype Effect =
    | BeginTimeChange                          // `handleChangeTime(request.id)`
    | Put(status: string, dateTime: Nullable)  // `updateStatus(request.id, status, dateTime)`

  /**
    The click handler of each button. Only Save Time passes a time (the
    component's `newDateTime`); the other status buttons pass none.
   */
  function OnClick(a: Action, newDateTime: Nullable): (e: Effect)
    ensures e.Put? <==> a != ChangeTime
    ensures e.Put? && a != SaveTime ==> e.dateTime == Missing
    ensures a == SaveTime ==> e.dateTime == newDateTime
    // the target status of each status button
    ensures e.Put? ==> (e.status == Accepted <==> a == Accept || a == SaveTime)
    ensures e.Put? ==> (e.status == Rejected <==> a == Reject)
    ensures e.Put? ==> (e.status == Confirmed <==> a == Confirm)
    ensures e.Put? ==> (e.status == Completed <==> a == Complete)
    // from every status the action is permitted in, its target is a workflow edge
    ensures forall s :: Permitted(s, a) && e.Put? ==> Step(s, e.status)
  {
    match a
    case Accept => Put(Accepted, Missing)
    case Reject => Put(Rejected, Missing)
    case ChangeTime => BeginTimeChange
    case SaveTime => Put(Accepted, newDateTime)
    case Confirm => Put(Confirmed, Missing)
    case Complete => Put(Completed, Missing)
  }

  /** Every status change a rendered button asks for is an edge of the workflow. */
  lemma OfferedChangesAreSteps(r: Request, updatingId: Option<int>, newDateTime: Nullable, a: Action)
    requires a in Buttons(r, updatingId)
    ensures OnClick(a, newDateTime).Put? ==> Step(r.status, OnClick(a, newDateTime).status)
    ensures OnClick(a, newDateTime).Put? && a != SaveTime ==> OnClick(a, newDateTime).dateTime == Missing
  {
  }

  /** Every edge of the workflow is offered by some button (Accepted to Accepted once Change Time was pressed). */
  lemma StepsAreOffered(r: Request, to: string, newDateTime: Nullable)
    requires Step(r.status, to)
    ensures exists a :: a in Buttons(r, Some(r.id)) && OnClick(a, newDateTime).Put? && OnClick(a, newDateTime).status == to
  {
    var a :=
      if r.status == Pending then (if to == Accepted then Accept else Reject)
      else if r.status == Accepted then (if to == Accepted then SaveTime else Confirm)
      else Complete;
    assert a in Buttons(r, Some(r.id));
  }

  // ---------------------------------------------------------------- runs of the workflow

  /** A sequence of statuses in which each consecutive pair is a workflow edge. */
  predicate IsRun(ss: seq<string>) {
    forall i :: 0 < i < |ss| ==> Step(ss[i - 1], ss[i])
  }

  /** Within a run from pending, an Accepted entry is preceded only by Accepted entries back to the start. */
  lemma {:induction false} AcceptedBackToStart(ss: seq<string>, j: nat)
    requires IsRun(ss) && |ss| > 0 && ss[0] == Pending
    requires 1 <= j < |ss| && ss[j] == Accepted
    ensures forall k :: 1 <= k <= j ==> ss[k] == Accepted
  {
    if j > 1 {
      assert Step(ss[j - 1], ss[j]);
      assert Step(ss[j - 2], ss[j - 1]);
      AcceptedBackToStart(ss, j - 1);
    }
  }

  /**
    No state is skipped: every run of offered changes that takes a request from
    pending to Completed is pending, one or more Accepted, Confirmed, Completed.
   */
  lemma {:induction false} CompletionPassesThroughConfirmation(ss: seq<string>)
    requires IsRun(ss) && |ss| > 0
    requires ss[0] == Pending && ss[|ss| - 1] == Completed
    ensures |ss| >= 4
    ensures ss[|ss| - 2] == Confirmed
    ensures forall k :: 1 <= k < |ss| - 2 ==> ss[k] == Accepted
  {
    var n := |ss|;
    assert Step(ss[n - 2], ss[n - 1]);
    assert Step(ss[n - 3], ss[n - 2]);
    AcceptedBackToStart(ss, n - 3);
  }

  // ---------------------------------------------------------------- the list patch

  /**
    The `.map` that `updateStatus` applies to the list on success: every entry
    with id `requestId` takes `newStatus` and, when `newDateTime` is truthy,
    that time; every other entry is left as it was.
   */
  function PatchStatus(rs: seq<Request>, requestId: int, newStatus: string, newDateTime: Nullable): (ps: seq<Request>)
    ensures |ps| == |rs|
    ensures forall i :: 0 <= i < |rs| ==> rs[i].id != requestId ==> ps[i] == rs[i]
    ensures forall i :: 0 <= i < |rs| ==> rs[i].id == requestId ==>
      && ps[i].status == newStatus
      && ps[i].dateTime == (if Truthy(newDateTime) then newDateTime else rs[i].dateTime)
      && ps[i].(status := rs[i].status, dateTime := rs[i].dateTime) == rs[i]
  {
    if rs == [] then []
    else
      var r := rs[0];
      var head := if r.id == requestId then r.(status := newStatus, dateTime := Or(newDateTime, r.dateTime)) else r;
      [head] + PatchStatus(rs[1..], requestId, newStatus, newDateTime)
  }

  /** Ids, in list order. */
  function IdsOf(rs: seq<Request>): seq<int> {
    if rs == [] then [] else [rs[0].id] + IdsOf(rs[1..])
  }

  /**
    The patch keeps the list's ids and their order: the sequence-level
    corollary of the per-index postconditions of `PatchStatus`.
   */
  lemma {:induction false} PatchKeepsIds(rs: seq<Request>, requestId: int, newStatus: string, newDateTime: Nullable)
    ensures IdsOf(PatchStatus(rs, requestId, newStatus, newDateTime)) == IdsOf(rs)
  {
    if rs != [] {
      var ps := PatchStatus(rs, requestId, newStatus, newDateTime);
      PatchKeepsIds(rs[1..], requestId, newStatus, newDateTime);
      assert ps[1..] == PatchStatus(rs[1..], requestId, newStatus, newDateTime);
    }
  }

  /** Repeating a successful update changes nothing more. */
  lemma PatchIdempotent(rs: seq<Request>, requestId: int, newStatus: string, newDateTime: Nullable)
    ensures var ps := PatchStatus(rs, requestId, newStatus, newDateTime);
      PatchStatus(ps, requestId, newStatus, newDateTime) == ps
  {
  }

  /** Request ids are distinct within the list. */
  predicate UniqueIds(rs: seq<Request>) {
    forall i, j :: 0 <= i < j < |rs| ==> rs[i].id != rs[j].id
  }

  /**
    Clicking an offered status button on a request of a list with distinct
    ids moves that request along one workflow edge, leaves every other entry
    untouched, and moves the time only for Save Time with a truthy time.
   */
  lemma ClickFollowsWorkflow(rs: seq<Request>, k: nat, updatingId: Option<int>, newDateTime: Nullable, a: Action)
    requires UniqueIds(rs) && k < |rs|
    requires a in Buttons(rs[k], updatingId) && a != ChangeTime
    ensures var e := OnClick(a, newDateTime);
      var ps := PatchStatus(rs, rs[k].id, e.status, e.dateTime);
      && |ps| == |rs|
      && Step(rs[k].status, ps[k].status)
      && (forall i :: 0 <= i < |rs| && i != k ==> ps[i] == rs[i])
      && (ps[k].dateTime != rs[k].dateTime ==> a == SaveTime && Truthy(newDateTime))
  {
  }

  // ---------------------------------------------------------------- the component

  /** The component's state and its handlers. */
  class DoctorConsultationRequests {
    var requests: seq<Request>
    var newDateTime: Nullable
    var updatingId: Option<int>

    /** The initial state: no requests, no time being edited. */
    constructor ()
      ensures requests == [] && newDateTime == Missing && updatingId == None
    {
      requests := [];
      newDateTime := Missing;
      updatingId := None;
    }

    /** Whether the time editor (date input and Save Time) is shown for `r`. */
    predicate ShowsTimeEditor(r: Request)
      reads this
      ensures ShowsTimeEditor(r) <==> SaveTime in Buttons(r, updatingId)
    {
      r.status == Accepted && updatingId == Some(r.id)
    }

    /** The mount-time fetch: a successful response replaces the list; a failure leaves it. */
    method FetchRequests(response: Option<seq<Request>>)
      modifies this
      ensures requests == (if response.Some? then response.value else old(requests))
      ensures newDateTime == old(newDateTime) && updatingId == old(updatingId)
    {
      if response.Some? {
        requests := response.value;
      }
    }

    /**
      `updateStatus`: when the PUT succeeds, patch the list and leave the time
      editor; when it fails, change nothing.
     */
    method UpdateStatus(requestId: int, newStatus: string, time: Nullable, putSucceeded: bool)
      modifies this
      ensures putSucceeded ==> requests == PatchStatus(old(requests), requestId, newStatus, time)
      ensures putSucceeded ==> updatingId == None && newDateTime == Missing
      ensures !putSucceeded ==>
        requests == old(requests) && updatingId == old(updatingId) && newDateTime == old(newDateTime)
    {
      if putSucceeded {
        requests := PatchStatus(requests, requestId, newStatus, time);
        updatingId := None;
        newDateTime := Missing;
      }
    }

    /** `handleChangeTime`: open the time editor on one request. */
    method HandleChangeTime(requestId: int)
      modifies this
      ensures updatingId == Some(requestId)
      ensures requests == old(requests) && newDateTime == old(newDateTime)
    {
      updatingId := Some(requestId);
    }

    /** `handleDateChange`: record the value typed into the date input. */
    method HandleDateChange(value: string)
      modifies this
      ensures newDateTime == Str(value)
      ensures requests == old(requests) && updatingId == old(updatingId)
    {
      newDateTime := Str(value);
    }

    /** A click on a button rendered for request `r`. */
    method Click(r: Request, a: Action, putSucceeded: bool)
      requires a in Buttons(r, updatingId)
      modifies this
      ensures a == ChangeTime ==>
        updatingId == Some(r.id) && requests == old(requests) && newDateTime == old(newDateTime)
      ensures a != ChangeTime && putSucceeded ==>
        && Step(r.status, OnClick(a, old(newDateTime)).status)
        && requests == PatchStatus(old(requests), r.id, OnClick(a, old(newDateTime)).status,
                                   if a == SaveTime then old(newDateTime) else Missing)
        && updatingId == None && newDateTime == Missing
      ensures a != ChangeTime && !putSucceeded ==>
        requests == old(requests) && updatingId == old(updatingId) && newDateTime == old(newDateTime)
    {
      match OnClick(a, newDateTime)
      case BeginTimeChange =>
        HandleChangeTime(r.id);
      case Put(status, time) =>
        UpdateStatus(r.id, status, time, putSucceeded);
    }
  }
}
