/** The wholesaler's inbox of partnership requests
    (src/components/wholesaler/WholesalerRequests.tsx): the requests addressed
    to the signed-in wholesaler, a product selection, and the accept and reject
    decisions written back to the store. The signed-in company's name is an
    opaque input, as on the partnership screen. */
module WholesalerRequests {

  import opened Types
  import Seqs
  import DataStore

  datatype DecisionOutcome = NoRequest | NothingSelected | Decided

  /** The quantity a newly selected product starts with. */
  const DefaultQuantity: int := 10

  // ---------------------------------------------------------------------------
  // The inbox.

  function AddressedTo(userId: Option<string>): WholesalerRequest -> bool
  {
    (r: WholesalerRequest) => userId.Some? && r.wholesalerId == userId.value
  }

  /** `wholesalerRequests.filter(req => req.wholesalerId === user?.id)`: with no
      user the id is `undefined`, which matches no request. */
  function MyRequests(requests: seq<WholesalerRequest>, userId: Option<string>): (r: seq<WholesalerRequest>)
    ensures |r| <= |requests|
    ensures forall i :: 0 <= i < |r| ==> r[i] in requests && userId == Some(r[i].wholesalerId)
    ensures forall i :: 0 <= i < |requests| && userId == Some(requests[i].wholesalerId) ==> requests[i] in r
  {
    Seqs.Filter(requests, AddressedTo(userId))
  }

  /** Signed out, the inbox is empty. */
  lemma {:induction false} NoUserNoRequests(requests: seq<WholesalerRequest>)
    ensures MyRequests(requests, None) == []
  {
    if requests != [] {
      NoUserNoRequests(requests[1..]);
      assert !AddressedTo(None)(requests[0]);
    }
  }

  function WithStatus(s: RequestStatus): WholesalerRequest -> bool
  {
    (r: WholesalerRequest) => r.status == s
  }

  /** `requests.filter(r => r.status === s).length`. */
  function CountStatus(requests: seq<WholesalerRequest>, s: RequestStatus): nat
  {
    |Seqs.Filter(requests, WithStatus(s))|
  }

  /** The pending, approved and rejected cards add up to the total. */
  lemma {:induction false} StatusCountsAddUp(requests: seq<WholesalerRequest>)
    ensures CountStatus(requests, RequestStatus.Pending) + CountStatus(requests, Approved)
      + CountStatus(requests, Rejected) == |requests|
  {
    if requests != [] {
      StatusCountsAddUp(requests[1..]);
    }
  }

  // ---------------------------------------------------------------------------
  // The selection.

  function NotFor(id: string): RequestSelection -> bool
  {
    (s: RequestSelection) => s.productId != id
  }

  /** `handleProductSelection`: checking appends, unchecking drops every entry for that product. */
  function Select(selection: seq<RequestSelection>, id: string, selected: bool, quantity: int)
    : (r: seq<RequestSelection>)
    ensures selected ==> r == selection + [RequestSelection(id, quantity)]
    ensures !selected ==>
      (forall i :: 0 <= i < |r| ==> r[i].productId != id && r[i] in selection)
      && forall i :: 0 <= i < |selection| && selection[i].productId != id ==> selection[i] in r
  {
    if selected then selection + [RequestSelection(id, quantity)] else Seqs.Filter(selection, NotFor(id))
  }

  /** `handleQuantityChange`: only the entries for that product get the new quantity. */
  function ChangeQuantity(selection: seq<RequestSelection>, id: string, quantity: int): (r: seq<RequestSelection>)
    ensures |r| == |selection|
    ensures forall i :: 0 <= i < |selection| ==>
      r[i] == if selection[i].productId == id then selection[i].(quantity := quantity) else selection[i]
  {
    if selection == [] then []
    else
      var head := if selection[0].productId == id then selection[0].(quantity := quantity) else selection[0];
      [head] + ChangeQuantity(selection[1..], id, quantity)
  }

  // ---------------------------------------------------------------------------
  // The decisions.

  function AcceptPatch(selection: seq<RequestSelection>, now: string): RequestPatch
  {
    RequestPatch(None, None, None, None, None, None, Some(Approved), None, Some(Some(now)), Some(Some(selection)), None)
  }

  function RejectPatch(now: string): RequestPatch
  {
    RequestPatch(None, None, None, None, None, None, Some(Rejected), None, Some(Some(now)), None, None)
  }

  /** Accepting sets the status, the response date and the chosen products,
      whatever the request's status was, and nothing else. */
  lemma AcceptEffect(r: WholesalerRequest, selection: seq<RequestSelection>, now: string)
    ensures MergeRequest(r, AcceptPatch(selection, now))
      == r.(status := Approved, responseDate := Some(now), selectedProducts := Some(selection))
  {
  }

  /** Rejecting sets the status and the response date and keeps any earlier selection. */
  lemma RejectEffect(r: WholesalerRequest, now: string)
    ensures MergeRequest(r, RejectPatch(now)) == r.(status := Rejected, responseDate := Some(now))
    ensures MergeRequest(r, RejectPatch(now)).selectedProducts == r.selectedProducts
  {
  }

  function DecisionNotice(approved: bool, companyName: string, requestId: string, now: string): (r: Notification)
    ensures r.ntype == WholesalerRequestKind && r.priority == Medium && !r.read && r.timestamp == now
    ensures r.wholesaler == Some(companyName) && r.requestId == Some(requestId)
    ensures |companyName| <= |r.message| && r.message[..|companyName|] == companyName
  {
    Notification("", WholesalerRequestKind,
      if approved then "Partnership Request Approved" else "Partnership Request Rejected",
      companyName + (if approved then " has approved your partnership request" else " has rejected your partnership request"),
      now, false, Medium, Some(companyName), None, None, None, Some(requestId))
  }

  /** An approval and a rejection of the same request never read alike. */
  lemma DecisionNoticeTellsOutcome(companyName: string, requestId: string, now: string)
    ensures DecisionNotice(true, companyName, requestId, now).title != DecisionNotice(false, companyName, requestId, now).title
    ensures DecisionNotice(true, companyName, requestId, now).message != DecisionNotice(false, companyName, requestId, now).message
  {
    var a := DecisionNotice(true, companyName, requestId, now);
    var b := DecisionNotice(false, companyName, requestId, now);
    assert a.title[20] != b.title[20];
    var n := |companyName|;
    assert a.message[n + 5] == " has approved your partnership request"[5];
    assert b.message[n + 5] == " has rejected your partnership request"[5];
  }

  // ---------------------------------------------------------------------------
  // The page state.

  class RequestDesk {
    const store: DataStore.Store
    var selectedRequest: Option<WholesalerRequest>
    var showRequestModal: bool
    var selection: seq<RequestSelection>

    constructor (store: DataStore.Store)
      ensures this.store == store && selectedRequest == None && !showRequestModal && selection == []
    {
      this.store := store;
      selectedRequest := None;
      showRequestModal := false;
      selection := [];
    }

    /** Opening a request starts from an empty selection. */
    method ViewRequest(request: WholesalerRequest)
      modifies this
      ensures selectedRequest == Some(request) && selection == [] && showRequestModal
    {
      selectedRequest := Some(request);
      selection := [];
      showRequestModal := true;
    }

    /** `quantity` is `None` when the caller relies on the default of ten. */
    method HandleProductSelection(productId: string, selected: bool, quantity: Option<int>)
      modifies this
      ensures selection == Select(old(selection), productId, selected, quantity.GetOr(DefaultQuantity))
      ensures selectedRequest == old(selectedRequest) && showRequestModal == old(showRequestModal)
    {
      if selected {
        selection := selection + [RequestSelection(productId, quantity.GetOr(DefaultQuantity))];
      } else {
        selection := Seqs.Filter(selection, NotFor(productId));
      }
    }

    method HandleQuantityChange(productId: string, quantity: int)
      modifies this
      ensures selection == ChangeQuantity(old(selection), productId, quantity)
      ensures selectedRequest == old(selectedRequest) && showRequestModal == old(showRequestModal)
    {
      selection := ChangeQuantity(selection, productId, quantity);
    }

    /** Accepts the open request with the current selection. The status of the
        request is not consulted. */
    method HandleAcceptRequest(companyName: string, now: string, noticeId: string)
      returns (outcome: DecisionOutcome)
      modifies this, store
      ensures outcome == NothingSelected <==> old(selection) == []
      ensures outcome == NoRequest <==> old(selection) != [] && old(selectedRequest).None?
      ensures outcome != Decided ==>
        store.wholesalerRequests == old(store.wholesalerRequests) && store.notifications == old(store.notifications)
        && selection == old(selection) && selectedRequest == old(selectedRequest)
        && showRequestModal == old(showRequestModal)
      ensures outcome == Decided ==>
        var id := old(selectedRequest).value.id;
        && store.wholesalerRequests
           == DataStore.UpdateRequests(old(store.wholesalerRequests), id, AcceptPatch(old(selection), now))
        && store.notifications == [DecisionNotice(true, companyName, id, now).(id := noticeId)] + old(store.notifications)
        && selection == [] && selectedRequest == None && !showRequestModal
      ensures store.products == old(store.products) && store.orders == old(store.orders)
      ensures store.companies == old(store.companies)
    {
      if |selection| == 0 {
        return NothingSelected;
      }
      if selectedRequest.None? {
        return NoRequest;
      }
      var id := selectedRequest.value.id;
      store.UpdateWholesalerRequest(id, AcceptPatch(selection, now));
      store.AddNotification(DecisionNotice(true, companyName, id, now), noticeId);
      showRequestModal := false;
      selectedRequest := None;
      selection := [];
      outcome := Decided;
    }

    /** Rejects the open request; the selection is left as it was. */
    method HandleRejectRequest(companyName: string, now: string, noticeId: string)
      returns (outcome: DecisionOutcome)
      modifies this, store
      ensures outcome == NoRequest <==> old(selectedRequest).None?
      ensures outcome != NothingSelected
      ensures outcome == NoRequest ==>
        store.wholesalerRequests == old(store.wholesalerRequests) && store.notifications == old(store.notifications)
        && selectedRequest == old(selectedRequest) && showRequestModal == old(showRequestModal)
      ensures outcome == Decided ==>
        var id := old(selectedRequest).value.id;
        && store.wholesalerRequests == DataStore.UpdateRequests(old(store.wholesalerRequests), id, RejectPatch(now))
        && store.notifications == [DecisionNotice(false, companyName, id, now).(id := noticeId)] + old(store.notifications)
        && selectedRequest == None && !showRequestModal
      ensures selection == old(selection)
      ensures store.products == old(store.products) && store.orders == old(store.orders)
      ensures store.companies == old(store.companies)
    {
      if selectedRequest.None? {
        return NoRequest;
      }
      var id := selectedRequest.value.id;
      store.UpdateWholesalerRequest(id, RejectPatch(now));
      store.AddNotification(DecisionNotice(false, companyName, id, now), noticeId);
      showRequestModal := false;
      selectedRequest := None;
      outcome := Decided;
    }
  }
}
