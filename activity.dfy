/**
 * The activity page: which lifecycle actions a rental offers to the viewer,
 * how its status is displayed, and what a status update does to the page.
 */
module Activity {
  import opened Shared

  /** The part of a fetched rental row that the page's logic reads. */
  datatype Rental = Rental(id: string, status: string, ownerId: Option<string>)

  /** One button: its caption, the status it requests, and its button colour. */
  datatype Action = Action(caption: string, status: string, color: string)

  const Approve := Action("Approve", "approved", "bg-green-600 hover:bg-green-700")
  const Decline := Action("Decline", "cancelled", "bg-red-600 hover:bg-red-700")
  const ConfirmPickup := Action("Confirm Pickup", "pickup_confirmed", "bg-blue-600 hover:bg-blue-700")
  const MarkActive := Action("Mark Active", "active", "bg-green-600 hover:bg-green-700")
  const ReturnItem := Action("Return Item", "return_pending", "bg-orange-600 hover:bg-orange-700")
  const ConfirmReturn := Action("Confirm Return", "completed", "bg-green-600 hover:bg-green-700")
  const Dispute := Action("Dispute", "disputed", "bg-red-600 hover:bg-red-700")
  const Cancel := Action("Cancel", "cancelled", "bg-gray-600 hover:bg-gray-700")

  /** The badge colour of each known status. */
  const StatusColors: map<string, string> := map[
    "requested" := "bg-yellow-100 text-yellow-800",
    "approved" := "bg-blue-100 text-blue-800",
    "active" := "bg-green-100 text-green-800",
    "pickup_confirmed" := "bg-indigo-100 text-indigo-800",
    "return_pending" := "bg-orange-100 text-orange-800",
    "completed" := "bg-gray-100 text-gray-800",
    "cancelled" := "bg-red-100 text-red-800",
    "disputed" := "bg-red-100 text-red-800"
  ]

  const FallbackColor := "bg-gray-100"

  predicate IsTerminal(status: string) {
    status == "completed" || status == "cancelled" || status == "disputed"
  }

  /**
   * Whether the viewer owns the rental. A missing viewer and a missing owner
   * both read as `undefined`, and two `undefined`s compare equal.
   */
  function IsOwner(userId: Option<string>, ownerId: Option<string>): (r: bool)
    ensures r <==> (userId.None? && ownerId.None?) || (userId.Some? && ownerId.Some? && userId.value == ownerId.value)
  {
    userId == ownerId
  }

  /**
   * Reference table of the rental lifecycle, one row per status: what the
   * owner and what the renter may do next.
   */
  function PermittedActions(status: string, isOwner: bool): seq<Action> {
    if status == "requested" then (if isOwner then [Approve, Decline] else [Cancel])
    else if status == "approved" then (if isOwner then [] else [ConfirmPickup])
    else if status == "pickup_confirmed" then (if isOwner then [MarkActive] else [])
    else if status == "active" then (if isOwner then [] else [ReturnItem])
    else if status == "return_pending" then (if isOwner then [ConfirmReturn, Dispute] else [])
    else []
  }

  /** The statuses the lifecycle lets a rental move to from `status`. */
  function Successors(status: string): set<string> {
    if status == "requested" then {"approved", "cancelled"}
    else if status == "approved" then {"pickup_confirmed"}
    else if status == "pickup_confirmed" then {"active"}
    else if status == "active" then {"return_pending"}
    else if status == "return_pending" then {"completed", "disputed"}
    else {}
  }

  function Targets(actions: seq<Action>): set<string> {
    set a | a in actions :: a.status
  }

  /** Terminal and unrecognised statuses offer nothing to either party. */
  lemma NoActionsWithoutSuccessors(status: string, isOwner: bool)
    requires IsTerminal(status) || status !in StatusColors
    ensures PermittedActions(status, isOwner) == []
    ensures Successors(status) == {}
  {
  }

  /** The concrete rows of the table. */
  lemma ActionTable()
    ensures PermittedActions("requested", true) == [Approve, Decline]
    ensures PermittedActions("requested", false) == [Cancel]
    ensures PermittedActions("approved", false) == [ConfirmPickup]
    ensures PermittedActions("approved", true) == []
    ensures PermittedActions("pickup_confirmed", true) == [MarkActive]
    ensures PermittedActions("pickup_confirmed", false) == []
    ensures PermittedActions("active", false) == [ReturnItem]
    ensures PermittedActions("active", true) == []
    ensures PermittedActions("return_pending", true) == [ConfirmReturn, Dispute]
    ensures PermittedActions("return_pending", false) == []
  {
  }

  /**
   * Every offered list is short, its targets are distinct, each target is a
   * lifecycle successor of the current status, and each has a badge colour.
   */
  lemma ActionsWellFormed(status: string, isOwner: bool)
    ensures var acts := PermittedActions(status, isOwner);
      && |acts| <= 2
      && (forall i, j :: 0 <= i < j < |acts| ==> acts[i].status != acts[j].status)
      && Targets(acts) <= Successors(status)
      && (forall a :: a in acts ==> a.status in StatusColors)
  {
  }

  /**
   * Every lifecycle edge out of a status is offered to some party, and the
   * only edge offered to both is a requested rental's cancellation (the
   * owner's Decline and the renter's Cancel).
   */
  lemma EdgesSplitBetweenRoles(status: string)
    ensures Targets(PermittedActions(status, true)) + Targets(PermittedActions(status, false)) == Successors(status)
    ensures Targets(PermittedActions(status, true)) * Targets(PermittedActions(status, false))
      == if status == "requested" then {"cancelled"} else {}
  {
  }

  /** The badge colour: the table's entry, or plain grey for a status outside the table. */
  function StatusColor(status: string): (r: string)
    ensures status in StatusColors ==> r == StatusColors[status]
    ensures status !in StatusColors ==> r == FallbackColor
  {
    if status in StatusColors && StatusColors[status] != "" then StatusColors[status] else FallbackColor
  }

  /** The badge text: the status with every underscore turned into a space. */
  function StatusLabel(status: string): (r: string)
    ensures |r| == |status|
    ensures forall i :: 0 <= i < |status| ==> r[i] == if status[i] == '_' then ' ' else status[i]
  {
    if status == [] then []
    else [if status[0] == '_' then ' ' else status[0]] + StatusLabel(status[1..])
  }

  /** The alert text of a rejected update: the endpoint's error, or a generic message when it gave none. */
  function FailureMessage(error: Option<string>): (r: string)
    ensures r != ""
    ensures error.Some? && error.value != "" ==> r == error.value
    ensures error.None? || error.value == "" ==> r == "Failed to update status"
  {
    OrElse(error, "Failed to update status")
  }

  /** What the status endpoint answers. */
  datatype StatusResponse = Accepted | Rejected(error: Option<string>)

  /** The `PATCH` request the page sends for a transition. */
  datatype StatusRequest = StatusRequest(path: string, status: string)

  const StatusPathPrefix := "/functions/v1/api/rentals/"
  const StatusPathSuffix := "/status"

  /** The status endpoint of one rental; the rental id can be read back from it. */
  function StatusPath(rentalId: string): (r: string)
    ensures |r| == |StatusPathPrefix| + |rentalId| + |StatusPathSuffix|
    ensures r[..|StatusPathPrefix|] == StatusPathPrefix
    ensures r[|r| - |StatusPathSuffix|..] == StatusPathSuffix
    ensures r[|StatusPathPrefix|..|r| - |StatusPathSuffix|] == rentalId
  {
    StatusPathPrefix + rentalId + StatusPathSuffix
  }

  class ActivityPage {
    var userId: Option<string>
    var rentals: seq<Rental>
    var loading: bool
    /** Texts shown with `alert`, oldest first. */
    var alerts: seq<string>

    constructor ()
      ensures userId == None && rentals == [] && loading && alerts == []
    {
      userId := None;
      rentals := [];
      loading := true;
      alerts := [];
    }

    method SetUser(id: Option<string>)
      modifies this
      ensures userId == id
      ensures rentals == old(rentals) && loading == old(loading) && alerts == old(alerts)
    {
      userId := id;
    }

    /**
     * The buttons a rental offers the page's viewer: a list built by guarded
     * pushes, in the order the checks are made.
     */
    method GetActions(rental: Rental) returns (actions: seq<Action>)
      ensures actions == PermittedActions(rental.status, IsOwner(userId, rental.ownerId))
    {
      var isOwner := IsOwner(userId, rental.ownerId);
      actions := [];
      if isOwner && rental.status == "requested" {
        actions := actions + [Approve];
        actions := actions + [Decline];
      }
      if !isOwner && rental.status == "approved" {
        actions := actions + [ConfirmPickup];
      }
      if isOwner && rental.status == "pickup_confirmed" {
        actions := actions + [MarkActive];
      }
      if !isOwner && rental.status == "active" {
        actions := actions + [ReturnItem];
      }
      if isOwner && rental.status == "return_pending" {
        actions := actions + [ConfirmReturn];
        actions := actions + [Dispute];
      }
      if rental.status == "requested" && !isOwner {
        actions := actions + [Cancel];
      }
    }

    /** The query's rows replace the list (no rows means an empty list) and loading ends. */
    method FetchRentals(data: Option<seq<Rental>>)
      modifies this
      ensures rentals == data.GetOr([]) && !loading
      ensures userId == old(userId) && alerts == old(alerts)
    {
      rentals := data.GetOr([]);
      loading := false;
    }

    /**
     * Sends the transition, then refetches on acceptance or alerts the
     * endpoint's reason on rejection, leaving the list as it was.
     */
    method UpdateStatus(rentalId: string, newStatus: string, response: StatusResponse, refetched: Option<seq<Rental>>)
      returns (request: StatusRequest)
      modifies this
      ensures request == StatusRequest(StatusPath(rentalId), newStatus)
      ensures userId == old(userId)
      ensures response.Accepted? ==> rentals == refetched.GetOr([]) && !loading && alerts == old(alerts)
      ensures response.Rejected? ==>
        rentals == old(rentals) && loading == old(loading) && alerts == old(alerts) + [FailureMessage(response.error)]
    {
      request := StatusRequest(StatusPath(rentalId), newStatus);
      if response.Accepted? {
        FetchRentals(refetched);
      } else {
        alerts := alerts + [FailureMessage(response.error)];
      }
    }
  }
}
