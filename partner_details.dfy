/** The partner review page (src/pages/PartnerDetails.tsx): which review actions it
    offers, how it badges a status, and the three review handlers, which validate
    the dialog text, post the action and refetch the partner. */
module PartnerDetails {
  import opened Wrappers
  import opened Text
  import opened JsonValue
  import opened Http

  datatype HistoryEntry = HistoryEntry(actionType: string, messageFromAdmin: string, messageFromPartner: string)

  /** The part of `/verification-details` that the page's decisions read. */
  datatype PartnerView = PartnerView(verificationStatus: string, rejectionReason: string, history: seq<HistoryEntry>)

  /** The action panel is rendered unless the partner is approved or rejected. */
  function ShowsActions(status: string): (r: bool)
    ensures r <==> status != "approved" && status != "rejected"
  {
    status != "approved" && status != "rejected"
  }

  /** Suspended partners, and those still under review, are offered the actions. */
  lemma ActionsOfferedByStatus()
    ensures ShowsActions("pending") && ShowsActions("under_review")
    ensures ShowsActions("clarification_needed") && ShowsActions("suspended")
    ensures !ShowsActions("approved") && !ShowsActions("rejected")
  {
  }

  datatype BadgeVariant = Default | Destructive | Secondary

  /** The status badge's variant: default for approved, destructive for rejected,
      secondary for everything else. */
  function StatusVariant(status: string): (v: BadgeVariant)
    ensures v == Default <==> status == "approved"
    ensures v == Destructive <==> status == "rejected"
    ensures v == Secondary <==> status != "approved" && status != "rejected"
  {
    if status == "approved" then Default else if status == "rejected" then Destructive else Secondary
  }

  /** The badge is secondary exactly when the action panel is shown. */
  lemma SecondaryBadgeIffActions(status: string)
    ensures StatusVariant(status) == Secondary <==> ShowsActions(status)
  {
  }

  /** The labels of the history timeline, one per entry and in the same order. */
  function HistoryLabels(history: seq<HistoryEntry>): (r: seq<string>)
    ensures |r| == |history|
    ensures forall i :: 0 <= i < |r| ==> r[i] == StatusLabel(history[i].actionType)
  {
    if history == [] then [] else [StatusLabel(history[0].actionType)] + HistoryLabels(history[1..])
  }

  datatype ReviewAction = Approve | Reject | RequestClarification

  /** The last path segment of each review endpoint. */
  function Endpoint(a: ReviewAction): string {
    match a
    case Approve => "approve"
    case Reject => "reject"
    case RequestClarification => "request-clarification"
  }

  /** The body field that carries each dialog's text. */
  function BodyField(a: ReviewAction): string {
    match a
    case Approve => "approval_notes"
    case Reject => "rejection_reason"
    case RequestClarification => "message"
  }

  function ActionPath(id: string, a: ReviewAction): string {
    "/admin/partners/" + id + "/" + Endpoint(a)
  }

  function DetailsPath(id: string): string {
    "/admin/partners/" + id + "/verification-details"
  }

  /** The three review endpoints and the details endpoint of a partner are four
      different paths. */
  lemma ReviewPathsDistinct(id: string)
    ensures ActionPath(id, Approve) != ActionPath(id, Reject)
    ensures ActionPath(id, Approve) != ActionPath(id, RequestClarification)
    ensures ActionPath(id, Reject) != ActionPath(id, RequestClarification)
    ensures forall a :: ActionPath(id, a) != DetailsPath(id)
  {
  }

  /** The request a review handler issues for the text in its dialog, or `None` when
      validation stops it first. Reject and request-clarification refuse a reason or
      message that is empty or only whitespace; approve sends its notes, even empty
      ones. The text is sent as typed, untrimmed. */
  function ReviewRequest(id: string, a: ReviewAction, text: string): (r: Option<Request>)
    ensures r.None? <==> a != Approve && AllWhitespace(text)
    ensures r.Some? ==> r.value == Post(ActionPath(id, a), JObj(map[BodyField(a) := JStr(text)]))
  {
    TrimEmptyIffAllWhitespace(text);
    if a != Approve && Trim(text) == "" then None
    else Some(Post(ActionPath(id, a), JObj(map[BodyField(a) := JStr(text)])))
  }

  /** Approving with empty notes still posts `approval_notes: ""`. */
  lemma ApproveSendsEmptyNotes(id: string)
    ensures ReviewRequest(id, Approve, "") == Some(Post(ActionPath(id, Approve), JObj(map["approval_notes" := JStr("")])))
  {
  }

  /** A reason of spaces and line breaks is refused before anything is sent. */
  lemma RejectRefusesBlankReason(id: string)
    ensures ReviewRequest(id, Reject, " \n\t ").None?
  {
    assert AllWhitespace(" \n\t ") by {
      var s := " \n\t ";
      assert forall i :: 0 <= i < |s| ==> s[i] == ' ' || s[i] == '\n' || s[i] == '\t';
    }
  }

  /** The page's state: the loaded partner, the busy flag, the three dialogs and
      their text fields, and the requests issued so far. */
  class PartnerDetailsPage {
    const id: string
    var details: Option<PartnerView>
    var loading: bool
    var actionLoading: bool
    var approveDialog: bool
    var rejectDialog: bool
    var clarifyDialog: bool
    var approvalNotes: string
    var rejectionReason: string
    var clarificationMessage: string
    var requests: seq<Request>

    constructor (id: string)
      ensures this.id == id && details.None? && loading && !actionLoading
      ensures !approveDialog && !rejectDialog && !clarifyDialog
      ensures approvalNotes == "" && rejectionReason == "" && clarificationMessage == ""
      ensures requests == []
    {
      this.id := id;
      details := None;
      loading := true;
      actionLoading := false;
      approveDialog, rejectDialog, clarifyDialog := false, false, false;
      approvalNotes, rejectionReason, clarificationMessage := "", "", "";
      requests := [];
    }

    /** The action panel is on screen: the partner has loaded and is neither
        approved nor rejected. */
    function ActionPanelShown(): bool
      reads this
    {
      !loading && details.Some? && ShowsActions(details.value.verificationStatus)
    }

    function DialogOpen(a: ReviewAction): bool
      reads this
    {
      match a
      case Approve => approveDialog
      case Reject => rejectDialog
      case RequestClarification => clarifyDialog
    }

    function DialogText(a: ReviewAction): string
      reads this
    {
      match a
      case Approve => approvalNotes
      case Reject => rejectionReason
      case RequestClarification => clarificationMessage
    }

    /** The three dialogs and their texts are as they were. */
    twostate predicate DialogsUnchanged()
      reads this
    {
      && approveDialog == old(approveDialog) && rejectDialog == old(rejectDialog)
      && clarifyDialog == old(clarifyDialog) && approvalNotes == old(approvalNotes)
      && rejectionReason == old(rejectionReason) && clarificationMessage == old(clarificationMessage)
    }

    /** `fetchPartnerDetails`, given the response (`None` when it failed). */
    method FetchPartnerDetails(response: Option<PartnerView>)
      modifies this
      ensures requests == old(requests) + [Get(DetailsPath(id), map[])]
      ensures details == if response.Some? then response else old(details)
      ensures !loading && actionLoading == old(actionLoading) && DialogsUnchanged()
    {
      requests := requests + [Get(DetailsPath(id), map[])];
      if response.Some? {
        details := response;
      }
      loading := false;
    }

    /** A button of the action panel: the dialog opens only when the panel is shown. */
    method OpenDialog(a: ReviewAction)
      modifies this
      ensures forall b :: DialogOpen(b) == (if b == a && old(ActionPanelShown()) then true else old(DialogOpen(b)))
      ensures details == old(details) && loading == old(loading) && actionLoading == old(actionLoading)
      ensures requests == old(requests)
      ensures forall b :: DialogText(b) == old(DialogText(b))
    {
      if ActionPanelShown() {
        match a {
          case Approve => approveDialog := true;
          case Reject => rejectDialog := true;
          case RequestClarification => clarifyDialog := true;
        }
      }
    }

    /** Typing into a dialog's text area. */
    method EditText(a: ReviewAction, text: string)
      modifies this
      ensures forall b :: DialogText(b) == (if b == a then text else old(DialogText(b)))
      ensures forall b :: DialogOpen(b) == old(DialogOpen(b))
      ensures details == old(details) && loading == old(loading) && actionLoading == old(actionLoading)
      ensures requests == old(requests)
    {
      match a {
        case Approve => approvalNotes := text;
        case Reject => rejectionReason := text;
        case RequestClarification => clarificationMessage := text;
      }
    }

    /** `handleApprove`, given whether the post succeeded and the refetched partner.
        There is no text check; the busy flag is down again on every path. */
    method HandleApprove(postOk: bool, refetched: Option<PartnerView>)
      modifies this
      ensures var req := ReviewRequest(id, Approve, old(approvalNotes));
        req.Some? && requests == old(requests) + [req.value] + (if postOk then [Get(DetailsPath(id), map[])] else [])
      ensures !actionLoading
      ensures approveDialog == (old(approveDialog) && !postOk)
      ensures details == if postOk && refetched.Some? then refetched else old(details)
      ensures loading == (old(loading) && !postOk)
      ensures rejectDialog == old(rejectDialog) && clarifyDialog == old(clarifyDialog)
      ensures forall b :: DialogText(b) == old(DialogText(b))
    {
      var req := ReviewRequest(id, Approve, approvalNotes);
      actionLoading := true;
      requests := requests + [req.value];
      if postOk {
        approveDialog := false;
        FetchPartnerDetails(refetched);
      }
      actionLoading := false;
    }

    /** `handleReject`. A blank reason stops everything, the busy flag included.
        Otherwise the reason is posted as typed; success closes the dialog and
        refetches, and the reason stays in its field. */
    method HandleReject(postOk: bool, refetched: Option<PartnerView>)
      modifies this
      ensures var req := ReviewRequest(id, Reject, old(rejectionReason));
        if req.None? then
          && requests == old(requests) && actionLoading == old(actionLoading)
          && details == old(details) && loading == old(loading) && DialogsUnchanged()
        else
          && requests == old(requests) + [req.value] + (if postOk then [Get(DetailsPath(id), map[])] else [])
          && !actionLoading
          && rejectDialog == (old(rejectDialog) && !postOk)
          && details == (if postOk && refetched.Some? then refetched else old(details))
          && loading == (old(loading) && !postOk)
          && approveDialog == old(approveDialog) && clarifyDialog == old(clarifyDialog)
          && forall b :: DialogText(b) == old(DialogText(b))
    {
      var req := ReviewRequest(id, Reject, rejectionReason);
      if req.None? {
        return;
      }
      actionLoading := true;
      requests := requests + [req.value];
      if postOk {
        rejectDialog := false;
        FetchPartnerDetails(refetched);
      }
      actionLoading := false;
    }

    /** `handleRequestClarification`. A blank message stops everything. Otherwise
        the message is posted as typed; success closes the dialog, clears the
        message and refetches. */
    method HandleRequestClarification(postOk: bool, refetched: Option<PartnerView>)
      modifies this
      ensures var req := ReviewRequest(id, RequestClarification, old(clarificationMessage));
        if req.None? then
          && requests == old(requests) && actionLoading == old(actionLoading)
          && details == old(details) && loading == old(loading) && DialogsUnchanged()
        else
          && requests == old(requests) + [req.value] + (if postOk then [Get(DetailsPath(id), map[])] else [])
          && !actionLoading
          && clarifyDialog == (old(clarifyDialog) && !postOk)
          && clarificationMessage == (if postOk then "" else old(clarificationMessage))
          && details == (if postOk && refetched.Some? then refetched else old(details))
          && loading == (old(loading) && !postOk)
          && approveDialog == old(approveDialog) && rejectDialog == old(rejectDialog)
          && approvalNotes == old(approvalNotes) && rejectionReason == old(rejectionReason)
    {
      var req := ReviewRequest(id, RequestClarification, clarificationMessage);
      if req.None? {
        return;
      }
      actionLoading := true;
      requests := requests + [req.value];
      if postOk {
        clarifyDialog := false;
        clarificationMessage := "";
        FetchPartnerDetails(refetched);
      }
      actionLoading := false;
    }
  }
}
