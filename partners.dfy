/** The partner list (src/pages/Partners.tsx): the status filter kept in the URL's
    query string, the request it produces, and the status badge. */
module Partners {
  import opened Wrappers
  import opened Text
  import opened Http

  const Gray := "bg-gray-100 text-gray-800"
  const Orange := "bg-orange-100 text-orange-800"

  /** The badge colour table, `colors[status]`: `None` for a status it lacks. */
  function StatusColor(status: string): (c: Option<string>)
    ensures c.Some? <==> status in {"pending", "under_review", "clarification", "clarification_needed", "approved", "rejected", "suspended"}
  {
    match status
    case "pending" => Some("bg-yellow-100 text-yellow-800")
    case "under_review" => Some("bg-blue-100 text-blue-800")
    case "clarification" => Some(Orange)
    case "clarification_needed" => Some(Orange)
    case "approved" => Some("bg-green-100 text-green-800")
    case "rejected" => Some("bg-red-100 text-red-800")
    case "suspended" => Some(Gray)
    case _ => None
  }

  /** `colors[status] || "bg-gray-100 text-gray-800"`. */
  function BadgeClass(status: string): (c: string)
    ensures c == Gray <==> status == "suspended" || StatusColor(status).None?
  {
    StatusColor(status).GetOr(Gray)
  }

  datatype Badge = Badge(className: string, text: string)

  /** `getStatusBadge`: the table's colour, gray for a status outside it, and the
      status as its label. */
  function StatusBadge(status: string): (b: Badge)
    ensures b.text == StatusLabel(status)
    ensures b.className == BadgeClass(status)
    ensures StatusColor(status).None? ==> b.className == Gray
  {
    Badge(BadgeClass(status), StatusLabel(status))
  }

  /** The colour of each status of the table. */
  lemma StatusColorTable()
    ensures BadgeClass("pending") == "bg-yellow-100 text-yellow-800"
    ensures BadgeClass("under_review") == "bg-blue-100 text-blue-800"
    ensures BadgeClass("approved") == "bg-green-100 text-green-800"
    ensures BadgeClass("rejected") == "bg-red-100 text-red-800"
  {
  }

  /** Any status outside the seven of the table is badged gray. */
  lemma UnknownIsGray(status: string)
    requires status !in {"pending", "under_review", "clarification", "clarification_needed", "approved", "rejected", "suspended"}
    ensures BadgeClass(status) == Gray
  {
  }

  /** "clarification" and "clarification_needed" are badged alike, in orange. */
  lemma ClarificationAliases()
    ensures BadgeClass("clarification") == BadgeClass("clarification_needed") == Orange
  {
  }

  /** A suspended partner's badge has the colour of an unknown status. */
  lemma SuspendedLooksUnknown(unknown: string)
    requires StatusColor(unknown).None?
    ensures BadgeClass("suspended") == BadgeClass(unknown) == Gray
  {
  }

  /** `searchParams.get("status") || "all"`. */
  function StatusFilter(query: Option<string>): (f: string)
    ensures f != ""
    ensures query.Some? && query.value != "" ==> f == query.value
    ensures query.None? || query == Some("") ==> f == "all"
  {
    if query.Some? && query.value != "" then query.value else "all"
  }

  /** The filter's `onValueChange`: "all" deletes `status`, anything else sets it;
      other parameters are kept. */
  function WithFilterChoice(params: map<string, string>, value: string): (r: map<string, string>)
    ensures value == "all" ==> "status" !in r
    ensures value != "all" ==> "status" in r && r["status"] == value
    ensures r - {"status"} == params - {"status"}
  {
    if value == "all" then params - {"status"} else params["status" := value]
  }

  /** Choosing a (non-empty) value in the select makes it the filter read back from
      the query string. */
  lemma {:induction false} FilterChoiceRoundTrip(params: map<string, string>, value: string)
    requires value != ""
    ensures StatusFilter(Lookup(WithFilterChoice(params, value), "status")) == value
  {
    var r := WithFilterChoice(params, value);
    if value == "all" {
      assert Lookup(r, "status").None?;
    } else {
      assert Lookup(r, "status") == Some(value);
    }
  }

  /** The request that follows a choice: no parameter for "all", the choice itself
      otherwise. */
  lemma FilterChoiceParams(params: map<string, string>, value: string)
    requires value != ""
    ensures FilterParams("verification_status", StatusFilter(Lookup(WithFilterChoice(params, value), "status")))
      == if value == "all" then map[] else map["verification_status" := value]
  {
    FilterChoiceRoundTrip(params, value);
  }

  /** The page: its query string and the requests it has issued. */
  class PartnersPage {
    var searchParams: map<string, string>
    var loading: bool
    var requests: seq<Request>

    constructor (searchParams: map<string, string>)
      ensures this.searchParams == searchParams && loading && requests == []
    {
      this.searchParams := searchParams;
      loading := true;
      requests := [];
    }

    /** The filter in effect. */
    function Filter(): string
      reads this
    {
      StatusFilter(Lookup(searchParams, "status"))
    }

    /** `fetchPartners`: the list request for the current filter; loading ends
        whether or not it succeeds. */
    method FetchPartners()
      modifies this
      ensures requests == old(requests) + [Get("/admin/partners", FilterParams("verification_status", old(Filter())))]
      ensures !loading && searchParams == old(searchParams)
    {
      var params: map<string, string> := map[];
      var filter := StatusFilter(Lookup(searchParams, "status"));
      if filter != "all" {
        params := params["verification_status" := filter];
      }
      requests := requests + [Get("/admin/partners", params)];
      loading := false;
    }

    /** The select's `onValueChange`, which edits the query string in place. */
    method OnFilterChange(value: string)
      modifies this
      ensures searchParams == WithFilterChoice(old(searchParams), value)
      ensures value != "" ==> Filter() == value
      ensures requests == old(requests) && loading == old(loading)
    {
      if value == "all" {
        searchParams := searchParams - {"status"};
      } else {
        searchParams := searchParams["status" := value];
      }
      if value != "" {
        FilterChoiceRoundTrip(old(searchParams), value);
      }
    }
  }
}
