/** The order list (src/pages/Orders.tsx): its status filter, the request it
    produces, and the status badge. */
module Orders {
  import opened Wrappers
  import opened Text
  import opened Http

  const Gray := "bg-gray-100 text-gray-800"

  /** The badge colour table, `colors[status]`: `None` for a status it lacks. */
  function StatusColor(status: string): (c: Option<string>)
    ensures c.Some? <==> status in {"pending", "confirmed", "picked_up", "completed", "cancelled"}
  {
    match status
    case "pending" => Some("bg-yellow-100 text-yellow-800")
    case "confirmed" => Some("bg-blue-100 text-blue-800")
    case "picked_up" => Some("bg-purple-100 text-purple-800")
    case "completed" => Some("bg-green-100 text-green-800")
    case "cancelled" => Some("bg-red-100 text-red-800")
    case _ => None
  }

  /** `colors[status] || "bg-gray-100 text-gray-800"`. */
  function BadgeClass(status: string): (c: string)
    ensures c == Gray <==> StatusColor(status).None?
  {
    StatusColor(status).GetOr(Gray)
  }

  datatype Badge = Badge(className: string, text: string)

  /** `getStatusBadge`: the table's colour, gray for any other status, and the
      status as its label. */
  function StatusBadge(status: string): (b: Badge)
    ensures b.text == StatusLabel(status)
    ensures b.className == BadgeClass(status)
    ensures status !in {"pending", "confirmed", "picked_up", "completed", "cancelled"} ==> b.className == Gray
  {
    Badge(BadgeClass(status), StatusLabel(status))
  }

  /** The five order statuses have five different colours, none of them the fallback. */
  lemma StatusColorsDistinct()
    ensures forall s, t :: StatusColor(s).Some? && StatusColor(t).Some? && s != t ==>
      BadgeClass(s) != BadgeClass(t)
    ensures forall s :: StatusColor(s).Some? ==> BadgeClass(s) != Gray
  {
  }

  /** The page: its filter (initially "all") and the requests it has issued. */
  class OrdersPage {
    var statusFilter: string
    var loading: bool
    var requests: seq<Request>

    constructor ()
      ensures statusFilter == "all" && loading && requests == []
    {
      statusFilter := "all";
      loading := true;
      requests := [];
    }

    /** `fetchOrders`: the list request for the current filter; loading ends
        whether or not it succeeds. */
    method FetchOrders()
      modifies this
      ensures requests == old(requests) + [Get("/admin/orders", FilterParams("status", old(statusFilter)))]
      ensures !loading && statusFilter == old(statusFilter)
    {
      var params: map<string, string> := map[];
      if statusFilter != "all" {
        params := params["status" := statusFilter];
      }
      requests := requests + [Get("/admin/orders", params)];
      loading := false;
    }

    /** The select's `onValueChange`, bound straight to the filter. */
    method OnFilterChange(value: string)
      modifies this
      ensures statusFilter == value && requests == old(requests) && loading == old(loading)
    {
      statusFilter := value;
    }
  }
}
