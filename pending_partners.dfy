/** The list of partners awaiting verification (src/pages/PendingPartners.tsx): its
    status badge, an icon and a colour looked up by status. */
module PendingPartners {
  import opened Wrappers
  import opened Text

  datatype Icon = Clock | AlertCircle | CheckCircle | XCircle

  datatype Variant = Variant(icon: Icon, color: string)

  const Orange := "bg-orange-100 text-orange-800"

  const PendingVariant := Variant(Clock, "bg-yellow-100 text-yellow-800")

  /** The variant table, `variants[status]`: `None` for a status it lacks. */
  function StatusVariant(status: string): (v: Option<Variant>)
    ensures v.Some? <==> status in {"pending", "under_review", "clarification", "clarification_needed", "approved", "rejected", "suspended"}
  {
    match status
    case "pending" => Some(PendingVariant)
    case "under_review" => Some(Variant(AlertCircle, "bg-blue-100 text-blue-800"))
    case "clarification" => Some(Variant(AlertCircle, Orange))
    case "clarification_needed" => Some(Variant(AlertCircle, Orange))
    case "approved" => Some(Variant(CheckCircle, "bg-green-100 text-green-800"))
    case "rejected" => Some(Variant(XCircle, "bg-red-100 text-red-800"))
    case "suspended" => Some(Variant(XCircle, "bg-gray-100 text-gray-800"))
    case _ => None
  }

  /** `variants[status] || variants.pending`: the "pending" variant exactly for
      "pending" and for a status outside the table. */
  function BadgeVariant(status: string): (v: Variant)
    ensures v == PendingVariant <==> status == "pending" || StatusVariant(status).None?
  {
    StatusVariant(status).GetOr(PendingVariant)
  }

  datatype Badge = Badge(icon: Icon, className: string, text: string)

  /** `getStatusBadge`: the table's variant, the "pending" one for a status outside
      the table, and the status as its label. */
  function StatusBadge(status: string): (b: Badge)
    ensures b.text == StatusLabel(status)
    ensures StatusVariant(status).Some? ==>
      b.icon == StatusVariant(status).value.icon && b.className == StatusVariant(status).value.color + " flex items-center gap-1"
    ensures StatusVariant(status).None? ==>
      b.icon == Clock && b.className == "bg-yellow-100 text-yellow-800 flex items-center gap-1"
  {
    var v := BadgeVariant(status);
    Badge(v.icon, v.color + " flex items-center gap-1", StatusLabel(status))
  }

  /** A status outside the table gets the "pending" variant: the clock, in yellow. */
  lemma UnknownLooksPending(status: string)
    requires status !in {"pending", "under_review", "clarification", "clarification_needed", "approved", "rejected", "suspended"}
    ensures BadgeVariant(status) == BadgeVariant("pending") == Variant(Clock, "bg-yellow-100 text-yellow-800")
  {
  }

  /** "clarification" and "clarification_needed" have the same variant. */
  lemma ClarificationAliases()
    ensures BadgeVariant("clarification").icon == BadgeVariant("clarification_needed").icon == AlertCircle
    ensures BadgeVariant("clarification").color == BadgeVariant("clarification_needed").color
  {
  }

  /** Approved partners get the check mark; rejected and suspended ones both get the cross. */
  lemma DecisionIcons()
    ensures BadgeVariant("approved").icon == CheckCircle
    ensures BadgeVariant("rejected").icon == XCircle && BadgeVariant("suspended").icon == XCircle
    ensures BadgeVariant("rejected").color != BadgeVariant("suspended").color
  {
  }
}
