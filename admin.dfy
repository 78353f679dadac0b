/** The badge colours of `src/lib/admin.ts`. */
module Admin {
  import opened Parcels
  import Auth

  /** `getStatusBadgeColor`: like `getStatusColor` but purple goes to
      PICKED_UP instead of PICKED. */
  function StatusBadgeColor(status: string): (c: string)
    ensures c in {GREEN, BLUE, PURPLE, YELLOW, ORANGE, RED, GRAY}
    ensures c == GREEN <==> status == "DELIVERED"
    ensures c == BLUE <==> status == "IN_TRANSIT" || status == "OUT_FOR_DELIVERY"
    ensures c == PURPLE <==> status == "PICKED_UP"
    ensures c == YELLOW <==> status == "APPROVED"
    ensures c == ORANGE <==> status == "PENDING"
    ensures c == RED <==> status == "CANCELLED"
  {
    match status
    case "DELIVERED" => GREEN
    case "IN_TRANSIT" => BLUE
    case "OUT_FOR_DELIVERY" => BLUE
    case "PICKED_UP" => PURPLE
    case "APPROVED" => YELLOW
    case "PENDING" => ORANGE
    case "CANCELLED" => RED
    case _ => GRAY
  }

  /** The two status colour maps agree on every string except PICKED and
      PICKED_UP, where purple and gray are swapped. */
  lemma BadgeColorAgreesWithStatusColor(status: string)
    ensures StatusBadgeColor(status) == StatusColor(status) <==> status !in {"PICKED", "PICKED_UP"}
    ensures status == "PICKED" ==> StatusBadgeColor(status) == GRAY && StatusColor(status) == PURPLE
    ensures status == "PICKED_UP" ==> StatusBadgeColor(status) == PURPLE && StatusColor(status) == GRAY
  {
  }

  /** `getRoleBadgeColor`: red for admins, blue for senders, green for
      receivers, gray for every other string. */
  function RoleBadgeColor(role: string): (c: string)
    ensures c in {RED, BLUE, GREEN, GRAY}
    ensures c == RED <==> role == Auth.ROLE_ADMIN
    ensures c == BLUE <==> role == Auth.ROLE_SENDER
    ensures c == GREEN <==> role == Auth.ROLE_RECEIVER
  {
    if role == Auth.ROLE_ADMIN then RED
    else if role == Auth.ROLE_SENDER then BLUE
    else if role == Auth.ROLE_RECEIVER then GREEN
    else GRAY
  }
}
