/** Badge colours for organisation statuses and user roles, as CSS
    class lists. */
module Palette {
  import opened Wrappers

  const Green := "text-green-600 bg-green-100"
  const Red := "text-red-600 bg-red-100"
  const Gray := "text-gray-600 bg-gray-100"
  const Yellow := "text-yellow-600 bg-yellow-100"

  /** Colour of a status badge: green for Active, red for Blocked, gray
      for Inactive and for any other text. */
  function StatusColor(status: string): (c: string)
    ensures c == Green <==> status == "Active"
    ensures c == Red <==> status == "Blocked"
    ensures c == Gray <==> status != "Active" && status != "Blocked"
  {
    match status
    case "Active" => Green
    case "Blocked" => Red
    case "Inactive" => Gray
    case _ => Gray
  }

  /** Colour of a role badge: green for Admin, yellow for any other role
      and for a user without one. */
  function RoleBadgeColor(role: Option<string>): (c: string)
    ensures c == Green <==> role == Some("Admin")
    ensures c == Yellow <==> role != Some("Admin")
  {
    if role == Some("Admin") then Green else Yellow
  }
}
