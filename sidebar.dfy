/** `getSidebarItems`: the navigation groups each role sees. The three route
    tables are constants here. */
module Sidebar {
  import opened Common
  import opened Auth

  datatype SidebarLink = SidebarLink(title: string, url: string)
  datatype SidebarGroup = SidebarGroup(title: string, items: seq<SidebarLink>)

  const ADMIN_ITEMS: seq<SidebarGroup> := [
    SidebarGroup("Admin Dashboard", [
      SidebarLink("Overview", "/admin/overview"),
      SidebarLink("Analytics", "/admin/analytics"),
      SidebarLink("Users", "/admin/users"),
      SidebarLink("Parcels", "/admin/parcels"),
      SidebarLink("Delivery Personnel", "/admin/personnel")])]

  const SENDER_ITEMS: seq<SidebarGroup> := [
    SidebarGroup("Sender Dashboard", [
      SidebarLink("Overview", "/sender/overview"),
      SidebarLink("Create Parcel", "/sender/create"),
      SidebarLink("My Parcels", "/sender/parcels")])]

  const RECEIVER_ITEMS: seq<SidebarGroup> := [
    SidebarGroup("Receiver Dashboard", [
      SidebarLink("Overview", "/receiver/overview"),
      SidebarLink("Incoming Parcels", "/receiver/incoming"),
      SidebarLink("Delivery History", "/receiver/history"),
      SidebarLink("Track Parcel", "/receiver/track")])]

  /** The groups for a role; `None` is an absent role. */
  function SidebarItems(role: Option<string>): (r: seq<SidebarGroup>)
    ensures role == Some(ROLE_ADMIN) ==> r == ADMIN_ITEMS
    ensures role == Some(ROLE_SENDER) ==> r == SENDER_ITEMS
    ensures role == Some(ROLE_RECEIVER) ==> r == RECEIVER_ITEMS
    ensures role == Some(ROLE_SUPER_ADMIN) ==>
              r == ADMIN_ITEMS + SENDER_ITEMS + RECEIVER_ITEMS
              && |r| == |ADMIN_ITEMS| + |SENDER_ITEMS| + |RECEIVER_ITEMS|
    ensures r == [] <==> role.None? || role.value !in {ROLE_ADMIN, ROLE_SENDER, ROLE_RECEIVER, ROLE_SUPER_ADMIN}
  {
    if role.None? then []
    else if role.value == ROLE_ADMIN then ADMIN_ITEMS
    else if role.value == ROLE_SENDER then SENDER_ITEMS
    else if role.value == ROLE_RECEIVER then RECEIVER_ITEMS
    else if role.value == ROLE_SUPER_ADMIN then ADMIN_ITEMS + SENDER_ITEMS + RECEIVER_ITEMS
    else []
  }

  /** The link `url` lies under the section `prefix`. */
  predicate LinkUnder(url: string, prefix: string) {
    |prefix| < |url| && url[..|prefix|] == prefix
  }

  /** Every link a single-role sidebar offers lies under that role's own
      section of the site. */
  lemma SidebarLinksUnderRole(role: string, g: SidebarGroup, l: SidebarLink)
    requires role in {ROLE_ADMIN, ROLE_SENDER, ROLE_RECEIVER}
    requires g in SidebarItems(Some(role)) && l in g.items
    ensures role == ROLE_ADMIN ==> LinkUnder(l.url, "/admin/")
    ensures role == ROLE_SENDER ==> LinkUnder(l.url, "/sender/")
    ensures role == ROLE_RECEIVER ==> LinkUnder(l.url, "/receiver/")
  {
  }

  /** A super admin sees every link any single role sees, and nothing else. */
  lemma SuperAdminSeesAll(g: SidebarGroup)
    ensures g in SidebarItems(Some(ROLE_SUPER_ADMIN)) <==>
              exists role :: role in {ROLE_ADMIN, ROLE_SENDER, ROLE_RECEIVER} && g in SidebarItems(Some(role))
  {
    var all := SidebarItems(Some(ROLE_SUPER_ADMIN));
    if g in all {
      if g in ADMIN_ITEMS {
        assert g in SidebarItems(Some(ROLE_ADMIN));
      } else if g in SENDER_ITEMS {
        assert g in SidebarItems(Some(ROLE_SENDER));
      } else {
        assert g in SidebarItems(Some(ROLE_RECEIVER));
      }
    }
  }
}
