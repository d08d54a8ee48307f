/** The navigation sidebar: the menu each role sees, the extra desktop entries of the
    patient portal with the unread badge, and the sidebar's patient-id mask. */
module Sidebar {
  import opened Wrappers
  import Text
  import opened Types

  datatype MenuItem = MenuItem(route: AppRoute, title: string, icon: string, badge: Option<int>)

  const PatientItems := [
    MenuItem(Dashboard, "Home", "\U{1F3E0}", None),
    MenuItem(Progress, "Progress", "\U{1F4C8}", None),
    MenuItem(Booking, "Book", "\U{1F4C5}", None),
    MenuItem(Records, "Records", "\U{1F4C1}", None),
    MenuItem(Telehealth, "Consult", "\U{1F3A5}", None)]

  const AdminItems := [
    MenuItem(Dashboard, "Hub", "\U{1F6E1}\U{FE0F}", None),
    MenuItem(AdminAppointments, "Agenda", "\U{1F4C5}", None),
    MenuItem(AdminNurses, "Staff", "\U{1FA7A}", None),
    MenuItem(AdminPatients, "Data", "\U{1F465}", None),
    MenuItem(AdminAnalytics, "Stats", "\U{1F4C8}", None),
    MenuItem(Updates, "Growth", "\U{2728}", None)]

  const NurseItems := [
    MenuItem(Dashboard, "Shift Home", "\U{1F3E5}", None),
    MenuItem(NurseSchedule, "Agenda", "\U{1F4C5}", None),
    MenuItem(NurseAvailability, "Slots", "\U{1F552}", None),
    MenuItem(NursePatients, "Patients", "\U{1F465}", None)]

  /** `getMenu`: one list per role, patients being the default. */
  function Menu(role: UserRole): seq<MenuItem> {
    match role
    case Admin => AdminItems
    case Nurse => NurseItems
    case Patient => PatientItems
  }

  /** The patient portal's desktop-only entries; the alerts entry carries the unread count. */
  function PatientExtras(unreadCount: int): seq<MenuItem> {
    [MenuItem(TrustCenter, "ZA Trust", "\U{1F6E1}\U{FE0F}", None),
     MenuItem(Updates, "What's New", "\U{2728}", None),
     MenuItem(Reviews, "Feedback", "\U{2B50}", None),
     MenuItem(Notifications, "Alerts", "\U{1F514}", Some(unreadCount))]
  }

  /** `desktopItems`: the role's menu, followed for patients by the four extra entries. */
  function DesktopItems(role: UserRole, unreadCount: int): (r: seq<MenuItem>)
    ensures role == Patient ==> r == Menu(role) + PatientExtras(unreadCount)
    ensures role != Patient ==> r == Menu(role)
  {
    if role == Patient then Menu(role) + PatientExtras(unreadCount) else Menu(role)
  }

  /** A badge shows for a defined, positive count. */
  predicate ShowsBadge(item: MenuItem) {
    item.badge.Some? && item.badge.value > 0
  }

  /** The mobile bar is the desktop list's prefix, every entry starts at the role's home,
      and no route appears twice in a list. */
  lemma MenusWellFormed(role: UserRole, unreadCount: int)
    ensures var d := DesktopItems(role, unreadCount);
      && |Menu(role)| <= |d| && d[..|Menu(role)|] == Menu(role)
      && d[0].route == Dashboard
      && forall i, j :: 0 <= i < j < |d| ==> d[i].route != d[j].route
  {
  }

  /** Only the patient desktop list can show a badge, and it does exactly when there is
      unread mail: the count on it is the unread count. */
  lemma BadgeIffUnread(role: UserRole, unreadCount: int)
    ensures (exists i :: 0 <= i < |DesktopItems(role, unreadCount)| && ShowsBadge(DesktopItems(role, unreadCount)[i]))
      <==> role == Patient && unreadCount > 0
  {
    var d := DesktopItems(role, unreadCount);
    if role == Patient && unreadCount > 0 {
      assert ShowsBadge(d[8]);
    }
  }

  /** `getRoleBadgeColor`. */
  function RoleBadgeColor(role: UserRole): string {
    match role
    case Admin => "bg-emerald-50 text-emerald-600"
    case Nurse => "bg-blue-50 text-blue-600"
    case Patient => "bg-violet-50 text-violet-600"
  }

  lemma RoleBadgeColorsDistinct(a: UserRole, b: UserRole)
    ensures RoleBadgeColor(a) == RoleBadgeColor(b) <==> a == b
  {
    if a != b {
      assert RoleBadgeColor(a)[3] != RoleBadgeColor(b)[3];
    }
  }

  /** The sidebar's `maskPatientId`: empty when there is no id (unlike the dashboard's). */
  function MaskPatientId(val: Option<string>, privacyMode: bool): (r: string)
    ensures val.None? || val == Some("") ==> r == ""
    ensures val.Some? && val.value != "" && !privacyMode ==> r == val.value
    ensures val.Some? && val.value != "" && privacyMode ==> r == "KH-" + Text.Bullets
  {
    if val.None? || val.value == "" then ""
    else if !privacyMode then val.value
    else "KH-" + Text.Bullets
  }
}
