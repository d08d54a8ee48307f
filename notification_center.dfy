/** The notification centre: preference toggles, the category filter, the newest-first
    display order and the read-on-click action. Timestamps are ISO strings; `millis`
    stands for `new Date(t).getTime()`, which the model does not compute. */
module NotificationCenter {
  import SeqUtil
  import opened Types
  import AppStore

  /** `toggleCategory`: one category switch flips; channels are untouched. */
  function ToggleCategory(prefs: NotificationPreferences, cat: NotificationType): (r: NotificationPreferences)
    ensures r.categories.Get(cat) == !prefs.categories.Get(cat)
    ensures forall t :: t != cat ==> r.categories.Get(t) == prefs.categories.Get(t)
    ensures r.channels == prefs.channels
  {
    prefs.(categories := prefs.categories.With(cat, !prefs.categories.Get(cat)))
  }

  /** `toggleChannel`: one channel switch flips; categories are untouched. */
  function ToggleChannel(prefs: NotificationPreferences, ch: Channel): (r: NotificationPreferences)
    ensures r.channels.Get(ch) == !prefs.channels.Get(ch)
    ensures forall c :: c != ch ==> r.channels.Get(c) == prefs.channels.Get(c)
    ensures r.categories == prefs.categories
  {
    prefs.(channels := prefs.channels.With(ch, !prefs.channels.Get(ch)))
  }

  /** Category switches are determined by their five values. */
  lemma CategoriesExtensional(a: CategoryPrefs, b: CategoryPrefs)
    requires forall t :: a.Get(t) == b.Get(t)
    ensures a == b
  {
    assert a.Get(AppointmentAlert) == b.Get(AppointmentAlert) && a.Get(RecordAlert) == b.Get(RecordAlert);
    assert a.Get(HealthAlert) == b.Get(HealthAlert) && a.Get(SystemAlert) == b.Get(SystemAlert);
    assert a.Get(SecurityAlert) == b.Get(SecurityAlert);
  }

  lemma ChannelsExtensional(a: ChannelPrefs, b: ChannelPrefs)
    requires forall c :: a.Get(c) == b.Get(c)
    ensures a == b
  {
    assert a.Get(InApp) == b.Get(InApp) && a.Get(Email) == b.Get(Email) && a.Get(Sms) == b.Get(Sms);
  }

  /** Toggling the same switch twice gives the preferences back. */
  lemma ToggleTwiceRestores(prefs: NotificationPreferences, cat: NotificationType, ch: Channel)
    ensures ToggleCategory(ToggleCategory(prefs, cat), cat) == prefs
    ensures ToggleChannel(ToggleChannel(prefs, ch), ch) == prefs
  {
    CategoriesExtensional(ToggleCategory(ToggleCategory(prefs, cat), cat).categories, prefs.categories);
    ChannelsExtensional(ToggleChannel(ToggleChannel(prefs, ch), ch).channels, prefs.channels);
  }

  /** `filteredNotifications`: the notifications whose category is switched on. */
  function Filtered(ns: seq<AppNotification>, prefs: NotificationPreferences): (r: seq<AppNotification>)
    ensures forall i :: 0 <= i < |r| ==> r[i] in ns && prefs.categories.Get(r[i].kind)
    ensures forall n :: n in ns && prefs.categories.Get(n.kind) ==> n in r
  {
    SeqUtil.Filter(ns, (n: AppNotification) => prefs.categories.Get(n.kind))
  }

  /** The filter keeps the original order, and with every category on it keeps everything. */
  lemma FilteredInOrder(a: seq<AppNotification>, b: seq<AppNotification>, prefs: NotificationPreferences)
    ensures Filtered(a + b, prefs) == Filtered(a, prefs) + Filtered(b, prefs)
    ensures Filtered(a, AppStore.InitialPreferences) == a
  {
    SeqUtil.FilterAppend(a, b, (n: AppNotification) => prefs.categories.Get(n.kind));
    SeqUtil.FilterKeepsAll(a, (n: AppNotification) => AppStore.InitialPreferences.categories.Get(n.kind));
  }

  /** The order the comparator `time(b) - time(a)` sorts into: newer first. */
  function NewerFirst(millis: string -> int): (AppNotification, AppNotification) -> bool {
    (a: AppNotification, b: AppNotification) => millis(a.timestamp) >= millis(b.timestamp)
  }

  lemma NewerFirstTotal(millis: string -> int)
    ensures SeqUtil.TotalPreorder(NewerFirst(millis))
  {
  }

  /** The displayed list: the filtered notifications, newest timestamp first. */
  function Displayed(ns: seq<AppNotification>, prefs: NotificationPreferences, millis: string -> int)
    : (r: seq<AppNotification>)
    ensures multiset(r) == multiset(Filtered(ns, prefs))
    ensures forall i, j :: 0 <= i < j < |r| ==> millis(r[i].timestamp) >= millis(r[j].timestamp)
  {
    NewerFirstTotal(millis);
    SeqUtil.SortBySorted(Filtered(ns, prefs), NewerFirst(millis));
    SeqUtil.SortBy(Filtered(ns, prefs), NewerFirst(millis))
  }

  /** Clicking a displayed item marks it read in the store, leaving other ids alone. */
  lemma ClickMarksRead(ns: seq<AppNotification>, prefs: NotificationPreferences, millis: string -> int, k: int)
    requires 0 <= k < |Displayed(ns, prefs, millis)|
    ensures var id := Displayed(ns, prefs, millis)[k].id;
      forall i :: 0 <= i < |ns| ==>
        && (ns[i].id == id ==> AppStore.MarkRead(ns, id)[i].read)
        && (ns[i].id != id ==> AppStore.MarkRead(ns, id)[i] == ns[i])
  {
  }

  /** `getTypeIcon` over the type string. */
  function TypeIcon(t: string): (r: string)
    ensures t == "APPOINTMENT" ==> r == "\U{1F4C5}"
    ensures t == "RECORD" ==> r == "\U{1F4C4}"
    ensures t == "HEALTH_ALERT" ==> r == "\U{26A0}\U{FE0F}"
    ensures t == "SECURITY" ==> r == "\U{1F6E1}\U{FE0F}"
    ensures t !in {"APPOINTMENT", "RECORD", "HEALTH_ALERT", "SECURITY"} ==> r == "\U{1F514}"
  {
    if t == "APPOINTMENT" then "\U{1F4C5}"
    else if t == "RECORD" then "\U{1F4C4}"
    else if t == "HEALTH_ALERT" then "\U{26A0}\U{FE0F}"
    else if t == "SECURITY" then "\U{1F6E1}\U{FE0F}"
    else "\U{1F514}"
  }

  /** `getTypeColor` over the type string. */
  function TypeColor(t: string): (r: string)
    ensures t == "APPOINTMENT" ==> r == "bg-violet-100 text-violet-600"
    ensures t == "RECORD" ==> r == "bg-emerald-100 text-emerald-600"
    ensures t == "HEALTH_ALERT" ==> r == "bg-rose-100 text-rose-600"
    ensures t == "SECURITY" ==> r == "bg-indigo-100 text-indigo-600"
    ensures t !in {"APPOINTMENT", "RECORD", "HEALTH_ALERT", "SECURITY"} ==> r == "bg-slate-100 text-slate-600"
  {
    if t == "APPOINTMENT" then "bg-violet-100 text-violet-600"
    else if t == "RECORD" then "bg-emerald-100 text-emerald-600"
    else if t == "HEALTH_ALERT" then "bg-rose-100 text-rose-600"
    else if t == "SECURITY" then "bg-indigo-100 text-indigo-600"
    else "bg-slate-100 text-slate-600"
  }

  /** SYSTEM has no case of its own: it shows the default bell and grey, and every other
      type gets an icon and a colour distinct from the default. */
  lemma SystemFallsToDefault(t: NotificationType)
    ensures t == SystemAlert <==> TypeIcon(t.Label()) == "\U{1F514}"
    ensures t == SystemAlert <==> TypeColor(t.Label()) == "bg-slate-100 text-slate-600"
  {
  }
}
