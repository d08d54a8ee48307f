/** The "what's new" portal: its three tabs, of which only administrators see the feature
    flags, the administrator-only flag switch, and the release icons. */
module UpdatesPortal {
  import opened Wrappers
  import opened Types

  datatype PortalTab = UpdatesTab | RoadmapTab | FlagsTab

  /** The tab buttons a role is offered. */
  function TabButtons(role: UserRole): (r: set<PortalTab>)
    ensures UpdatesTab in r && RoadmapTab in r
    ensures FlagsTab in r <==> role == Admin
  {
    if role == Admin then {UpdatesTab, RoadmapTab, FlagsTab} else {UpdatesTab, RoadmapTab}
  }

  /** The flags panel renders only for the flags tab of an administrator. */
  predicate ShowsFlagsPanel(tab: PortalTab, role: UserRole) {
    tab == FlagsTab && role == Admin
  }

  /** `toggleFlag` on the list: for an administrator the flag with that id is switched;
      everyone else changes nothing. */
  function ToggledFlags(flags: seq<FeatureFlag>, id: string, role: UserRole): (r: seq<FeatureFlag>)
    ensures |r| == |flags|
    ensures role != Admin ==> r == flags
    ensures role == Admin ==> forall i :: 0 <= i < |flags| ==>
      r[i] == if flags[i].id == id then flags[i].(isEnabled := !flags[i].isEnabled) else flags[i]
  {
    if role != Admin || flags == [] then flags
    else
      var f := flags[0];
      [if f.id == id then f.(isEnabled := !f.isEnabled) else f] + ToggledFlags(flags[1..], id, role)
  }

  /** Switching the same flag twice restores the list, and switching one flag never
      touches another or any flag's name and description. */
  lemma ToggleFlagTwice(flags: seq<FeatureFlag>, id: string, role: UserRole)
    ensures ToggledFlags(ToggledFlags(flags, id, role), id, role) == flags
  {
    var once := ToggledFlags(flags, id, role);
    var twice := ToggledFlags(once, id, role);
    assert |twice| == |flags|;
    forall i | 0 <= i < |flags| ensures twice[i] == flags[i] {
    }
  }

  lemma ToggleFlagTouchesOnlyItsFlag(flags: seq<FeatureFlag>, id: string, role: UserRole, i: int)
    requires 0 <= i < |flags|
    ensures var r := ToggledFlags(flags, id, role);
      && r[i].id == flags[i].id && r[i].name == flags[i].name && r[i].description == flags[i].description
      && (r[i].isEnabled != flags[i].isEnabled <==> role == Admin && flags[i].id == id)
  {
  }

  /** `getUpdateIcon` on the release type, with the parcel for any other type. */
  function UpdateIcon(kind: Option<UpdateType>): string {
    match kind
    case Some(Security) => "\U{1F6E1}\U{FE0F}"
    case Some(Feature) => "\U{1F680}"
    case Some(Maintenance) => "\U{1F6E0}\U{FE0F}"
    case None => "\U{1F4E6}"
  }

  lemma UpdateIconsDistinct(a: Option<UpdateType>, b: Option<UpdateType>)
    ensures UpdateIcon(a) == UpdateIcon(b) <==> a == b
  {
  }

  class Portal {
    const role: UserRole
    var activeTab: PortalTab
    var flags: seq<FeatureFlag>

    /** The portal opens on the release notes. */
    constructor (role: UserRole, flags0: seq<FeatureFlag>)
      ensures this.role == role && activeTab == UpdatesTab && flags == flags0
    {
      this.role := role;
      activeTab := UpdatesTab;
      flags := flags0;
    }

    /** Pressing one of the tab buttons offered to the role. */
    method SelectTab(t: PortalTab)
      requires t in TabButtons(role)
      modifies this
      ensures activeTab == t && flags == old(flags)
      ensures ShowsFlagsPanel(activeTab, role) <==> t == FlagsTab
    {
      activeTab := t;
    }

    method ToggleFlag(id: string)
      modifies this
      ensures flags == ToggledFlags(old(flags), id, role) && activeTab == old(activeTab)
    {
      if role != Admin {
        return;
      }
      flags := ToggledFlags(flags, id, role);
    }
  }

  /** Whatever tab a non-administrator reaches through the buttons, no flags panel shows. */
  lemma NoFlagsForOthers(role: UserRole, t: PortalTab)
    requires role != Admin && t in TabButtons(role)
    ensures !ShowsFlagsPanel(t, role)
  {
  }
}
