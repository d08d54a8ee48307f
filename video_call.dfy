/** The video consultation's waiting room: the pre-call checklist that gates the launch,
    the meeting link of each platform, and the signal indicator. */
module VideoCall {
  import opened Wrappers
  import Text
  import opened Types

  /** The platform prop defaults to Google Meet. */
  function PlatformOrDefault(platform: Option<MeetingPlatform>): MeetingPlatform {
    platform.GetOr(GoogleMeet)
  }

  const MeetPrefix := "https://meet.google.com/"
  const TeamsPrefix := "https://teams.microsoft.com/l/meetup-join/"

  /** `handleLaunch`'s link: the platform's join address followed by the room id. */
  function MeetingLink(platform: Option<MeetingPlatform>, roomId: string): (r: string)
    ensures PlatformOrDefault(platform) == GoogleMeet ==> r == MeetPrefix + roomId
    ensures PlatformOrDefault(platform) == MsTeams ==> r == TeamsPrefix + roomId
  {
    if PlatformOrDefault(platform) == GoogleMeet then MeetPrefix + roomId else TeamsPrefix + roomId
  }

  /** The link ends with the room id, and the platform and the room can be read back from it. */
  lemma MeetingLinkInjective(p: Option<MeetingPlatform>, q: Option<MeetingPlatform>, a: string, b: string)
    ensures MeetingLink(p, a)[|MeetingLink(p, a)| - |a|..] == a
    ensures MeetingLink(p, a) == MeetingLink(q, b) <==> PlatformOrDefault(p) == PlatformOrDefault(q) && a == b
  {
    var l1, l2 := MeetingLink(p, a), MeetingLink(q, b);
    var pre1 := if PlatformOrDefault(p) == GoogleMeet then MeetPrefix else TeamsPrefix;
    var pre2 := if PlatformOrDefault(q) == GoogleMeet then MeetPrefix else TeamsPrefix;
    assert l1 == pre1 + a && l2 == pre2 + b;
    assert l1[|pre1|..] == a;
    if l1 == l2 {
      assert l1[8] == pre1[8] && l2[8] == pre2[8];
      assert pre1 == pre2;
      assert a == l1[|pre1|..] == l2[|pre2|..] == b;
    }
  }

  /** `getPlatformIcon` and `getPlatformColor`. */
  function PlatformIcon(platform: Option<MeetingPlatform>): string {
    if PlatformOrDefault(platform) == GoogleMeet then "\U{1F499}" else "\U{1F49C}"
  }

  function PlatformColor(platform: Option<MeetingPlatform>): string {
    if PlatformOrDefault(platform) == GoogleMeet then "from-blue-600 to-indigo-700" else "from-violet-600 to-fuchsia-700"
  }

  /** The card's heart and gradient follow the platform the link joins: Google Meet (and the
      default) is blue, MS Teams violet, and the two platforms never share a style. */
  lemma PlatformStyleFollowsLink(p: Option<MeetingPlatform>, q: Option<MeetingPlatform>, roomId: string)
    ensures (MeetingLink(p, roomId) == MeetPrefix + roomId)
              ==> PlatformIcon(p) == "\U{1F499}" && PlatformColor(p) == "from-blue-600 to-indigo-700"
    ensures (MeetingLink(p, roomId) == TeamsPrefix + roomId)
              ==> PlatformIcon(p) == "\U{1F49C}" && PlatformColor(p) == "from-violet-600 to-fuchsia-700"
    ensures PlatformIcon(p) == PlatformIcon(q) <==> PlatformOrDefault(p) == PlatformOrDefault(q)
    ensures PlatformColor(p) == PlatformColor(q) <==> PlatformOrDefault(p) == PlatformOrDefault(q)
  {
    var l, meet, teams := MeetingLink(p, roomId), MeetPrefix + roomId, TeamsPrefix + roomId;
    assert meet[8] == 'm' && teams[8] == 't';
    if PlatformOrDefault(p) == GoogleMeet {
      assert l == meet && l != teams;
    } else {
      assert l == teams && l != meet;
    }
    assert "\U{1F499}"[0] != "\U{1F49C}"[0];
    assert "from-blue-600 to-indigo-700"[5] != "from-violet-600 to-fuchsia-700"[5];
  }

  /** `getSignalLabel`. */
  function SignalLabel(strength: int): string {
    if strength == 4 then "Excellent"
    else if strength == 3 then "Good"
    else if strength == 2 then "Fair"
    else "Poor"
  }

  /** The five-second signal update for a random draw `r` in [0, 1). */
  function SignalAfterTick(r: real): (s: int)
    requires 0.0 <= r < 1.0
    ensures 2 <= s <= 4
  {
    if r > 0.9 then 2 else if r > 0.7 then 3 else 4
  }

  /** The indicator starts at four bars and every update draws two to four, so the label
      never reads 'Poor'. */
  lemma SignalNeverPoor(r: real)
    requires 0.0 <= r < 1.0
    ensures SignalLabel(SignalAfterTick(r)) != "Poor" && SignalLabel(4) == "Excellent"
  {
  }

  /** Bar `bar` (1 to 4) is lit at strength `s`; lit bars share one colour. */
  function BarClass(bar: int, strength: int): string {
    if bar <= strength then
      (if strength >= 3 then "bg-emerald-500" else if strength == 2 then "bg-amber-500" else "bg-rose-500")
    else "bg-slate-600"
  }

  function LitBars(strength: int, bars: seq<int>): nat {
    if bars == [] then 0 else (if bars[0] <= strength then 1 else 0) + LitBars(strength, bars[1..])
  }

  /** With strength 1 to 4, exactly that many of the four bars are lit, and they are the
      lowest ones. */
  lemma LitBarsMatchStrength(strength: int)
    requires 1 <= strength <= 4
    ensures LitBars(strength, [1, 2, 3, 4]) == strength
    ensures forall b :: 1 <= b <= 4 ==> (BarClass(b, strength) != "bg-slate-600" <==> b <= strength)
  {
    assert [1, 2, 3, 4][1..] == [2, 3, 4] && [2, 3, 4][1..] == [3, 4] && [3, 4][1..] == [4];
  }

  datatype CheckItem = Mic | Camera | Environment

  datatype Checklist = Checklist(mic: bool, camera: bool, environment: bool) {
    function Get(item: CheckItem): bool {
      match item
      case Mic => mic
      case Camera => camera
      case Environment => environment
    }

    /** One item flips; the other two stay. */
    function Toggle(item: CheckItem): (r: Checklist)
      ensures r.Get(item) == !Get(item)
      ensures forall o :: o != item ==> r.Get(o) == Get(o)
    {
      match item
      case Mic => this.(mic := !mic)
      case Camera => this.(camera := !camera)
      case Environment => this.(environment := !environment)
    }

    /** The launch button is enabled once every item is ticked. */
    predicate Complete() {
      mic && camera && environment
    }
  }

  lemma CompleteIffAllTicked(c: Checklist)
    ensures c.Complete() <==> forall item :: c.Get(item)
  {
    if forall item :: c.Get(item) {
      assert c.Get(Mic) && c.Get(Camera) && c.Get(Environment);
    }
  }

  class WaitingRoom {
    const roomId: string
    const platform: Option<MeetingPlatform>
    var inCall: bool
    var signalStrength: int
    var checklist: Checklist

    constructor (roomId: string, platform: Option<MeetingPlatform>)
      ensures this.roomId == roomId && this.platform == platform
      ensures !inCall && signalStrength == 4 && checklist == Checklist(false, false, false)
    {
      this.roomId := roomId;
      this.platform := platform;
      inCall := false;
      signalStrength := 4;
      checklist := Checklist(false, false, false);
    }

    method ToggleItem(item: CheckItem)
      modifies this
      ensures checklist == old(checklist).Toggle(item)
      ensures inCall == old(inCall) && signalStrength == old(signalStrength)
    {
      checklist := checklist.Toggle(item);
    }

    method SignalTick(r: real)
      requires 0.0 <= r < 1.0
      modifies this
      ensures signalStrength == SignalAfterTick(r)
      ensures inCall == old(inCall) && checklist == old(checklist)
    {
      signalStrength := SignalAfterTick(r);
    }

    /** `handleLaunch`: from the waiting room only with the checklist complete; from the
        call screen ("re-open") at any time. The link is what the new window opens. */
    method Launch() returns (link: string)
      requires inCall || checklist.Complete()
      modifies this
      ensures inCall && link == MeetingLink(platform, roomId)
      ensures checklist == old(checklist) && signalStrength == old(signalStrength)
    {
      link := MeetingLink(platform, roomId);
      inCall := true;
    }
  }
}
