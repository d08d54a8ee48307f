/** The administrator's command centre: today's visit count and agenda, the number of
    nurses on duty, and the two status colour mappings. */
module AdminDashboard {
  import opened Wrappers
  import SeqUtil
  import opened Types

  predicate DatedOn(today: string, a: Appointment) {
    a.date == today
  }

  /** Today's agenda: the appointments dated `today`, in their stored order. */
  function Agenda(appts: seq<Appointment>, today: string): (r: seq<Appointment>)
    ensures forall i :: 0 <= i < |r| ==> r[i] in appts && r[i].date == today
    ensures forall a :: a in appts && a.date == today ==> a in r
  {
    SeqUtil.Filter(appts, a => DatedOn(today, a))
  }

  /** The agenda of a concatenation is the concatenation of the agendas. */
  lemma AgendaInOrder(a: seq<Appointment>, b: seq<Appointment>, today: string)
    ensures Agenda(a + b, today) == Agenda(a, today) + Agenda(b, today)
  {
    SeqUtil.FilterAppend(a, b, x => DatedOn(today, x));
  }

  /** `todaysVisits`: how many appointments are dated today; each booking for today adds
      one and any other booking none. */
  function TodaysVisits(appts: seq<Appointment>, today: string): (r: nat)
    ensures r == |Agenda(appts, today)| && r <= |appts|
  {
    |Agenda(appts, today)|
  }

  lemma VisitsCountNewBooking(appts: seq<Appointment>, x: Appointment, today: string)
    ensures TodaysVisits([x] + appts, today) == TodaysVisits(appts, today) + (if x.date == today then 1 else 0)
  {
    AgendaInOrder([x], appts, today);
  }

  /** When every appointment is for today, all of them are visits today. */
  lemma AllToday(appts: seq<Appointment>, today: string)
    requires forall i :: 0 <= i < |appts| ==> appts[i].date == today
    ensures Agenda(appts, today) == appts && TodaysVisits(appts, today) == |appts|
  {
    SeqUtil.FilterKeepsAll(appts, a => DatedOn(today, a));
  }

  predicate OnDuty(n: Nurse) {
    n.status != Offline
  }

  predicate OffDuty(n: Nurse) {
    n.status == Offline
  }

  /** The "Active Personnel" figure: nurses whose status is not Offline. */
  function ActivePersonnel(nurses: seq<Nurse>): (r: nat)
    ensures r <= |nurses|
  {
    |SeqUtil.Filter(nurses, OnDuty)|
  }

  /** Active and offline nurses together make up the whole roster. */
  lemma ActivePlusOffline(nurses: seq<Nurse>)
    ensures ActivePersonnel(nurses) + |SeqUtil.Filter(nurses, OffDuty)| == |nurses|
  {
    SeqUtil.FilterSplitsLength(nurses, OnDuty);
    SeqUtil.FilterExtensional(nurses, x => !OnDuty(x), OffDuty);
  }

  /** A roster with nobody offline is fully active. */
  lemma NoneOffline(nurses: seq<Nurse>)
    requires forall i :: 0 <= i < |nurses| ==> nurses[i].status != Offline
    ensures ActivePersonnel(nurses) == |nurses|
  {
    SeqUtil.FilterKeepsAll(nurses, OnDuty);
  }

  /** `getStatusColor`: the switch over the status text, read as the status it names, if
      any; text naming no status takes the fallback. */
  function StatusDotColor(status: Option<NurseStatus>): string {
    match status
    case Some(Available) => "bg-emerald-500"
    case Some(OnACall) => "bg-rose-500"
    case Some(Offline) => "bg-slate-400"
    case None => "bg-slate-300"
  }

  /** `getStatusLabelColor`, likewise. */
  function StatusLabelColor(status: Option<NurseStatus>): string {
    match status
    case Some(Available) => "text-emerald-600 bg-emerald-50 border-emerald-100"
    case Some(OnACall) => "text-rose-600 bg-rose-50 border-rose-100"
    case Some(Offline) => "text-slate-500 bg-slate-50 border-slate-100"
    case None => "text-slate-400 bg-slate-50 border-slate-100"
  }

  /** The colours of a status text. */
  function DotColorOf(text: string): string {
    StatusDotColor(ParseNurseStatus(text))
  }

  function LabelColorOf(text: string): string {
    StatusLabelColor(ParseNurseStatus(text))
  }

  /** Each of the three statuses and the fallback have their own colours in both mappings. */
  lemma StatusColorsDistinct(a: Option<NurseStatus>, b: Option<NurseStatus>)
    ensures StatusDotColor(a) == StatusDotColor(b) <==> a == b
    ensures StatusLabelColor(a) == StatusLabelColor(b) <==> a == b
  {
    if a != b {
      DotColorsDiffer(a, b);
      LabelColorsDiffer(a, b);
    }
  }

  /** The dot colours differ in their fourth character or their length. */
  lemma DotColorsDiffer(a: Option<NurseStatus>, b: Option<NurseStatus>)
    requires a != b
    ensures StatusDotColor(a) != StatusDotColor(b)
  {
    var x, y := StatusDotColor(a), StatusDotColor(b);
    assert x[3] != y[3] || x[|x| - 3] != y[|y| - 3];
  }

  /** Different statuses have different label colours. */
  lemma LabelColorsDiffer(a: Option<NurseStatus>, b: Option<NurseStatus>)
    requires a != b
    ensures StatusLabelColor(a) != StatusLabelColor(b)
  {
  }

  /** A nurse's status label is read back as that status, and any other text falls back. */
  lemma StatusTextColors(n: NurseStatus, other: string)
    requires forall x: NurseStatus :: other != x.Label()
    ensures DotColorOf(n.Label()) == StatusDotColor(Some(n)) && LabelColorOf(n.Label()) == StatusLabelColor(Some(n))
    ensures DotColorOf(other) == "bg-slate-300" && LabelColorOf(other) == StatusLabelColor(None)
  {
  }
}
