/** The administrator's staff directory: the sorted listing, the record mask, and the
    editor that holds a draft record (`Partial<Nurse>`) while it is edited and then saves
    it into the store, updating the record with that id or adding a new one. */
module AdminNurses {
  import opened Wrappers
  import SeqUtil
  import Text
  import opened Types
  import Slots
  import AdminCalendar
  import AppStore

  // ---------------------------------------------------------------------------------
  // The draft record

  /** The record under edit. Both ways of opening the editor fill in every scalar field,
      so only the four collections the save step defaults are optional. */
  datatype Draft = Draft(
    id: string,
    name: string,
    sancNumber: string,
    nurseType: NurseCategory,
    specialty: string,
    img: string,
    active: bool,
    status: NurseStatus,
    certifications: Option<seq<string>>,
    languages: Option<seq<string>>,
    testimonials: Option<seq<Testimonial>>,
    availability: Option<map<string, seq<string>>>,
    blockedDates: Option<seq<string>>)

  /** `handleEdit`: the draft is the record itself. */
  function DraftOf(n: Nurse): Draft {
    Draft(n.id, n.name, n.sancNumber, n.nurseType, n.specialty, n.img, n.active, n.status,
          Some(n.certifications), Some(n.languages), Some(n.testimonials), Some(n.availability),
          n.blockedDates)
  }

  const DefaultPhoto := "https://images.unsplash.com/photo-1559839734-2b71ea197ec2?auto=format&fit=crop&q=80&w=200"

  /** `handleAddNew`: a blank active RN record, English-speaking, with no slots. */
  function NewDraft(id: string): (d: Draft)
    ensures d.id == id && d.active && d.status == Available && d.nurseType == RegisteredNurse
    ensures d.languages == Some(["English"]) && d.certifications == Some([])
    ensures d.testimonials == Some([]) && d.availability == Some(map[]) && d.blockedDates.None?
  {
    Draft(id, "", "", RegisteredNurse, "", DefaultPhoto, true, Available, Some([]), Some(["English"]),
          Some([]), Some(map[]), None)
  }

  /** The record `handleSave` builds: languages default to English, the other collections
      to empty. An empty list present in the draft is kept, as `[] || d` is `[]`. */
  function FullNurse(d: Draft): (n: Nurse)
    ensures n.id == d.id && n.name == d.name && n.specialty == d.specialty && n.blockedDates == d.blockedDates
    ensures n.languages == d.languages.GetOr(["English"])
    ensures n.certifications == d.certifications.GetOr([]) && n.testimonials == d.testimonials.GetOr([])
    ensures n.availability == d.availability.GetOr(map[])
  {
    Types.Nurse.Nurse(d.id, d.name, d.sancNumber, d.nurseType, d.specialty, d.img, d.active, d.status,
          d.certifications.GetOr([]), d.languages.GetOr(["English"]), d.testimonials.GetOr([]),
          d.availability.GetOr(map[]), d.blockedDates)
  }

  /** Opening a record and saving it unchanged stores the same record. */
  lemma SaveUnchangedDraft(n: Nurse)
    ensures FullNurse(DraftOf(n)) == n
  {
  }

  /** What saving does to the store's list: the record with that id is replaced if there
      is one, otherwise the record is appended. */
  function SavedList(nurses: seq<Nurse>, n: Nurse): (r: seq<Nurse>)
    ensures (exists i :: 0 <= i < |nurses| && nurses[i].id == n.id) ==> r == AppStore.ReplaceNurse(nurses, n)
    ensures (forall i :: 0 <= i < |nurses| ==> nurses[i].id != n.id) ==> r == nurses + [n]
  {
    if exists i :: 0 <= i < |nurses| && nurses[i].id == n.id then AppStore.ReplaceNurse(nurses, n)
    else nurses + [n]
  }

  /** After saving, the record is on the list; the list grows only for a new id. */
  lemma SaveIsUpsert(nurses: seq<Nurse>, n: Nurse)
    ensures n in SavedList(nurses, n)
    ensures |SavedList(nurses, n)| == if exists i :: 0 <= i < |nurses| && nurses[i].id == n.id
                                      then |nurses| else |nurses| + 1
  {
    AppStore.ReplaceNurseEffect(nurses, n);
  }

  // ---------------------------------------------------------------------------------
  // Draft edits

  /** `addCertification`: the trimmed input is appended unless it is empty or already on
      the list. */
  function AddCertification(certs: seq<string>, input: string): (r: seq<string>)
    ensures |certs| <= |r| <= |certs| + 1 && r[..|certs|] == certs
    ensures forall c :: c in r <==> c in certs || (c == Text.Trim(input) && c != "")
    ensures |r| == |certs| + 1 <==> CertificationAccepted(certs, input)
  {
    var t := Text.Trim(input);
    if t == "" || t in certs then certs else certs + [t]
  }

  /** Adding certifications keeps the list free of repeats and of blank entries. */
  lemma AddCertificationKeepsClean(certs: seq<string>, input: string)
    requires forall i, j :: 0 <= i < j < |certs| ==> certs[i] != certs[j]
    requires forall i :: 0 <= i < |certs| ==> certs[i] != ""
    ensures var r := AddCertification(certs, input);
      && (forall i, j :: 0 <= i < j < |r| ==> r[i] != r[j])
      && (forall i :: 0 <= i < |r| ==> r[i] != "")
  {
  }

  /** Whether the add step accepted the input; the input box is cleared only then. */
  predicate CertificationAccepted(certs: seq<string>, input: string) {
    Text.Trim(input) != "" && Text.Trim(input) !in certs
  }

  /** A certification that is already on the list, or is blank once trimmed, is refused. */
  lemma CertificationRefused(certs: seq<string>)
    ensures AddCertification(certs, " ") == certs
  {
    assert Text.IsJsSpace(' ');
  }

  /** The draft `toggleSlot`: the shared toggle on the draft's `activeSlotDate`, over the
      draft's availability (an absent one is empty). */
  function DraftToggleSlot(d: Draft, date: string, time: string): (r: Draft)
    ensures r.availability.Some? && r == d.(availability := r.availability)
  {
    var current := d.availability.GetOr(map[]);
    d.(availability := Some(current[date := Slots.ToggleSlot(Slots.SlotsOn(current, date), time)]))
  }

  /** All three slot editors compute the same record: editing a nurse in the staff editor,
      toggling a slot and saving stores what the calendar and the nurse portal store. */
  lemma DraftToggleAgrees(n: Nurse, date: string, time: string)
    ensures FullNurse(DraftToggleSlot(DraftOf(n), date, time)) == AdminCalendar.ToggleSlot(n, date, time)
  {
  }

  /** `removeTestimonial`: `splice(index, 1)` on a copy. A negative index counts from the
      end, and an index past the end removes nothing. */
  function Splice1<T>(s: seq<T>, index: int): (r: seq<T>)
    ensures 0 <= index < |s| ==> r == s[..index] + s[index + 1..]
    ensures index >= |s| ==> r == s
    ensures -|s| <= index < 0 ==> r == s[..|s| + index] + s[|s| + index + 1..]
    ensures index < -|s| && s != [] ==> r == s[1..]
  {
    var start := if index < 0 then (if |s| + index < 0 then 0 else |s| + index)
                 else (if index > |s| then |s| else index);
    if start < |s| then s[..start] + s[start + 1..] else s
  }

  /** Removing an entry the list shows deletes exactly that entry. */
  lemma Splice1RemovesEntry<T>(s: seq<T>, index: int)
    requires 0 <= index < |s|
    ensures |Splice1(s, index)| == |s| - 1
    ensures forall i :: 0 <= i < index ==> Splice1(s, index)[i] == s[i]
    ensures forall i :: index <= i < |s| - 1 ==> Splice1(s, index)[i] == s[i + 1]
    ensures multiset(Splice1(s, index)) == multiset(s) - multiset{s[index]}
  {
    assert s == s[..index] + [s[index]] + s[index + 1..];
  }

  /** `handleAddTestimonial` needs a name and a comment and puts the new entry first. */
  function AddTestimonial(ts: seq<Testimonial>, t: Testimonial): (r: Option<seq<Testimonial>>)
    ensures r.Some? <==> t.patientName != "" && t.comment != ""
    ensures r.Some? ==> r.value == [t] + ts
  {
    if t.patientName == "" || t.comment == "" then None else Some([t] + ts)
  }

  const BlankTestimonial := Testimonial("", 5, "")

  // ---------------------------------------------------------------------------------
  // Listing

  datatype SortDir = Asc | Desc

  /** `toggleSort`: none, ascending, descending, none again. */
  function NextSort(d: Option<SortDir>): (r: Option<SortDir>)
    ensures d.None? ==> r == Some(Asc)
    ensures d == Some(Asc) ==> r == Some(Desc)
    ensures d == Some(Desc) ==> r.None?
  {
    match d
    case None => Some(Asc)
    case Some(Asc) => Some(Desc)
    case Some(Desc) => None
  }

  lemma NextSortCycles(d: Option<SortDir>)
    ensures NextSort(NextSort(NextSort(d))) == d
    ensures NextSort(d) != d
  {
  }

  function SpecialtyKey(n: Nurse): string {
    Text.Lower(n.specialty)
  }

  /** The order a comparator that returns `specA > specB ? 1 : -1` sorts into. */
  predicate SpecialtyAsc(a: Nurse, b: Nurse) {
    Text.StrLe(SpecialtyKey(a), SpecialtyKey(b))
  }

  /** The order of `specA < specB ? 1 : -1`. */
  predicate SpecialtyDesc(a: Nurse, b: Nurse) {
    Text.StrLe(SpecialtyKey(b), SpecialtyKey(a))
  }

  lemma SpecialtyAscTotal()
    ensures SeqUtil.TotalPreorder(SpecialtyAsc)
  {
    forall a, b ensures SpecialtyAsc(a, b) || SpecialtyAsc(b, a) {
      Text.StrLeTotal(SpecialtyKey(a), SpecialtyKey(b));
    }
    forall a, b, c | SpecialtyAsc(a, b) && SpecialtyAsc(b, c) ensures SpecialtyAsc(a, c) {
      Text.StrLeTransitive(SpecialtyKey(a), SpecialtyKey(b), SpecialtyKey(c));
    }
  }

  lemma SpecialtyDescTotal()
    ensures SeqUtil.TotalPreorder(SpecialtyDesc)
  {
    forall a, b ensures SpecialtyDesc(a, b) || SpecialtyDesc(b, a) {
      Text.StrLeTotal(SpecialtyKey(a), SpecialtyKey(b));
    }
    forall a, b, c | SpecialtyDesc(a, b) && SpecialtyDesc(b, c) ensures SpecialtyDesc(a, c) {
      Text.StrLeTransitive(SpecialtyKey(c), SpecialtyKey(b), SpecialtyKey(a));
    }
  }

  /** `sortedNurses`: the list itself when unsorted, otherwise a rearranged copy ordered by
      lower-cased specialty. */
  function SortedNurses(nurses: seq<Nurse>, dir: Option<SortDir>): (r: seq<Nurse>)
    ensures dir.None? ==> r == nurses
    ensures multiset(r) == multiset(nurses)
    ensures dir == Some(Asc) ==> forall i, j :: 0 <= i < j < |r| ==> Text.StrLe(SpecialtyKey(r[i]), SpecialtyKey(r[j]))
    ensures dir == Some(Desc) ==> forall i, j :: 0 <= i < j < |r| ==> Text.StrLe(SpecialtyKey(r[j]), SpecialtyKey(r[i]))
  {
    match dir
    case None => nurses
    case Some(Asc) =>
      SpecialtyAscTotal();
      SeqUtil.SortBySorted(nurses, SpecialtyAsc);
      SeqUtil.SortBy(nurses, SpecialtyAsc)
    case Some(Desc) =>
      SpecialtyDescTotal();
      SeqUtil.SortBySorted(nurses, SpecialtyDesc);
      SeqUtil.SortBy(nurses, SpecialtyDesc)
  }

  /** The mask the record card shows after the first five SANC characters. */
  const SancMask := "\U{201A}\U{00C4}\U{00A2}\U{201A}\U{00C4}\U{00A2}\U{201A}\U{00C4}\U{00A2}\U{201A}\U{00C4}\U{00A2}"

  /** `maskSanc`: the number itself with privacy off, else `substring(0, 5)` and the mask. */
  function MaskSanc(sanc: string, privacyMode: bool): (r: string)
    ensures !privacyMode ==> r == sanc
    ensures privacyMode ==> |r| == (if |sanc| < 5 then |sanc| else 5) + |SancMask|
    ensures privacyMode ==> r[..|r| - |SancMask|] == sanc[..|r| - |SancMask|] && r[|r| - |SancMask|..] == SancMask
  {
    if !privacyMode then sanc
    else (if |sanc| < 5 then sanc else sanc[..5]) + SancMask
  }

  /** `getStatusColor`: each status gets its own badge style. */
  function StatusColor(s: NurseStatus): string {
    match s
    case Available => "bg-emerald-100 text-emerald-700 border-emerald-200"
    case OnACall => "bg-rose-100 text-rose-700 border-rose-200"
    case Offline => "bg-slate-100 text-slate-500 border-slate-200"
  }

  lemma StatusColorsDistinct(s: NurseStatus, t: NurseStatus)
    ensures StatusColor(s) == StatusColor(t) <==> s == t
  {
  }

  // ---------------------------------------------------------------------------------
  // The editor

  datatype Tab = Info | SlotsTab | TestimonialsTab

  class StaffEditor {
    var isEditing: bool
    var editing: Option<Draft>
    var activeTab: Tab
    var activeSlotDate: string
    var sortDirection: Option<SortDir>
    var newCert: string
    var newTestimonial: Testimonial

    /** Closed, unsorted, with a blank testimonial form; `today` is the current date key. */
    constructor (today: string)
      ensures !isEditing && editing.None? && activeTab == Info && activeSlotDate == today
      ensures sortDirection.None? && newCert == "" && newTestimonial == BlankTestimonial
    {
      isEditing := false;
      editing := None;
      activeTab := Info;
      activeSlotDate := today;
      sortDirection := None;
      newCert := "";
      newTestimonial := BlankTestimonial;
    }

    method ToggleSort()
      modifies this
      ensures sortDirection == NextSort(old(sortDirection))
      ensures isEditing == old(isEditing) && editing == old(editing) && activeTab == old(activeTab)
      ensures activeSlotDate == old(activeSlotDate) && newCert == old(newCert)
      ensures newTestimonial == old(newTestimonial)
    {
      if sortDirection.None? {
        sortDirection := Some(Asc);
      } else if sortDirection == Some(Asc) {
        sortDirection := Some(Desc);
      } else {
        sortDirection := None;
      }
    }

    method HandleEdit(n: Nurse)
      modifies this
      ensures editing == Some(DraftOf(n)) && activeTab == Info && isEditing && newCert == ""
      ensures activeSlotDate == old(activeSlotDate) && sortDirection == old(sortDirection)
      ensures newTestimonial == old(newTestimonial)
    {
      editing := Some(DraftOf(n));
      activeTab := Info;
      isEditing := true;
      newCert := "";
    }

    /** `handleAddNew` with the random id supplied. */
    method HandleAddNew(id: string)
      modifies this
      ensures editing == Some(NewDraft(id)) && activeTab == Info && isEditing && newCert == ""
      ensures activeSlotDate == old(activeSlotDate) && sortDirection == old(sortDirection)
      ensures newTestimonial == old(newTestimonial)
    {
      editing := Some(NewDraft(id));
      activeTab := Info;
      isEditing := true;
      newCert := "";
    }

    /** `handleSave`: builds the full record and upserts it into the store's list. */
    method HandleSave(store: AppStore.Store)
      modifies this, store
      ensures old(editing).None? ==> store.nurses == old(store.nurses)
      ensures old(editing).Some? ==> store.nurses == SavedList(old(store.nurses), FullNurse(old(editing).value))
      ensures old(editing).Some? ==> !isEditing && editing.None?
      ensures old(editing).None? ==> isEditing == old(isEditing) && editing.None?
      ensures store.appointments == old(store.appointments) && store.notifications == old(store.notifications)
      ensures store.checkInRecords == old(store.checkInRecords) && store.legalStatus == old(store.legalStatus)
      ensures store.user == old(store.user) && store.preferences == old(store.preferences)
      ensures activeTab == old(activeTab) && activeSlotDate == old(activeSlotDate)
      ensures sortDirection == old(sortDirection) && newCert == old(newCert)
      ensures newTestimonial == old(newTestimonial)
    {
      if editing.None? {
        return;
      }
      var full := FullNurse(editing.value);
      if exists i :: 0 <= i < |store.nurses| && store.nurses[i].id == full.id {
        store.UpdateNurse(full);
      } else {
        store.AddNurse(full);
      }
      isEditing := false;
      editing := None;
    }

    method AddCertificationClicked()
      modifies this
      ensures old(editing).Some? && CertificationAccepted(old(editing).value.certifications.GetOr([]), old(newCert)) ==>
        && editing == Some(old(editing).value.(certifications :=
             Some(AddCertification(old(editing).value.certifications.GetOr([]), old(newCert)))))
        && newCert == ""
      ensures !(old(editing).Some? && CertificationAccepted(old(editing).value.certifications.GetOr([]), old(newCert))) ==>
        editing == old(editing) && newCert == old(newCert)
      ensures isEditing == old(isEditing) && activeTab == old(activeTab) && activeSlotDate == old(activeSlotDate)
      ensures sortDirection == old(sortDirection) && newTestimonial == old(newTestimonial)
    {
      var t := Text.Trim(newCert);
      if t == "" || editing.None? {
        return;
      }
      var current := editing.value.certifications.GetOr([]);
      if t in current {
        return;
      }
      editing := Some(editing.value.(certifications := Some(current + [t])));
      newCert := "";
    }

    method RemoveCertification(cert: string)
      modifies this
      ensures old(editing).None? ==> editing.None?
      ensures old(editing).Some? ==> editing == Some(old(editing).value.(certifications :=
        Some(SeqUtil.Without(old(editing).value.certifications.GetOr([]), cert))))
      ensures isEditing == old(isEditing) && activeTab == old(activeTab) && activeSlotDate == old(activeSlotDate)
      ensures sortDirection == old(sortDirection) && newCert == old(newCert) && newTestimonial == old(newTestimonial)
    {
      if editing.None? {
        return;
      }
      var current := editing.value.certifications.GetOr([]);
      editing := Some(editing.value.(certifications := Some(SeqUtil.Without(current, cert))));
    }

    method ToggleLanguage(lang: string)
      modifies this
      ensures old(editing).None? ==> editing.None?
      ensures old(editing).Some? ==> editing == Some(old(editing).value.(languages :=
        Some(SeqUtil.ToggleMember(old(editing).value.languages.GetOr([]), lang))))
      ensures isEditing == old(isEditing) && activeTab == old(activeTab) && activeSlotDate == old(activeSlotDate)
      ensures sortDirection == old(sortDirection) && newCert == old(newCert) && newTestimonial == old(newTestimonial)
    {
      if editing.None? {
        return;
      }
      var current := editing.value.languages.GetOr([]);
      editing := Some(editing.value.(languages := Some(SeqUtil.ToggleMember(current, lang))));
    }

    method ToggleSlot(time: string)
      modifies this
      ensures old(editing).None? ==> editing.None?
      ensures old(editing).Some? ==> editing == Some(DraftToggleSlot(old(editing).value, activeSlotDate, time))
      ensures isEditing == old(isEditing) && activeTab == old(activeTab) && activeSlotDate == old(activeSlotDate)
      ensures sortDirection == old(sortDirection) && newCert == old(newCert) && newTestimonial == old(newTestimonial)
    {
      if editing.None? {
        return;
      }
      editing := Some(DraftToggleSlot(editing.value, activeSlotDate, time));
    }

    method HandleAddTestimonial()
      modifies this
      ensures var added := if old(editing).Some?
                           then AddTestimonial(old(editing).value.testimonials.GetOr([]), old(newTestimonial))
                           else None;
        && (added.Some? ==> editing == Some(old(editing).value.(testimonials := added)) && newTestimonial == BlankTestimonial)
        && (added.None? ==> editing == old(editing) && newTestimonial == old(newTestimonial))
      ensures isEditing == old(isEditing) && activeTab == old(activeTab) && activeSlotDate == old(activeSlotDate)
      ensures sortDirection == old(sortDirection) && newCert == old(newCert)
    {
      if editing.None? || newTestimonial.patientName == "" || newTestimonial.comment == "" {
        return;
      }
      var current := editing.value.testimonials.GetOr([]);
      editing := Some(editing.value.(testimonials := Some([newTestimonial] + current)));
      newTestimonial := BlankTestimonial;
    }

    method RemoveTestimonial(index: int)
      modifies this
      ensures old(editing).None? ==> editing.None?
      ensures old(editing).Some? ==> editing == Some(old(editing).value.(testimonials :=
        Some(Splice1(old(editing).value.testimonials.GetOr([]), index))))
      ensures isEditing == old(isEditing) && activeTab == old(activeTab) && activeSlotDate == old(activeSlotDate)
      ensures sortDirection == old(sortDirection) && newCert == old(newCert) && newTestimonial == old(newTestimonial)
    {
      if editing.None? {
        return;
      }
      var updated := editing.value.testimonials.GetOr([]);
      updated := Splice1(updated, index);
      editing := Some(editing.value.(testimonials := Some(updated)));
    }
  }
}
