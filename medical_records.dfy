/** The medical records screen: sharing gated on the signed legal documents, signing the
    indemnity and the POPIA consent, the data-sharing preference switches, and the masked
    practitioner number. The screen's own state is a class; the legal updates go to the
    store. */
module MedicalRecords {
  import opened Wrappers
  import Text
  import opened Types
  import AppStore

  /** Sharing is allowed once both documents are signed. */
  predicate MaySharePatient(l: LegalStatus) {
    l.indemnitySigned && l.popiaConsent
  }

  /** `handleSignIndemnity`: nothing for a signature shorter than three characters; otherwise
      the indemnity is marked signed on the form's date. The signature text is not stored. */
  function IndemnityUpdate(signature: string, date: string): (r: Option<LegalUpdate>)
    ensures r.Some? <==> |signature| >= 3
    ensures r.Some? ==> r.value == NoLegalChange.(indemnitySigned := Some(true), indemnityDate := Some(date))
  {
    if |signature| < 3 then None
    else Some(NoLegalChange.(indemnitySigned := Some(true), indemnityDate := Some(date)))
  }

  /** `handleSignPopia`: POPIA consent, its date, and data sharing switched on. */
  function PopiaUpdate(signature: string, date: string): (r: Option<LegalUpdate>)
    ensures r.Some? <==> |signature| >= 3
    ensures r.Some? ==> r.value == NoLegalChange.(popiaConsent := Some(true), popiaDate := Some(date),
                                                  dataSharingConsent := Some(true))
  {
    if |signature| < 3 then None
    else Some(NoLegalChange.(popiaConsent := Some(true), popiaDate := Some(date), dataSharingConsent := Some(true)))
  }

  /** Signing both documents opens sharing, and leaves every other field as it was. */
  lemma SigningOpensSharing(l: LegalStatus, sig1: string, sig2: string, d1: string, d2: string)
    requires |sig1| >= 3 && |sig2| >= 3
    ensures var after := AppStore.ApplyLegal(AppStore.ApplyLegal(l, IndemnityUpdate(sig1, d1).value), PopiaUpdate(sig2, d2).value);
      && MaySharePatient(after) && after.dataSharingConsent
      && after.indemnityDate == Some(d1) && after.popiaDate == Some(d2)
      && after.identityVerified == l.identityVerified && after.sharingPreferences == l.sharingPreferences
  {
  }

  /** `toggleConsentPref`: one switch flips, and data sharing is on iff any switch is. */
  function ConsentPrefUpdate(l: LegalStatus, key: SharingKey): (r: LegalUpdate)
    ensures r.sharingPreferences.Some? && r.dataSharingConsent.Some?
    ensures r.sharingPreferences.value.Get(key) == !l.sharingPreferences.Get(key)
    ensures forall k :: k != key ==> r.sharingPreferences.value.Get(k) == l.sharingPreferences.Get(k)
    ensures r.dataSharingConsent.value <==> exists k :: r.sharingPreferences.value.Get(k)
    ensures r == NoLegalChange.(sharingPreferences := r.sharingPreferences, dataSharingConsent := r.dataSharingConsent)
  {
    var prefs := l.sharingPreferences.With(key, !l.sharingPreferences.Get(key));
    NoLegalChange.(sharingPreferences := Some(prefs), dataSharingConsent := Some(prefs.AnyEnabled()))
  }

  /** After any switch is toggled, the stored consent agrees with the stored switches;
      switching the last one off turns data sharing off. */
  lemma ConsentFollowsPrefs(l: LegalStatus, key: SharingKey)
    ensures var after := AppStore.ApplyLegal(l, ConsentPrefUpdate(l, key));
      (after.dataSharingConsent <==> after.sharingPreferences.AnyEnabled())
      && after.popiaConsent == l.popiaConsent && after.indemnitySigned == l.indemnitySigned
  {
  }

  /** `maskHpcsa`: empty for a missing or empty number, the number with privacy off, else
      its first seven characters and four bullets. */
  function MaskHpcsa(id: Option<string>, privacyMode: bool): (r: string)
    ensures id.None? || id == Some("") ==> r == ""
    ensures id.Some? && id.value != "" && !privacyMode ==> r == id.value
    ensures id.Some? && id.value != "" && privacyMode ==> r == Text.Prefix(id.value, 7) + Text.Bullets
  {
    if id.None? || id.value == "" then ""
    else if !privacyMode then id.value
    else Text.Prefix(id.value, 7) + Text.Bullets
  }

  /** The record card falls back to 'HPCSA-1234567', so a record without a number shows
      'HPCSA-1' and the bullets under privacy. */
  lemma FallbackNumberMasked()
    ensures MaskHpcsa(Some("HPCSA-1234567"), true) == "HPCSA-1" + Text.Bullets
  {
    assert "HPCSA-1234567"[..7] == "HPCSA-1";
  }

  datatype Tab = RecordsTab | TrustTab

  class RecordsView {
    var tab: Tab
    var sharing: Option<string>
    var showConsentWarning: bool
    var indemnitySignature: string
    var indemnityDate: string
    var popiaSignature: string
    var popiaDate: string

    /** The records tab, nothing shared, empty signatures dated `today`. */
    constructor (today: string)
      ensures tab == RecordsTab && sharing.None? && !showConsentWarning
      ensures indemnitySignature == "" && popiaSignature == "" && indemnityDate == today && popiaDate == today
    {
      tab := RecordsTab;
      sharing := None;
      showConsentWarning := false;
      indemnitySignature := "";
      indemnityDate := today;
      popiaSignature := "";
      popiaDate := today;
    }

    /** `handleShare`: without both signatures the warning shows and the trust tab opens;
        with them the record is marked as being shared. */
    method HandleShare(legal: LegalStatus, id: string)
      modifies this
      ensures !MaySharePatient(legal) ==> showConsentWarning && tab == TrustTab && sharing == old(sharing)
      ensures MaySharePatient(legal) ==>
        sharing == Some(id) && tab == old(tab) && showConsentWarning == old(showConsentWarning)
      ensures indemnitySignature == old(indemnitySignature) && popiaSignature == old(popiaSignature)
      ensures indemnityDate == old(indemnityDate) && popiaDate == old(popiaDate)
    {
      if !legal.indemnitySigned || !legal.popiaConsent {
        showConsentWarning := true;
        tab := TrustTab;
        return;
      }
      sharing := Some(id);
    }

    /** The two-second timer that ends the sharing indicator. */
    method ShareTimerFires()
      modifies this
      ensures sharing.None? && tab == old(tab) && showConsentWarning == old(showConsentWarning)
      ensures indemnitySignature == old(indemnitySignature) && popiaSignature == old(popiaSignature)
      ensures indemnityDate == old(indemnityDate) && popiaDate == old(popiaDate)
    {
      sharing := None;
    }

    method SignIndemnity(store: AppStore.Store)
      modifies store
      ensures IndemnityUpdate(indemnitySignature, indemnityDate).None? ==> store.legalStatus == old(store.legalStatus)
      ensures IndemnityUpdate(indemnitySignature, indemnityDate).Some? ==>
        store.legalStatus == AppStore.ApplyLegal(old(store.legalStatus), IndemnityUpdate(indemnitySignature, indemnityDate).value)
      ensures store.user == old(store.user) && store.nurses == old(store.nurses)
      ensures store.appointments == old(store.appointments) && store.notifications == old(store.notifications)
      ensures store.checkInRecords == old(store.checkInRecords) && store.preferences == old(store.preferences)
    {
      if |indemnitySignature| < 3 {
        return;
      }
      store.UpdateLegalStatus(IndemnityUpdate(indemnitySignature, indemnityDate).value);
    }

    method SignPopia(store: AppStore.Store)
      modifies store
      ensures PopiaUpdate(popiaSignature, popiaDate).None? ==> store.legalStatus == old(store.legalStatus)
      ensures PopiaUpdate(popiaSignature, popiaDate).Some? ==>
        store.legalStatus == AppStore.ApplyLegal(old(store.legalStatus), PopiaUpdate(popiaSignature, popiaDate).value)
      ensures store.user == old(store.user) && store.nurses == old(store.nurses)
      ensures store.appointments == old(store.appointments) && store.notifications == old(store.notifications)
      ensures store.checkInRecords == old(store.checkInRecords) && store.preferences == old(store.preferences)
    {
      if |popiaSignature| < 3 {
        return;
      }
      store.UpdateLegalStatus(PopiaUpdate(popiaSignature, popiaDate).value);
    }

    method ToggleConsentPref(store: AppStore.Store, key: SharingKey)
      modifies store
      ensures store.legalStatus == AppStore.ApplyLegal(old(store.legalStatus), ConsentPrefUpdate(old(store.legalStatus), key))
      ensures store.user == old(store.user) && store.nurses == old(store.nurses)
      ensures store.appointments == old(store.appointments) && store.notifications == old(store.notifications)
      ensures store.checkInRecords == old(store.checkInRecords) && store.preferences == old(store.preferences)
    {
      store.UpdateLegalStatus(ConsentPrefUpdate(store.legalStatus, key));
    }
  }
}
