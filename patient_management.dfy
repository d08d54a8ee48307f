/** The patient registry's redaction: a set of revealed patient ids held by the view, and
    the name and id masks that apply while privacy mode is on. */
module PatientManagement {
  import opened Wrappers
  import Text

  /** `toggleReveal` on the set: the id goes in if absent and out if present. */
  function ToggleReveal(revealed: set<string>, id: string): (r: set<string>)
    ensures id in r <==> id !in revealed
    ensures forall x :: x != id ==> (x in r <==> x in revealed)
  {
    if id in revealed then revealed - {id} else revealed + {id}
  }

  lemma ToggleRevealTwice(revealed: set<string>, id: string)
    ensures ToggleReveal(ToggleReveal(revealed, id), id) == revealed
  {
  }

  /** The first character of a word, when it has one; `p[0]` is undefined otherwise. */
  function Initial(p: string): Option<char> {
    if p == "" then None else Some(p[0])
  }

  /** One word under the mask: its first character and four bullets, where an empty word
      (from a doubled or an outer space) prints as 'undefined'. */
  function MaskWord(p: string): (r: string)
    ensures p == "" ==> r == "undefined" + Text.Bullets
    ensures p != "" ==> r == [p[0]] + Text.Bullets
  {
    (if p == "" then "undefined" else [p[0]]) + Text.Bullets
  }

  /** Two words mask alike exactly when they start alike. */
  lemma MaskWordInjective(p: string, q: string)
    ensures MaskWord(p) == MaskWord(q) <==> Initial(p) == Initial(q)
  {
    if MaskWord(p) == MaskWord(q) && p != "" && q != "" {
      assert MaskWord(p)[0] == p[0] && MaskWord(q)[0] == q[0];
    }
  }

  function MaskWords(parts: seq<string>): (r: seq<string>)
    ensures |r| == |parts|
    ensures forall i :: 0 <= i < |parts| ==> r[i] == MaskWord(parts[i])
  {
    if parts == [] then [] else [MaskWord(parts[0])] + MaskWords(parts[1..])
  }

  /** `maskName`: the name itself with privacy off or the patient revealed; otherwise each
      space-separated word masked and joined with single spaces. */
  function MaskName(name: string, id: string, privacyMode: bool, revealed: set<string>): string {
    if !privacyMode || id in revealed then name
    else Text.Join(MaskWords(Text.Split(name, ' ')), " ")
  }

  /** `maskId`: the shown id under the same condition, else a fixed mask. */
  function MaskId(shown: string, internalId: string, privacyMode: bool, revealed: set<string>): (r: string)
    ensures !privacyMode || internalId in revealed ==> r == shown
    ensures privacyMode && internalId !in revealed ==> r == "KH-" + Text.Bullets
  {
    if !privacyMode || internalId in revealed then shown else "KH-" + Text.Bullets
  }

  /** Revealing a patient, or turning privacy off, shows the real name and id. */
  lemma RevealShowsName(name: string, shown: string, id: string, revealed: set<string>)
    requires id !in revealed
    ensures MaskName(name, id, true, ToggleReveal(revealed, id)) == name
    ensures MaskId(shown, id, true, ToggleReveal(revealed, id)) == shown
    ensures MaskName(name, id, false, revealed) == name
  {
  }

  /** Words that start alike mask alike, so two masked lists with the same word count and
      the same initials are equal. */
  lemma MaskWordsByInitials(a: seq<string>, b: seq<string>)
    requires |a| == |b|
    ensures (forall i :: 0 <= i < |a| ==> Initial(a[i]) == Initial(b[i])) <==> MaskWords(a) == MaskWords(b)
  {
    if forall i :: 0 <= i < |a| ==> Initial(a[i]) == Initial(b[i]) {
      forall i | 0 <= i < |a| ensures MaskWords(a)[i] == MaskWords(b)[i] {
        MaskWordInjective(a[i], b[i]);
      }
    }
    if MaskWords(a) == MaskWords(b) {
      forall i | 0 <= i < |a| ensures Initial(a[i]) == Initial(b[i]) {
        assert MaskWords(a)[i] == MaskWords(b)[i];
        MaskWordInjective(a[i], b[i]);
      }
    }
  }

  /** Under the mask a name leaks only its word count and initials: two hidden names with
      as many words and the same initials are displayed identically. */
  lemma MaskedNameLeaksOnlyInitials(n1: string, n2: string, id1: string, id2: string, revealed: set<string>)
    requires id1 !in revealed && id2 !in revealed
    requires |Text.Split(n1, ' ')| == |Text.Split(n2, ' ')|
    requires forall i :: 0 <= i < |Text.Split(n1, ' ')| ==> Initial(Text.Split(n1, ' ')[i]) == Initial(Text.Split(n2, ' ')[i])
    ensures MaskName(n1, id1, true, revealed) == MaskName(n2, id2, true, revealed)
  {
    MaskWordsByInitials(Text.Split(n1, ' '), Text.Split(n2, ' '));
  }

  /** The registry's view state. */
  class RevealState {
    var revealedIds: set<string>

    constructor ()
      ensures revealedIds == {}
    {
      revealedIds := {};
    }

    method Toggle(id: string)
      modifies this
      ensures revealedIds == ToggleReveal(old(revealedIds), id)
    {
      var next := revealedIds;
      if id in next {
        next := next - {id};
      } else {
        next := next + {id};
      }
      revealedIds := next;
    }
  }
}
