/**
 * The commitment form (`initCommitForm`): a submitted note is trimmed, an
 * empty one is ignored, any other is put at the head of the list.
 */
module Commits {
  import opened Text
  import opened Dom

  /** What the live region says after a note was accepted. */
  const Submitted: string := "Compromisso enviado."

  /** A note as the list can hold it: not empty, and neither starting nor ending with white space. */
  predicate IsNote(s: string) {
    s != [] && !IsSpace(s[0]) && !IsSpace(s[|s| - 1])
  }

  /** A note put in front of a list of notes gives a list of notes. */
  lemma PrependNote(txt: string, notes: seq<string>)
    requires IsNote(txt)
    requires forall i :: 0 <= i < |notes| ==> IsNote(notes[i])
    ensures forall i :: 0 <= i < |[txt] + notes| ==> IsNote(([txt] + notes)[i])
  {
    assert forall i :: 1 <= i < |[txt] + notes| ==> ([txt] + notes)[i] == notes[i - 1];
  }

  /** The `#commit` input, the `#commit-list` it feeds (newest first) and the live region. */
  class CommitForm {
    var draft: string
    var entries: seq<string>
    const live: LiveRegion?

    ghost predicate Valid()
      reads this
    {
      forall i :: 0 <= i < |entries| ==> IsNote(entries[i])
    }

    constructor (live: LiveRegion?)
      ensures Valid() && draft == "" && entries == [] && this.live == live
    {
      draft, entries := "", [];
      this.live := live;
    }

    /**
     * The `submit` handler. A draft that trims to nothing returns early and
     * changes nothing, not even the input; otherwise the trimmed text is
     * prepended, the form is reset and the live region announces it.
     */
    method Submit()
      requires Valid()
      modifies this, live
      ensures Valid()
      ensures Trim(old(draft)) == [] ==> entries == old(entries) && draft == old(draft)
      ensures Trim(old(draft)) == [] && live != null ==> live.text == old(live.text)
      ensures Trim(old(draft)) != [] ==> entries == [Trim(old(draft))] + old(entries) && draft == ""
      ensures Trim(old(draft)) != [] && live != null ==> live.text == Submitted
    {
      var txt := Trim(draft);
      if txt == [] {
        return;
      }
      PrependNote(txt, entries);
      entries := [txt] + entries;
      draft := "";
      if live != null {
        live.text := Submitted;
      }
    }
  }
}
