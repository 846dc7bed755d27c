/**
 * The note attached to a bookmark: the team chosen in the dropdown and the typed note,
 * joined as "team - note" when both are present.
 */
module Notes {
  import opened Wrappers
  import opened Text
  import opened Bookmarks

  /** The combined note text: "team - note", the team alone, or the trimmed note alone. */
  function CombinedText(dropdown: string, rawNote: string): (r: string)
    ensures r == "" <==> dropdown == "" && Trim(rawNote) == ""
    ensures dropdown == "" ==> r == Trim(rawNote)
    ensures dropdown != "" ==> |r| >= |dropdown| && r[..|dropdown|] == dropdown
    ensures dropdown != "" && Trim(rawNote) != "" ==>
      |r| == |dropdown| + 3 + |Trim(rawNote)| && r[|r| - |Trim(rawNote)|..] == Trim(rawNote)
  {
    var note := Trim(rawNote);
    if dropdown != "" && note != "" then dropdown + " - " + note
    else if dropdown != "" then dropdown
    else note
  }

  /**
   * getCombinedNote of the main tuner: the combined text, tagged with the team colour and
   * name when the chosen option carries a (non-empty) colour and the dropdown is set.
   */
  function CombinedNote(dropdown: string, rawNote: string, teamColor: Option<string>): (n: NoteInput)
    ensures n.text == CombinedText(dropdown, rawNote)
    ensures n.Tagged? <==> teamColor.Some? && teamColor.value != "" && dropdown != ""
    ensures n.Tagged? ==> n.teamName == dropdown && n.teamColor == teamColor.value
  {
    var text := CombinedText(dropdown, rawNote);
    if teamColor.Some? && teamColor.value != "" && dropdown != "" then
      Tagged(text, teamColor.value, dropdown)
    else
      Plain(text)
  }

  /** When the team name has no surrounding white space, neither has the combined text. */
  lemma CombinedTextTrimmed(dropdown: string, rawNote: string)
    requires Trim(dropdown) == dropdown
    ensures Trim(CombinedText(dropdown, rawNote)) == CombinedText(dropdown, rawNote)
  {
    var note := Trim(rawNote);
    var r := CombinedText(dropdown, rawNote);
    TrimFixedPoint(dropdown);
    TrimIdempotent(rawNote);
    TrimFixedPoint(note);
    if dropdown != "" && note != "" {
      assert r[0] == dropdown[0];
      assert r[|r| - 1] == note[|note| - 1];
    }
    TrimFixedPoint(r);
  }

  /**
   * What the stored bookmark holds after a save in the main tuner: the combined text as its
   * note, and the dropdown's team exactly when the note was tagged.
   */
  lemma StoredNote(id: int, time: int, kind: EventKind, dropdown: string, rawNote: string,
                   teamColor: Option<string>, created: string)
    requires Trim(dropdown) == dropdown
    ensures var b := NewBookmark(id, time, kind, CombinedNote(dropdown, rawNote, teamColor), created);
      b.note == CombinedText(dropdown, rawNote)
      && (b.teamName.Some? <==> teamColor.Some? && teamColor.value != "" && dropdown != "")
      && (b.teamName.Some? ==> b.teamName.value == dropdown && b.teamColor == teamColor)
  {
    CombinedTextTrimmed(dropdown, rawNote);
  }

  /**
   * The other tuners pass the combined text (or the raw note) as a plain string, which
   * addBookmark trims: when the team name is trimmed that is the combined text unchanged.
   */
  lemma StoredPlainNote(id: int, time: int, kind: EventKind, dropdown: string, rawNote: string, created: string)
    requires Trim(dropdown) == dropdown
    ensures NewBookmark(id, time, kind, Plain(CombinedText(dropdown, rawNote)), created).note == CombinedText(dropdown, rawNote)
  {
    CombinedTextTrimmed(dropdown, rawNote);
  }
}
