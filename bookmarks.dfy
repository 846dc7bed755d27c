/**
 * The bookmark store: a list of timed match events kept in time order. Adding pushes a new
 * record and re-sorts by time with a stable sort; removing filters by id; saving at the
 * playhead overwrites, after confirmation, the first bookmark within five seconds.
 */
module Bookmarks {
  import opened Wrappers
  import opened Text

  datatype EventKind = Yellow | SecondYellow | Red | Penalty | Goal | Substitution | Important | Custom

  /** The note handed to addBookmark: a plain string, or the text tagged with the team it names. */
  datatype NoteInput = Plain(text: string) | Tagged(text: string, teamColor: string, teamName: string)

  datatype Bookmark = Bookmark(
    id: int, time: int, kind: EventKind, note: string,
    teamColor: Option<string>, teamName: Option<string>, created: string)

  /**
   * The record addBookmark builds: a tagged note with non-empty text keeps its text and team,
   * a plain note is trimmed, and anything else is stored as an empty note.
   */
  function NewBookmark(id: int, time: int, kind: EventKind, note: NoteInput, created: string): (b: Bookmark)
    ensures b.id == id && b.time == time && b.kind == kind && b.created == created
    ensures note.Plain? ==> b.note == Trim(note.text) && Trim(b.note) == b.note
    ensures note.Tagged? && note.text != "" ==>
      b.note == note.text && b.teamColor == Some(note.teamColor) && b.teamName == Some(note.teamName)
    ensures note.Tagged? && note.text == "" ==> b.note == ""
    ensures !(note.Tagged? && note.text != "") ==> b.teamColor.None? && b.teamName.None?
  {
    TrimIdempotent(note.text);
    if note.Tagged? && note.text != "" then
      Bookmark(id, time, kind, note.text, Some(note.teamColor), Some(note.teamName), created)
    else if note.Plain? then
      Bookmark(id, time, kind, Trim(note.text), None, None, created)
    else
      Bookmark(id, time, kind, "", None, None, created)
  }

  ghost predicate Sorted(s: seq<Bookmark>)
  {
    forall i, j :: 0 <= i < j < |s| ==> s[i].time <= s[j].time
  }

  ghost predicate DistinctIds(s: seq<Bookmark>)
  {
    forall i, j :: 0 <= i < j < |s| ==> s[i].id != s[j].id
  }

  /** The bookmarks at time `t`, in list order. */
  function AtTime(s: seq<Bookmark>, t: int): seq<Bookmark>
  {
    if s == [] then []
    else AtTime(s[..|s| - 1], t) + (if s[|s| - 1].time == t then [s[|s| - 1]] else [])
  }

  /** Puts `x` after the last bookmark whose time is not later than x's. */
  function Insert(xs: seq<Bookmark>, x: Bookmark): seq<Bookmark>
  {
    if xs == [] then [x]
    else if xs[|xs| - 1].time <= x.time then xs + [x]
    else Insert(xs[..|xs| - 1], x) + [xs[|xs| - 1]]
  }

  /** Where Insert puts `x`. */
  function InsertIndex(xs: seq<Bookmark>, x: Bookmark): (k: nat)
    ensures k <= |xs|
  {
    if xs == [] then 0
    else if xs[|xs| - 1].time <= x.time then |xs|
    else InsertIndex(xs[..|xs| - 1], x)
  }

  /** Array.prototype.sort by time: a stable sort, written as insertion sort. */
  function StableSort(s: seq<Bookmark>): seq<Bookmark>
  {
    if s == [] then [] else Insert(StableSort(s[..|s| - 1]), s[|s| - 1])
  }

  /** In a sorted list, `x` lands after every bookmark not later than it and before every later one. */
  lemma {:induction false} InsertPlacement(xs: seq<Bookmark>, x: Bookmark)
    requires Sorted(xs)
    ensures var k := InsertIndex(xs, x);
      Insert(xs, x) == xs[..k] + [x] + xs[k..]
      && (forall i :: 0 <= i < k ==> xs[i].time <= x.time)
      && (forall i :: k <= i < |xs| ==> xs[i].time > x.time)
  {
    if xs != [] && xs[|xs| - 1].time > x.time {
      var init := xs[..|xs| - 1];
      InsertPlacement(init, x);
      var k := InsertIndex(init, x);
      assert xs[..k] == init[..k];
      assert xs[k..] == init[k..] + [xs[|xs| - 1]];
    }
  }

  /** Inserting adds exactly `x` to the list. */
  lemma {:induction false} InsertMultiset(xs: seq<Bookmark>, x: Bookmark)
    ensures multiset(Insert(xs, x)) == multiset(xs) + multiset{x}
  {
    if xs != [] && xs[|xs| - 1].time > x.time {
      var init := xs[..|xs| - 1];
      assert xs == init + [xs[|xs| - 1]];
      InsertMultiset(init, x);
    }
  }

  /** Inserting into a sorted list keeps it sorted. */
  lemma {:induction false} InsertSorted(xs: seq<Bookmark>, x: Bookmark)
    requires Sorted(xs)
    ensures Sorted(Insert(xs, x))
  {
    if xs != [] && xs[|xs| - 1].time > x.time {
      var init, last := xs[..|xs| - 1], xs[|xs| - 1];
      InsertSorted(init, x);
      InsertBound(init, x, last.time);
      assert Insert(xs, x) == Insert(init, x) + [last];
      SortedSnoc(Insert(init, x), last);
    }
  }

  /** A sorted list stays sorted when a bookmark not earlier than all of it is appended. */
  lemma SortedSnoc(r: seq<Bookmark>, last: Bookmark)
    requires Sorted(r)
    requires forall i :: 0 <= i < |r| ==> r[i].time <= last.time
    ensures Sorted(r + [last])
  {
    forall i, j | 0 <= i < j < |r + [last]|
      ensures (r + [last])[i].time <= (r + [last])[j].time
    {
      if j == |r| {
        assert (r + [last])[i] == r[i];
      } else {
        assert (r + [last])[i] == r[i] && (r + [last])[j] == r[j];
      }
    }
  }

  /** Inserting into a list whose times are at most `m` a bookmark not later than `m` keeps every time at most `m`. */
  lemma {:induction false} InsertBound(xs: seq<Bookmark>, x: Bookmark, m: int)
    requires forall i :: 0 <= i < |xs| ==> xs[i].time <= m
    requires x.time <= m
    ensures forall i :: 0 <= i < |Insert(xs, x)| ==> Insert(xs, x)[i].time <= m
  {
    if xs != [] && xs[|xs| - 1].time > x.time {
      var init := xs[..|xs| - 1];
      assert forall i :: 0 <= i < |init| ==> init[i] == xs[i];
      InsertBound(init, x, m);
      var r := Insert(init, x);
      assert Insert(xs, x) == r + [xs[|xs| - 1]];
      forall i | 0 <= i < |Insert(xs, x)| ensures Insert(xs, x)[i].time <= m {
        if i < |r| {
          assert Insert(xs, x)[i] == r[i];
        }
      }
    }
  }

  /** Inserting puts `x` after the bookmarks of equal time. */
  lemma {:induction false} InsertAtTime(xs: seq<Bookmark>, x: Bookmark, t: int)
    ensures AtTime(Insert(xs, x), t) == AtTime(xs, t) + (if x.time == t then [x] else [])
  {
    if xs == [] {
      AtTimeSnoc([], x, t);
      assert [] + [x] == [x];
    } else if xs[|xs| - 1].time <= x.time {
      AtTimeSnoc(xs, x, t);
    } else {
      var init, last := xs[..|xs| - 1], xs[|xs| - 1];
      var a := AtTime(init, t);
      var mid: seq<Bookmark> := if x.time == t then [x] else [];
      var tail: seq<Bookmark> := if last.time == t then [last] else [];
      assert Insert(xs, x) == Insert(init, x) + [last];
      InsertAtTime(init, x, t);
      AtTimeSnoc(Insert(init, x), last, t);
      assert xs == init + [last];
      AtTimeSnoc(init, last, t);
      if x.time == t {
        assert tail == [];
        assert (a + mid) + tail == a + mid && a + tail == a;
      } else {
        assert mid == [];
        assert (a + mid) + tail == a + tail && (a + tail) + mid == a + tail;
      }
    }
  }

  /** Appending one bookmark adds it to the filter exactly when it is at time `t`. */
  lemma AtTimeSnoc(s: seq<Bookmark>, y: Bookmark, t: int)
    ensures AtTime(s + [y], t) == AtTime(s, t) + (if y.time == t then [y] else [])
  {
    assert (s + [y])[..|s|] == s;
  }

  /** The sort's result is ordered by time, holds the same bookmarks, and keeps equal-time bookmarks in their original order. */
  lemma {:induction false} StableSortSpec(s: seq<Bookmark>)
    ensures Sorted(StableSort(s))
    ensures multiset(StableSort(s)) == multiset(s)
    ensures forall t :: AtTime(StableSort(s), t) == AtTime(s, t)
  {
    if s != [] {
      var init := s[..|s| - 1];
      assert s == init + [s[|s| - 1]];
      StableSortSpec(init);
      InsertSorted(StableSort(init), s[|s| - 1]);
      InsertMultiset(StableSort(init), s[|s| - 1]);
      forall t ensures AtTime(StableSort(s), t) == AtTime(s, t) {
        InsertAtTime(StableSort(init), s[|s| - 1], t);
      }
    }
  }

  /** Sorting a list that is already in time order changes nothing. */
  lemma {:induction false} StableSortOfSorted(s: seq<Bookmark>)
    requires Sorted(s)
    ensures StableSort(s) == s
  {
    if s != [] {
      var init := s[..|s| - 1];
      StableSortOfSorted(init);
      if init != [] {
        assert init[|init| - 1].time <= s[|s| - 1].time;
      }
      assert init + [s[|s| - 1]] == s;
    }
  }

  /** Push-then-sort on a sorted list is a single insertion after every bookmark not later than the new one. */
  lemma AddToSorted(s: seq<Bookmark>, b: Bookmark)
    requires Sorted(s)
    ensures StableSort(s + [b]) == Insert(s, b)
  {
    assert (s + [b])[..|s|] == s;
    StableSortOfSorted(s);
  }

  /** bookmarks.filter(b => b.id !== id). */
  function RemoveId(s: seq<Bookmark>, id: int): seq<Bookmark>
  {
    if s == [] then []
    else RemoveId(s[..|s| - 1], id) + (if s[|s| - 1].id != id then [s[|s| - 1]] else [])
  }

  /** `r` is `s` with some entries left out and the rest in the same order. */
  ghost predicate Subsequence(r: seq<Bookmark>, s: seq<Bookmark>)
    decreases |s|
  {
    if r == [] then true
    else if s == [] then false
    else if r[|r| - 1] == s[|s| - 1] then Subsequence(r[..|r| - 1], s[..|s| - 1])
    else Subsequence(r, s[..|s| - 1])
  }

  /** Removing by id drops exactly the bookmarks with that id and keeps the others in order. */
  lemma {:induction false} RemoveIdSpec(s: seq<Bookmark>, id: int)
    ensures forall b :: b in RemoveId(s, id) <==> b in s && b.id != id
    ensures Subsequence(RemoveId(s, id), s)
    ensures forall b :: multiset(RemoveId(s, id))[b] == if b.id == id then 0 else multiset(s)[b]
  {
    if s != [] {
      var init, last := s[..|s| - 1], s[|s| - 1];
      assert s == init + [last];
      RemoveIdSpec(init, id);
      var r := RemoveId(s, id);
      assert multiset(s) == multiset(init) + multiset{last};
      if last.id != id {
        assert multiset(r) == multiset(RemoveId(init, id)) + multiset{last};
        assert r[..|r| - 1] == RemoveId(init, id);
        assert r[|r| - 1] == last;
        assert Subsequence(r[..|r| - 1], init);
      } else if r != [] {
        assert r == RemoveId(init, id);
        assert multiset(r) == multiset(RemoveId(init, id));
        assert r[|r| - 1] in r;
        assert r[|r| - 1] != last;
        assert Subsequence(r, init);
      }
    }
  }

  /** A subsequence of a sorted list is sorted. */
  lemma {:induction false} SubsequenceSorted(r: seq<Bookmark>, s: seq<Bookmark>)
    requires Subsequence(r, s) && Sorted(s)
    ensures Sorted(r)
    ensures forall b :: b in r ==> b in s
    decreases |s|
  {
    if r != [] {
      var sInit := s[..|s| - 1];
      if r[|r| - 1] == s[|s| - 1] {
        var rInit := r[..|r| - 1];
        SubsequenceSorted(rInit, sInit);
        assert r == rInit + [s[|s| - 1]];
        forall i | 0 <= i < |rInit| ensures rInit[i].time <= s[|s| - 1].time {
          assert rInit[i] in sInit;
        }
      } else {
        SubsequenceSorted(r, sInit);
      }
    }
  }

  /** Removing an id no bookmark carries changes nothing. */
  lemma {:induction false} RemoveAbsentId(s: seq<Bookmark>, id: int)
    requires forall i :: 0 <= i < |s| ==> s[i].id != id
    ensures RemoveId(s, id) == s
  {
    if s != [] {
      var init := s[..|s| - 1];
      assert forall i :: 0 <= i < |init| ==> init[i] == s[i];
      RemoveAbsentId(init, id);
      assert init + [s[|s| - 1]] == s;
    }
  }

  /** With distinct ids, removing the id of a stored bookmark shortens the list by one. */
  lemma {:induction false} RemovePresentId(s: seq<Bookmark>, id: int)
    requires DistinctIds(s)
    requires exists b :: b in s && b.id == id
    ensures |RemoveId(s, id)| == |s| - 1
  {
    var init, last := s[..|s| - 1], s[|s| - 1];
    assert s == init + [last];
    if last.id == id {
      forall i | 0 <= i < |init| ensures init[i].id != id {
        assert s[i] == init[i];
      }
      RemoveAbsentId(init, id);
    } else {
      var b :| b in s && b.id == id;
      assert b in init;
      RemovePresentId(init, id);
    }
  }

  /** The duplicate window: Math.abs(b.time - t) <= 5. */
  predicate Near(b: Bookmark, t: int)
  {
    -5 <= b.time - t <= 5
  }

  /** The index of the first bookmark within five seconds of `t`, or |s| when there is none. */
  function NearIndex(s: seq<Bookmark>, t: int): (i: nat)
    ensures i <= |s|
    ensures i < |s| ==> Near(s[i], t)
    ensures forall j :: 0 <= j < i ==> !Near(s[j], t)
  {
    if s == [] then 0 else if Near(s[0], t) then 0 else 1 + NearIndex(s[1..], t)
  }

  /** bookmarks.find(b => Math.abs(b.time - t) <= 5). */
  function FindNear(s: seq<Bookmark>, t: int): (r: Option<Bookmark>)
    ensures r.Some? ==> r.value in s && Near(r.value, t)
    ensures r.None? <==> forall b :: b in s ==> !Near(b, t)
    ensures r.Some? ==> exists i :: 0 <= i < |s| && s[i] == r.value && forall j :: 0 <= j < i ==> !Near(s[j], t)
  {
    var i := NearIndex(s, t);
    if i < |s| then Some(s[i]) else None
  }

  /** The list after the save handler ran with a new bookmark `b` at the playhead. */
  function AfterSave(s: seq<Bookmark>, b: Bookmark, confirmOverwrite: bool): seq<Bookmark>
  {
    match FindNear(s, b.time)
    case None => StableSort(s + [b])
    case Some(existing) => if confirmOverwrite then StableSort(RemoveId(s, existing.id) + [b]) else s
  }

  /**
   * Saving adds one bookmark when nothing is near; replaces the near one (the list keeps its
   * length when ids are distinct) when the overwrite is confirmed; changes nothing when it is
   * declined. A saved list is in time order and holds the new bookmark.
   */
  lemma SaveSpec(s: seq<Bookmark>, b: Bookmark, confirmOverwrite: bool)
    ensures FindNear(s, b.time).None? ==> |AfterSave(s, b, confirmOverwrite)| == |s| + 1
    ensures FindNear(s, b.time).Some? && !confirmOverwrite ==> AfterSave(s, b, confirmOverwrite) == s
    ensures FindNear(s, b.time).Some? && confirmOverwrite && DistinctIds(s) ==> |AfterSave(s, b, confirmOverwrite)| == |s|
    ensures FindNear(s, b.time).None? || confirmOverwrite ==>
      Sorted(AfterSave(s, b, confirmOverwrite)) && b in AfterSave(s, b, confirmOverwrite)
  {
    match FindNear(s, b.time)
    case None =>
      StableSortSpec(s + [b]);
      assert |multiset(StableSort(s + [b]))| == |s| + 1;
      assert b in multiset(s + [b]);
    case Some(existing) =>
      if confirmOverwrite {
        var rest := RemoveId(s, existing.id);
        StableSortSpec(rest + [b]);
        assert |multiset(StableSort(rest + [b]))| == |rest| + 1;
        assert b in multiset(rest + [b]);
        if DistinctIds(s) {
          RemovePresentId(s, existing.id);
        }
      }
  }

  datatype ClearOutcome = NothingToClear | Cleared | Kept
  datatype SaveOutcome = NoKindSelected | Declined | Saved

  class BookmarkStore {
    var items: seq<Bookmark>

    /** The list loaded from storage. */
    constructor (saved: seq<Bookmark>)
      ensures items == saved
    {
      items := saved;
    }

    /** addBookmark: push the new record, then sort the whole list by time. */
    method Add(time: int, kind: EventKind, note: NoteInput, nowMs: int, created: string)
      modifies this
      ensures items == StableSort(old(items) + [NewBookmark(nowMs, time, kind, note, created)])
    {
      items := items + [NewBookmark(nowMs, time, kind, note, created)];
      items := StableSort(items);
    }

    /** removeBookmark. */
    method Remove(id: int)
      modifies this
      ensures items == RemoveId(old(items), id)
    {
      items := RemoveId(items, id);
    }

    /** deleteBookmark: remove only when the user confirms. */
    method Delete(id: int, confirmed: bool)
      modifies this
      ensures items == (if confirmed then RemoveId(old(items), id) else old(items))
    {
      if confirmed {
        Remove(id);
      }
    }

    /** clearAllBookmarks: an empty list only gets a warning; otherwise the list empties when confirmed. */
    method Clear(confirmed: bool) returns (outcome: ClearOutcome)
      modifies this
      ensures old(items) == [] ==> outcome == NothingToClear && items == []
      ensures old(items) != [] && confirmed ==> outcome == Cleared && items == []
      ensures old(items) != [] && !confirmed ==> outcome == Kept && items == old(items)
    {
      if items == [] {
        return NothingToClear;
      }
      if confirmed {
        items := [];
        return Cleared;
      }
      return Kept;
    }

    /**
     * The save button: without a chosen event type nothing happens; a bookmark within five
     * seconds of the playhead is replaced when the user confirms and kept (nothing saved) when
     * the user declines; then the new bookmark is added.
     */
    method Save(seek: int, kind: Option<EventKind>, note: NoteInput, nowMs: int, created: string, confirmOverwrite: bool)
      returns (outcome: SaveOutcome)
      modifies this
      ensures kind.None? ==> outcome == NoKindSelected && items == old(items)
      ensures kind.Some? ==>
        items == AfterSave(old(items), NewBookmark(nowMs, seek, kind.value, note, created), confirmOverwrite)
      ensures kind.Some? ==>
        outcome == (if FindNear(old(items), seek).Some? && !confirmOverwrite then Declined else Saved)
    {
      if kind.None? {
        return NoKindSelected;
      }
      var existing := FindNear(items, seek);
      if existing.Some? {
        if !confirmOverwrite {
          return Declined;
        }
        Remove(existing.value.id);
      }
      Add(seek, kind.value, note, nowMs, created);
      return Saved;
    }
  }
}
