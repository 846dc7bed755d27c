/**
 * The checks applied to values read back from browser storage, with storage modelled as a
 * map from key to stored string.
 */
module Persist {
  import opened Wrappers
  import opened Text

  const KeyT1h := "ftt_t1h"
  const KeyT1m := "ftt_t1m"
  const KeyT2h := "ftt_t2h"
  const KeyT2m := "ftt_t2m"
  const KeySeek := "ftt_seek_position"

  /** saveSeekPosition: String(seek) under the seek key. */
  function SaveSeek(store: map<string, string>, seek: int): (r: map<string, string>)
    ensures KeySeek in r && r[KeySeek] == IntToString(seek)
    ensures forall k :: k in store && k != KeySeek ==> k in r && r[k] == store[k]
  {
    store[KeySeek := IntToString(seek)]
  }

  /** loadSeekPosition: a stored position is used only when it parses to a number in [0, maxSec]. */
  function LoadSeek(saved: Option<string>, maxSec: int): (r: Option<int>)
    ensures r.Some? ==> 0 <= r.value <= maxSec
    ensures r.Some? ==> saved.Some? && ParseInt(saved.value, 10) == r
    ensures saved.Some? && ParseInt(saved.value, 10).Some? && 0 <= ParseInt(saved.value, 10).value <= maxSec ==> r.Some?
  {
    if saved.None? then None
    else
      var position := ParseInt(saved.value, 10);
      if position.Some? && 0 <= position.value <= maxSec then position else None
  }

  function Lookup(store: map<string, string>, key: string): Option<string>
  {
    if key in store then Some(store[key]) else None
  }

  /** A position saved while in range is restored exactly. */
  lemma SeekRoundTrip(store: map<string, string>, seek: int, maxSec: int)
    requires 0 <= seek <= maxSec
    ensures LoadSeek(Lookup(SaveSeek(store, seek), KeySeek), maxSec) == Some(seek)
  {
    ParseIntOfString(seek);
  }

  /**
   * Reading the seek key right after saving `seek` gives `seek` back when it is in range and
   * nothing otherwise, whatever the store held; a second save replaces the first.
   */
  lemma SeekReadBack(store: map<string, string>, seek: int, next: int, maxSec: int)
    ensures LoadSeek(Lookup(SaveSeek(store, seek), KeySeek), maxSec)
      == if 0 <= seek <= maxSec then Some(seek) else None
    ensures SaveSeek(SaveSeek(store, seek), next) == SaveSeek(store, next)
  {
    ParseIntOfString(seek);
  }

  /** saveStarts: the four start fields as typed. */
  function SaveStarts(store: map<string, string>, t1h: string, t1m: string, t2h: string, t2m: string): (r: map<string, string>)
    ensures forall k :: k in store ==> k in r
    ensures forall k :: k in store && k !in {KeyT1h, KeyT1m, KeyT2h, KeyT2m} ==> r[k] == store[k]
  {
    store[KeyT1h := t1h][KeyT1m := t1m][KeyT2h := t2h][KeyT2m := t2m]
  }

  /** loadStarts of the main tuner: the four saved fields, only when all four keys are present. */
  function LoadStarts(store: map<string, string>): (r: Option<(string, string, string, string)>)
    ensures r.Some? <==> KeyT1h in store && KeyT1m in store && KeyT2h in store && KeyT2m in store
  {
    if KeyT1h in store && KeyT1m in store && KeyT2h in store && KeyT2m in store then
      Some((store[KeyT1h], store[KeyT1m], store[KeyT2h], store[KeyT2m]))
    else None
  }

  /** Saved start fields load back as they were saved. */
  lemma StartsRoundTrip(store: map<string, string>, t1h: string, t1m: string, t2h: string, t2m: string)
    ensures LoadStarts(SaveStarts(store, t1h, t1m, t2h, t2m)) == Some((t1h, t1m, t2h, t2m))
  {
    var r := SaveStarts(store, t1h, t1m, t2h, t2m);
    assert r[KeyT1h] == t1h;
    assert r[KeyT1m] == t1m;
    assert r[KeyT2h] == t2h;
  }

  /** JavaScript truthiness of a stored value: null and the empty string are false. */
  predicate Truthy(v: Option<string>)
  {
    v.Some? && v.value != ""
  }

  /**
   * The result of the other tuners' loadStarts as written: (a && b && c && d) != null, where
   * `&&` yields the first falsy operand or the last one.
   */
  function HasAllSavedTimesAsWritten(a: Option<string>, b: Option<string>, c: Option<string>, d: Option<string>): bool
  {
    var chain := if !Truthy(a) then a else if !Truthy(b) then b else if !Truthy(c) then c else d;
    chain != None
  }

  /** What the name promises: every one of the four values was stored. */
  function HasAllSavedTimes(a: Option<string>, b: Option<string>, c: Option<string>, d: Option<string>): (r: bool)
    ensures r <==> LoadStarts(StoreOf(a, b, c, d)).Some?
  {
    a.Some? && b.Some? && c.Some? && d.Some?
  }

  /** A storage holding exactly the given start fields. */
  function StoreOf(a: Option<string>, b: Option<string>, c: Option<string>, d: Option<string>): (r: map<string, string>)
    ensures KeyT1h in r <==> a.Some?
    ensures KeyT1m in r <==> b.Some?
    ensures KeyT2h in r <==> c.Some?
    ensures KeyT2m in r <==> d.Some?
  {
    var m1: map<string, string> := if a.Some? then map[KeyT1h := a.value] else map[];
    var m2 := if b.Some? then m1[KeyT1m := b.value] else m1;
    var m3 := if c.Some? then m2[KeyT2h := c.value] else m2;
    if d.Some? then m3[KeyT2m := d.value] else m3
  }

  /** The as-written check agrees with the intended one whenever no stored value is empty. */
  lemma HasAllSavedTimesAgree(a: Option<string>, b: Option<string>, c: Option<string>, d: Option<string>)
    requires a != Some("") && b != Some("") && c != Some("")
    ensures HasAllSavedTimesAsWritten(a, b, c, d) == HasAllSavedTimes(a, b, c, d)
  {
  }

  /** An empty first value short-circuits the chain: it reports all times saved although the rest are missing. */
  lemma HasAllSavedTimesEmptyFirst()
    ensures HasAllSavedTimesAsWritten(Some(""), None, None, None)
    ensures !HasAllSavedTimes(Some(""), None, None, None)
  {
  }
}
