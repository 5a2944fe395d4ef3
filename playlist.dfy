/** The background-music playlist order of pysol_init: the first track named
    `bye_for_now`, ignoring case, moves to the front.  Shuffling happens
    before this and is not part of this model; the playlist is taken in
    whatever order it arrives. */
module Playlist {
  import opened Optional

  /** A music track, as far as the reordering looks at it. */
  datatype Track = Track(name: string)

  /** `str.lower()` on a byte string: only 'A'..'Z' change. */
  function Lower(s: string): (r: string)
    ensures |r| == |s|
    ensures forall i :: 0 <= i < |s| ==>
      r[i] == if 'A' <= s[i] <= 'Z' then (s[i] as int + 32) as char else s[i]
  {
    seq(|s|, i requires 0 <= i < |s| => if 'A' <= s[i] <= 'Z' then (s[i] as int + 32) as char else s[i])
  }

  predicate IsByeForNow(t: Track) {
    Lower(t.name) == "bye_for_now"
  }

  /** The position of the first `bye_for_now` track. */
  function FirstByeForNow(s: seq<Track>): (r: Option<nat>)
    ensures r.Some? ==> r.value < |s| && IsByeForNow(s[r.value])
    ensures r.Some? ==> forall j :: 0 <= j < r.value ==> !IsByeForNow(s[j])
    ensures r.None? <==> forall j :: 0 <= j < |s| ==> !IsByeForNow(s[j])
    decreases |s|
  {
    if s == [] then None
    else if IsByeForNow(s[0]) then Some(0)
    else match FirstByeForNow(s[1..])
      case None => None
      case Some(i) => Some(i + 1)
  }

  /** The sequence with position `i` taken out (`list.remove`). */
  function Without(s: seq<Track>, i: nat): (r: seq<Track>)
    requires i < |s|
    ensures |r| == |s| - 1
    ensures forall j :: 0 <= j < i ==> r[j] == s[j]
    ensures forall j :: i <= j < |r| ==> r[j] == s[j + 1]
  {
    s[..i] + s[i + 1..]
  }

  /** The playlist after the reordering. */
  function ByeForNowFirst(s: seq<Track>): (r: seq<Track>)
    ensures |r| == |s| && multiset(r) == multiset(s)
    ensures FirstByeForNow(s).None? ==> r == s
    ensures FirstByeForNow(s).Some? ==>
      r[0] == s[FirstByeForNow(s).value] && r[1..] == Without(s, FirstByeForNow(s).value)
  {
    match FirstByeForNow(s)
    case None => s
    case Some(i) =>
      assert s == s[..i] + [s[i]] + s[i + 1..];
      [s[i]] + Without(s, i)
  }

  /** The reordering is idempotent: a second pass finds the moved track at
      the front and changes nothing. */
  lemma ReorderIdempotent(s: seq<Track>)
    ensures ByeForNowFirst(ByeForNowFirst(s)) == ByeForNowFirst(s)
  {
  }

  /** The name test accepts exactly the eleven-character names that spell
      bye_for_now with each letter in either case. */
  lemma CaseInsensitive(s: string)
    ensures IsByeForNow(Track(s)) <==>
      |s| == 11 && forall i :: 0 <= i < 11 ==> s[i] == "bye_for_now"[i] || s[i] == "BYE_FOR_NOW"[i]
  {
    var target := "bye_for_now";
    if IsByeForNow(Track(s)) {
      forall i | 0 <= i < 11
        ensures s[i] == target[i] || s[i] == "BYE_FOR_NOW"[i]
      {
        assert Lower(s)[i] == target[i];
      }
    }
    if |s| == 11 && forall i :: 0 <= i < 11 ==> s[i] == target[i] || s[i] == "BYE_FOR_NOW"[i] {
      assert forall i :: 0 <= i < 11 ==> Lower(s)[i] == target[i];
    }
  }
}
