/** The cardset choice of pysol_init and its loading fallback.  The cardset
    manager is its list of cardset names in manager order; a cardset is
    named by its position in that list.  Whether loading a cardset succeeds
    is an oracle `loads`. */
module Cardsets {
  import opened Optional

  /** `app.opt.cardset[0]` when present: the saved cardset name and card back. */
  datatype Saved = Saved(name: string, back: string)

  /** The cardset picked before loading, and the card back to switch it to. */
  datatype CardsetChoice = NoCardset | Picked(index: nat, back: Option<string>)

  /** `getByName`: the first cardset in manager order with that name. */
  function IndexOfName(names: seq<string>, name: string): (r: Option<nat>)
    ensures r.Some? ==> r.value < |names| && names[r.value] == name
    ensures r.Some? ==> forall j :: 0 <= j < r.value ==> names[j] != name
    ensures r.None? <==> name !in names
    decreases |names|
  {
    if names == [] then None
    else if names[0] == name then Some(0)
    else match IndexOfName(names[1..], name)
      case None => None
      case Some(i) => Some(i + 1)
  }

  /** The saved cardset when the manager knows its name, else the first one;
      the saved back is applied only to a cardset found by name, and only
      when it is non-empty. */
  function ChooseCardset(saved: Option<Saved>, names: seq<string>): (r: CardsetChoice)
    ensures r.NoCardset? <==> |names| == 0
    ensures r.Picked? ==> r.index < |names|
    ensures r.Picked? && saved.Some? && saved.value.name in names ==>
      names[r.index] == saved.value.name &&
      (forall j :: 0 <= j < r.index ==> names[j] != saved.value.name)
    ensures r.Picked? && (saved.None? || saved.value.name !in names) ==> r == Picked(0, None)
    ensures r.Picked? && r.back.Some? <==>
      r.Picked? && saved.Some? && saved.value.name in names && saved.value.back != ""
    ensures r.Picked? && r.back.Some? ==> r.back.value == saved.value.back
  {
    var byName := if saved.Some? then IndexOfName(names, saved.value.name) else None;
    if byName.Some? then
      Picked(byName.value, if saved.value.back != "" then Some(saved.value.back) else None)
    else if |names| == 0 then NoCardset
    else Picked(0, None)
  }

  /** The first cardset in manager order, at or after `from`, that loads. */
  function FirstLoadable(from: nat, n: nat, loads: nat -> bool): (r: Option<nat>)
    requires from <= n
    ensures r.Some? ==> from <= r.value < n && loads(r.value)
    ensures r.Some? ==> forall j :: from <= j < r.value ==> !loads(j)
    ensures r.None? <==> forall j :: from <= j < n ==> !loads(j)
    decreases n - from
  {
    if from == n then None
    else if loads(from) then Some(from)
    else FirstLoadable(from + 1, n, loads)
  }

  /** The cardset that ends up loaded: the chosen one, else the first in
      manager order that loads, else none. */
  function Loaded(chosen: nat, n: nat, loads: nat -> bool): (r: Option<nat>)
    requires chosen < n
    ensures r.Some? ==> r.value < n && loads(r.value)
    ensures loads(chosen) ==> r == Some(chosen)
    ensures !loads(chosen) && r.Some? ==> forall j :: 0 <= j < r.value ==> !loads(j)
    ensures r.None? <==> forall j :: 0 <= j < n ==> !loads(j)
  {
    if loads(chosen) then Some(chosen) else FirstLoadable(0, n, loads)
  }

  /** The `for ... else` loop that retries every cardset after the chosen one fails. */
  method LoadCardset(chosen: nat, n: nat, loads: nat -> bool) returns (r: Option<nat>)
    requires chosen < n
    ensures r == Loaded(chosen, n, loads)
  {
    if loads(chosen) {
      return Some(chosen);
    }
    var i := 0;
    while i < n
      invariant 0 <= i <= n
      invariant forall j :: 0 <= j < i ==> !loads(j)
    {
      if loads(i) {
        return Some(i);
      }
      i := i + 1;
    }
    return None;
  }
}
