/**
 * Model tagging (`detecter_modele`): the first entry of the fixed product list
 * that occurs, ignoring case, in an article title; the catch-all label otherwise.
 */
module Tagger {
  import opened Wrappers
  import opened Strings

  /** The product names, in the order they are tried. */
  const Models: seq<string> := ["DS N4", "DS N8", "DS7", "DS3", "DS9", "DS4", "Jules Verne"]

  /** The label of a title that names none of the products. */
  const Global: string := "DS Global"

  /** Entry `i` of the list occurs in `title`, ignoring case. */
  predicate Mentions(title: string, i: nat)
    requires i < |Models|
  {
    Contains(Lower(title), Lower(Models[i]))
  }

  /**
   * The loop of `detecter_modele` from entry `i` on: the index of the first
   * entry that occurs in `title`, or None when none of them does.
   */
  function FirstMention(title: string, i: nat): (r: Option<nat>)
    requires i <= |Models|
    ensures r.Some? ==> i <= r.value < |Models| && Mentions(title, r.value)
    ensures r.Some? ==> forall j :: i <= j < r.value ==> !Mentions(title, j)
    ensures r.None? ==> forall j :: i <= j < |Models| ==> !Mentions(title, j)
    decreases |Models| - i
  {
    if i == |Models| then None
    else if Mentions(title, i) then Some(i)
    else FirstMention(title, i + 1)
  }

  /**
   * `detecter_modele(titre)`: entry `i` of the list exactly when entry `i` occurs
   * in the title, ignoring case, and no earlier entry does (first match in list
   * order, not best match); the catch-all label exactly when no entry occurs,
   * in particular for an empty title.
   */
  function DetectModel(title: string): (r: string)
    ensures r in Models || r == Global
    ensures forall i :: 0 <= i < |Models| ==>
              (r == Models[i] <==> Mentions(title, i) && forall j :: 0 <= j < i ==> !Mentions(title, j))
    ensures r == Global <==> forall j :: 0 <= j < |Models| ==> !Mentions(title, j)
    ensures title == "" ==> r == Global
  {
    match FirstMention(title, 0)
    case Some(i) => Models[i]
    case None => Global
  }

  /**
   * A title naming the DS9 before the DS N4 is still tagged "DS N4", the
   * earlier list entry: the scan stops at the first entry that occurs.
   */
  lemma ListOrderWins()
    ensures DetectModel("Essai: ds9 face au DS N4") == "DS N4"
  {
    var t := "Essai: ds9 face au DS N4";
    assert OccursAt(Lower(t), Lower(Models[0]), 19);
    ContainsIffOccurs(Lower(t), Lower(Models[0]));
  }
}
