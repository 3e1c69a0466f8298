/**
 * The item table of src/constants/items.ts: every item kind with the phrase the
 * narration uses for it, and `getItem`, the first-match lookup over that table.
 */
module Items {
  import opened Optional

  /** The members of the `ItemType` union; at run time they are plain strings. */
  const ITEM_TYPES: seq<string> := ["Sword", "Ruby", "Key", "Coins", "ManyCoins"]

  predicate IsItemType(s: string) {
    s in ITEM_TYPES
  }

  /** An entry of `ITEMS` (its sprite position and image are rendering data). */
  datatype Item = Item(itemType: string, nameInSentence: string)

  const ITEMS: seq<Item> := [
    Item("Sword", "a sword"),
    Item("Ruby", "a ruby"),
    Item("Key", "a key"),
    Item("Coins", "small coins"),
    Item("ManyCoins", "a lot of coins")
  ]

  /** `i` is the first index of `items` whose entry has type `itemType`. */
  predicate IsFirstMatch(items: seq<Item>, itemType: string, i: int) {
    && 0 <= i < |items|
    && items[i].itemType == itemType
    && forall j :: 0 <= j < i ==> items[j].itemType != itemType
  }

  /** `Array.prototype.find` on the type field, as an index into `items`. */
  function FindIndex(items: seq<Item>, itemType: string): (r: Option<nat>)
    ensures r.Some? ==> IsFirstMatch(items, itemType, r.value)
    ensures r.None? <==> forall i :: 0 <= i < |items| ==> items[i].itemType != itemType
  {
    if items == [] then None
    else if items[0].itemType == itemType then Some(0)
    else
      match FindIndex(items[1..], itemType)
      case None => None
      case Some(i) => Some(i + 1)
  }

  /** `getItem`: the first entry of `ITEMS` of the given type, or `undefined`. */
  function GetItem(itemType: string): (r: Option<Item>)
    ensures r.Some? ==> r.value in ITEMS && r.value.itemType == itemType
    ensures r.Some? ==> exists i :: IsFirstMatch(ITEMS, itemType, i) && ITEMS[i] == r.value
    ensures r.Some? <==> IsItemType(itemType)
  {
    match FindIndex(ITEMS, itemType)
    case None => None
    case Some(i) => Some(ITEMS[i])
  }

  /** `ITEMS` lists each item kind once, in the order of the union, so no two entries share a type. */
  lemma ItemsTableShape()
    ensures |ITEMS| == |ITEM_TYPES| == 5
    ensures forall i :: 0 <= i < |ITEMS| ==> ITEMS[i].itemType == ITEM_TYPES[i]
    ensures forall i, j :: 0 <= i < j < |ITEMS| ==> ITEMS[i].itemType != ITEMS[j].itemType
  {
  }

  /** Every item kind is found, at the one entry that carries it. */
  lemma GetItemDefinedForItemTypes(t: string)
    requires IsItemType(t)
    ensures GetItem(t).Some? && GetItem(t).value.itemType == t
    ensures forall i :: 0 <= i < |ITEMS| && ITEMS[i].itemType == t ==> GetItem(t) == Some(ITEMS[i])
  {
  }

  /** How many entries of `items` have type `itemType`. */
  function Occurrences(items: seq<Item>, itemType: string): nat {
    if items == [] then 0
    else (if items[0].itemType == itemType then 1 else 0) + Occurrences(items[1..], itemType)
  }

  /** No entry of `items` has type `itemType` exactly when it occurs zero times. */
  lemma {:induction false} AbsentOccursNever(items: seq<Item>, itemType: string)
    requires forall i :: 0 <= i < |items| ==> items[i].itemType != itemType
    ensures Occurrences(items, itemType) == 0
  {
    if items != [] {
      AbsentOccursNever(items[1..], itemType);
    }
  }

  /** In a table whose types are pairwise distinct, the type of each entry occurs exactly once. */
  lemma {:induction false} DistinctTypesOccurOnce(items: seq<Item>, k: int)
    requires forall i, j :: 0 <= i < j < |items| ==> items[i].itemType != items[j].itemType
    requires 0 <= k < |items|
    ensures Occurrences(items, items[k].itemType) == 1
  {
    if k == 0 {
      AbsentOccursNever(items[1..], items[0].itemType);
    } else {
      DistinctTypesOccurOnce(items[1..], k - 1);
    }
  }

  /** Each of the five item kinds appears exactly once in `ITEMS`. */
  lemma EachItemTypeOnce(t: string)
    requires IsItemType(t)
    ensures Occurrences(ITEMS, t) == 1
  {
    ItemsTableShape();
    var k :| 0 <= k < |ITEM_TYPES| && ITEM_TYPES[k] == t;
    DistinctTypesOccurOnce(ITEMS, k);
  }

  /** The phrase of each item kind. */
  lemma PhraseTable()
    ensures GetItem("Sword") == Some(Item("Sword", "a sword"))
    ensures GetItem("Ruby") == Some(Item("Ruby", "a ruby"))
    ensures GetItem("Key") == Some(Item("Key", "a key"))
    ensures GetItem("Coins") == Some(Item("Coins", "small coins"))
    ensures GetItem("ManyCoins") == Some(Item("ManyCoins", "a lot of coins"))
  {
  }
}
