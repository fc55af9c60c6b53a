/**
 * The slot set `collected_info`: a dictionary from slot name to the text the
 * user gave for it. The orchestrator knows five slots; the dictionary itself
 * may hold other keys, which only the completeness count looks at.
 */
module Slots {

  type SlotSet = map<string, string>

  const Obiettivo := "obiettivo"
  const Contesto := "contesto"
  const Vincoli := "vincoli"
  const OutputFormat := "output_format"
  const Role := "role"

  /** The five slot names, in the order of the confidence weights. */
  const SlotNames: seq<string> := [Obiettivo, Contesto, Vincoli, OutputFormat, Role]

  /** Separator the constraints slot accumulates its values with. */
  const ConstraintSeparator := " | "

  predicate IsSlot(k: string) {
    k in SlotNames
  }

  /** Python's `collected_info.get(k)` is truthy: present and not the empty string. */
  predicate Truthy(info: SlotSet, k: string) {
    k in info && info[k] != ""
  }

  /** The keys whose value is truthy. */
  function Populated(info: SlotSet): set<string> {
    set k | k in info && info[k] != ""
  }

  /** `sum(1 for v in collected_info.values() if v)`. */
  function PopulatedCount(info: SlotSet): nat {
    |Populated(info)|
  }

  /**
   * `b` keeps everything `a` has: each populated value stays populated and does
   * not get shorter. Both merge policies only move a slot set along this order.
   */
  ghost predicate Extends(a: SlotSet, b: SlotSet) {
    forall k :: Truthy(a, k) ==> Truthy(b, k) && |a[k]| <= |b[k]|
  }

  /** Extending a slot set never lowers the number of populated values. */
  lemma ExtendsCount(a: SlotSet, b: SlotSet)
    requires Extends(a, b)
    ensures PopulatedCount(a) <= PopulatedCount(b)
  {
    assert Populated(a) <= Populated(b);
    SubsetCardinality(Populated(a), Populated(b));
  }

  lemma {:induction false} SubsetCardinality(x: set<string>, y: set<string>)
    requires x <= y
    ensures |x| <= |y|
  {
    if x != {} {
      var e :| e in x;
      SubsetCardinality(x - {e}, y - {e});
    }
  }

  /**
   * The merge rule of the primary extractor for a recognised slot: the
   * constraints slot accumulates values with " | "; any other slot takes the
   * new value only if it is empty or the new value is strictly longer.
   */
  function Merge(info: SlotSet, category: string, value: string): (r: SlotSet)
    requires IsSlot(category)
    ensures r.Keys == info.Keys + {category}
    ensures forall k :: k in info && k != category ==> r[k] == info[k]
    ensures Extends(info, r)
  {
    if category == Vincoli then
      info[Vincoli := if Truthy(info, Vincoli) then info[Vincoli] + ConstraintSeparator + value else value]
    else if !Truthy(info, category) || |value| > |info[category]| then
      info[category := value]
    else
      info
  }

  /** The constraints slot is cumulative: its previous value is kept as a prefix. */
  lemma MergeConstraintsAppends(info: SlotSet, value: string)
    ensures Truthy(info, Vincoli) ==> Merge(info, Vincoli, value)[Vincoli] == info[Vincoli] + " | " + value
    ensures !Truthy(info, Vincoli) ==> Merge(info, Vincoli, value)[Vincoli] == value
  {
  }

  /** Every other slot keeps the longer of its old and new value; the old one wins ties. */
  lemma MergeKeepsLonger(info: SlotSet, category: string, value: string)
    requires IsSlot(category) && category != Vincoli
    ensures var r := Merge(info, category, value);
      (!Truthy(info, category) ==> r[category] == value) &&
      (Truthy(info, category) ==> r[category] == (if |value| > |info[category]| then value else info[category]))
  {
  }

  /** Merging the same value twice is the same as merging it once -- except for constraints. */
  lemma MergeTwice(info: SlotSet, category: string, value: string)
    requires IsSlot(category)
    ensures category != Vincoli ==> Merge(Merge(info, category, value), category, value) == Merge(info, category, value)
    ensures category == Vincoli && value != "" ==>
      Merge(Merge(info, category, value), category, value)[Vincoli] == Merge(info, category, value)[Vincoli] + " | " + value
  {
  }
}
