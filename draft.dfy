/**
 * `build_refined_prompt`: the draft prompt assembled from the slot set, one
 * "**Label**: value" line per populated slot, in a fixed order that differs
 * from the order of the confidence weights.
 */
module Draft {
  import opened Text
  import opened Slots

  /** The slots of the draft, each with its label, in the order the lines are written. */
  const DraftOrder: seq<(string, string)> :=
    [(Role, "Ruolo"), (Contesto, "Contesto"), (Obiettivo, "Obiettivo"), (Vincoli, "Vincoli"), (OutputFormat, "Formato Output")]

  const LineSeparator := "\n"

  /** One line of the draft. */
  function Section(title: string, value: string): (r: string)
    ensures StartsWith(r, "**") && r != []
  {
    "**" + title + "**: " + value
  }

  /** The lines for the populated slots of `order`, in order. */
  function Sections(info: SlotSet, order: seq<(string, string)>): (r: seq<string>)
    ensures |r| <= |order|
  {
    if order == [] then []
    else
      var last := order[|order| - 1];
      Sections(info, order[..|order| - 1]) + (if Truthy(info, last.0) then [Section(last.1, info[last.0])] else [])
  }

  /** The draft: empty for an empty slot set, else the lines joined by newlines. */
  function RefinedPrompt(info: SlotSet): string {
    if |info| == 0 then "" else Join(Sections(info, DraftOrder), LineSeparator)
  }

  /** `build_refined_prompt`: five tests appending to a list of lines, then one join. */
  method BuildRefinedPrompt(info: SlotSet) returns (prompt: string)
    ensures prompt == RefinedPrompt(info)
  {
    if |info| == 0 {
      return "";
    }
    var sections: seq<string> := [];
    if Truthy(info, Role) {
      sections := sections + [Section("Ruolo", info[Role])];
    }
    ghost var lines := if Truthy(info, Role) then [Section("Ruolo", info[Role])] else [];
    assert sections == lines;
    if Truthy(info, Contesto) {
      sections := sections + [Section("Contesto", info[Contesto])];
    }
    lines := lines + (if Truthy(info, Contesto) then [Section("Contesto", info[Contesto])] else []);
    assert sections == lines;
    if Truthy(info, Obiettivo) {
      sections := sections + [Section("Obiettivo", info[Obiettivo])];
    }
    lines := lines + (if Truthy(info, Obiettivo) then [Section("Obiettivo", info[Obiettivo])] else []);
    assert sections == lines;
    if Truthy(info, Vincoli) {
      sections := sections + [Section("Vincoli", info[Vincoli])];
    }
    lines := lines + (if Truthy(info, Vincoli) then [Section("Vincoli", info[Vincoli])] else []);
    assert sections == lines;
    if Truthy(info, OutputFormat) {
      sections := sections + [Section("Formato Output", info[OutputFormat])];
    }
    lines := lines + (if Truthy(info, OutputFormat) then [Section("Formato Output", info[OutputFormat])] else []);
    SectionsOfDraftOrder(info);
    assert sections == Sections(info, DraftOrder);
    prompt := Join(sections, LineSeparator);
  }

  /** The helper's recursion over `DraftOrder`, written out line by line. */
  lemma SectionsOfDraftOrder(info: SlotSet)
    ensures Sections(info, DraftOrder) ==
      (if Truthy(info, Role) then [Section("Ruolo", info[Role])] else []) +
      (if Truthy(info, Contesto) then [Section("Contesto", info[Contesto])] else []) +
      (if Truthy(info, Obiettivo) then [Section("Obiettivo", info[Obiettivo])] else []) +
      (if Truthy(info, Vincoli) then [Section("Vincoli", info[Vincoli])] else []) +
      (if Truthy(info, OutputFormat) then [Section("Formato Output", info[OutputFormat])] else [])
  {
    var w := DraftOrder;
    assert w[..5][..4] == w[..4] && w[..4][..3] == w[..3] && w[..3][..2] == w[..2] && w[..2][..1] == w[..1];
    assert w[..1][..0] == [];
    var l1 := if Truthy(info, Role) then [Section("Ruolo", info[Role])] else [];
    var l2 := if Truthy(info, Contesto) then [Section("Contesto", info[Contesto])] else [];
    var l3 := if Truthy(info, Obiettivo) then [Section("Obiettivo", info[Obiettivo])] else [];
    var l4 := if Truthy(info, Vincoli) then [Section("Vincoli", info[Vincoli])] else [];
    var l5 := if Truthy(info, OutputFormat) then [Section("Formato Output", info[OutputFormat])] else [];
    assert Sections(info, w[..1]) == l1;
    assert Sections(info, w[..2]) == l1 + l2;
    assert Sections(info, w[..3]) == l1 + l2 + l3;
    assert Sections(info, w[..4]) == l1 + l2 + l3 + l4;
    assert w == w[..5];
  }

  /** No line is written exactly when no slot of `order` is populated. */
  lemma {:induction false} SectionsEmptyIff(info: SlotSet, order: seq<(string, string)>)
    ensures Sections(info, order) == [] <==> forall i :: 0 <= i < |order| ==> !Truthy(info, order[i].0)
  {
    if order != [] {
      var init := order[..|order| - 1];
      SectionsEmptyIff(info, init);
      assert forall i :: 0 <= i < |init| ==> init[i] == order[i];
      if Truthy(info, order[|order| - 1].0) {
        assert |Sections(info, order)| >= 1;
      }
    }
  }

  /** Every populated slot of `order` has its line in the output. */
  lemma {:induction false} SectionsComplete(info: SlotSet, order: seq<(string, string)>, i: int)
    requires 0 <= i < |order| && Truthy(info, order[i].0)
    ensures Section(order[i].1, info[order[i].0]) in Sections(info, order)
  {
    if i < |order| - 1 {
      var init := order[..|order| - 1];
      SectionsComplete(info, init, i);
    }
  }

  /** Every line of the output belongs to a populated slot of `order`. */
  lemma {:induction false} SectionsSound(info: SlotSet, order: seq<(string, string)>, line: string)
    requires line in Sections(info, order)
    ensures exists i :: 0 <= i < |order| && Truthy(info, order[i].0) && line == Section(order[i].1, info[order[i].0])
  {
    var init := order[..|order| - 1];
    var last := order[|order| - 1];
    if line in Sections(info, init) {
      SectionsSound(info, init, line);
      var i :| 0 <= i < |init| && Truthy(info, init[i].0) && line == Section(init[i].1, info[init[i].0]);
      assert init[i] == order[i];
    } else {
      assert Truthy(info, last.0) && line == Section(last.1, info[last.0]);
    }
  }

  /** The keys the draft reads are exactly the five slots. */
  lemma DraftOrderCoversSlots()
    ensures forall s :: s in SlotNames <==> exists i :: 0 <= i < |DraftOrder| && DraftOrder[i].0 == s
  {
    assert DraftOrder[0].0 == Role && DraftOrder[1].0 == Contesto && DraftOrder[2].0 == Obiettivo;
    assert DraftOrder[3].0 == Vincoli && DraftOrder[4].0 == OutputFormat;
  }

  /** The draft is empty exactly when none of the five slots is populated. */
  lemma RefinedPromptEmptyIff(info: SlotSet)
    ensures RefinedPrompt(info) == "" <==> forall s :: s in SlotNames ==> !Truthy(info, s)
  {
    DraftOrderCoversSlots();
    SectionsEmptyIff(info, DraftOrder);
    var parts := Sections(info, DraftOrder);
    JoinEmptyIff(parts, LineSeparator);
    if |parts| == 1 {
      SectionsSound(info, DraftOrder, parts[0]);
    }
    if |info| == 0 {
      assert forall s :: !Truthy(info, s);
    }
  }

  /** Every populated slot's line occurs in the draft. */
  lemma DraftShowsEverySlot(info: SlotSet, i: int)
    requires 0 <= i < |DraftOrder| && Truthy(info, DraftOrder[i].0)
    ensures Contains(RefinedPrompt(info), Section(DraftOrder[i].1, info[DraftOrder[i].0]))
  {
    var parts := Sections(info, DraftOrder);
    SectionsComplete(info, DraftOrder, i);
    var j :| 0 <= j < |parts| && parts[j] == Section(DraftOrder[i].1, info[DraftOrder[i].0]);
    JoinContainsParts(parts, LineSeparator, j);
  }

  /** Each part occurs in the join. */
  lemma {:induction false} JoinContainsParts(parts: seq<string>, sep: string, j: int)
    requires 0 <= j < |parts|
    ensures Contains(Join(parts, sep), parts[j])
  {
    var w := parts[j];
    if |parts| == 1 {
      assert OccursAt(Join(parts, sep), w, 0);
    } else {
      var init := parts[..|parts| - 1];
      var front := Join(init, sep) + sep;
      var whole := Join(parts, sep);
      assert whole == front + parts[|parts| - 1];
      if j == |parts| - 1 {
        assert whole[|front|..|front| + |w|] == w;
        assert OccursAt(whole, w, |front|);
      } else {
        assert init[j] == w;
        JoinContainsParts(init, sep, j);
        ContainsIff(Join(init, sep), w);
        var k: nat :| OccursAt(Join(init, sep), w, k);
        assert whole[k..k + |w|] == Join(init, sep)[k..k + |w|];
        assert OccursAt(whole, w, k);
      }
    }
    ContainsIff(Join(parts, sep), w);
  }

  /** A populated role always opens the draft. */
  lemma RoleComesFirst(info: SlotSet)
    requires Truthy(info, Role)
    ensures StartsWith(RefinedPrompt(info), Section("Ruolo", info[Role]))
  {
    SectionsOfDraftOrder(info);
    var parts := Sections(info, DraftOrder);
    assert parts[0] == Section("Ruolo", info[Role]);
    JoinStartsWithFirst(parts, LineSeparator);
  }

  /** A join begins with its first part. */
  lemma {:induction false} JoinStartsWithFirst(parts: seq<string>, sep: string)
    requires |parts| > 0
    ensures StartsWith(Join(parts, sep), parts[0])
  {
    if |parts| > 1 {
      var init := parts[..|parts| - 1];
      JoinStartsWithFirst(init, sep);
      assert init[0] == parts[0];
      var j := Join(init, sep);
      assert (j + sep + parts[|parts| - 1])[..|parts[0]|] == j[..|parts[0]|];
    }
  }

  /** With only an objective, the draft is its single line. */
  lemma ObjectiveOnly(info: SlotSet)
    requires Truthy(info, Obiettivo)
    requires forall s :: s in SlotNames && s != Obiettivo ==> !Truthy(info, s)
    ensures RefinedPrompt(info) == "**Obiettivo**: " + info[Obiettivo]
  {
    SectionsOfDraftOrder(info);
    assert !Truthy(info, SlotNames[1]) && !Truthy(info, SlotNames[2]);
    assert !Truthy(info, SlotNames[3]) && !Truthy(info, SlotNames[4]);
  }
}
