/** Step 3's controls: the prompt proposals, the two exclusive slots A and B
    a proposal can be assigned to, the model choice and the generate gate. */
module BackgroundStep {
  import opened Wrappers
  import opened PipelineState
  import opened VideoGenerator
  import PipelineViewModel

  /** A slot's selection `{index, prompt, label}`. */
  datatype Selection = Selection(index: nat, prompt: string, title: string)

  /** `selectedA` and `selectedB`. */
  datatype Slots = Slots(a: Option<Selection>, b: Option<Selection>)

  function Holding(s: Slots, slot: Slot): Option<Selection> {
    if slot == A then s.a else s.b
  }

  function HoldsIndex(o: Option<Selection>, index: nat): bool {
    o.Some? && o.value.index == index
  }

  /** The two slots never hold the same proposal. */
  predicate Distinct(s: Slots) {
    s.a.Some? && s.b.Some? ==> s.a.value.index != s.b.value.index
  }

  /** `assignSlot(slot, index)`: the slot takes the selection; the other
      slot is cleared if it held the same proposal and kept otherwise. */
  function Assign(s: Slots, slot: Slot, sel: Selection): (r: Slots)
    ensures Holding(r, slot) == Some(sel)
    ensures HoldsIndex(Holding(s, Other(slot)), sel.index) ==> Holding(r, Other(slot)) == None
    ensures !HoldsIndex(Holding(s, Other(slot)), sel.index) ==> Holding(r, Other(slot)) == Holding(s, Other(slot))
  {
    if slot == A then
      Slots(Some(sel), if HoldsIndex(s.b, sel.index) then None else s.b)
    else
      Slots(if HoldsIndex(s.a, sel.index) then None else s.a, Some(sel))
  }

  /** Whatever the slots held before, an assignment leaves them distinct. */
  lemma AssignDistinct(s: Slots, slot: Slot, sel: Selection)
    ensures Distinct(Assign(s, slot, sel))
  {
  }

  /** Repeating an assignment changes nothing. */
  lemma AssignIdempotent(s: Slots, slot: Slot, sel: Selection)
    ensures Assign(Assign(s, slot, sel), slot, sel) == Assign(s, slot, sel)
  {
  }

  datatype Assignment = Assignment(slot: Slot, sel: Selection)

  function AssignAll(s: Slots, calls: seq<Assignment>): Slots
    decreases |calls|
  {
    if calls == [] then s else AssignAll(Assign(s, calls[0].slot, calls[0].sel), calls[1..])
  }

  /** From empty slots, any sequence of assignments keeps them distinct. */
  lemma {:induction false} AssignAllDistinct(s: Slots, calls: seq<Assignment>)
    requires Distinct(s)
    ensures Distinct(AssignAll(s, calls))
    decreases |calls|
  {
    if calls != [] {
      AssignDistinct(s, calls[0].slot, calls[0].sel);
      AssignAllDistinct(Assign(s, calls[0].slot, calls[0].sel), calls[1..]);
    }
  }

  /** `slotOf(index)`: A when A holds it, else B when B holds it, else none. */
  function SlotOf(s: Slots, index: nat): (r: Option<Slot>)
    ensures r == Some(A) <==> HoldsIndex(s.a, index)
    ensures r == Some(B) <==> !HoldsIndex(s.a, index) && HoldsIndex(s.b, index)
    ensures r == None <==> !HoldsIndex(s.a, index) && !HoldsIndex(s.b, index)
  {
    if HoldsIndex(s.a, index) then Some(A) else if HoldsIndex(s.b, index) then Some(B) else None
  }

  /** After assigning a proposal to a slot, that proposal shows that slot. */
  lemma SlotOfAssigned(s: Slots, slot: Slot, sel: Selection)
    ensures SlotOf(Assign(s, slot, sel), sel.index) == Some(slot)
  {
  }

  /** `canGenerate`: both slots filled and the stage not loading. */
  predicate CanGenerate(s: Slots, s3: Step3) {
    s.a.Some? && s.b.Some? && s3.status != StageLoading
  }

  /** Once a backgrounds submit has succeeded, the stage stays 'loading'
      through every poll tick, so generating again is never offered. */
  lemma NoRegenerateAfterSubmit(s: Slots, s3: Step3, bgs: seq<Background>, ids: seq<string>, replies: seq<PollReply>)
    requires |replies| == |ids|
    ensures var after := CompleteBackgrounds(s3, OkBody(bgs));
            !CanGenerate(s, after.(backgrounds := ApplyBackgroundReplies(after.backgrounds, ids, replies)))
  {
  }

  /** With the corrected settling step, after a successful submit and one
      poll tick over its pending backgrounds, generating again is offered
      exactly when no background is left to poll. */
  lemma RegenerateOnceSettled(s: Slots, s3: Step3, bgs: seq<Background>, replies: seq<PollReply>)
    requires s.a.Some? && s.b.Some?
    requires |replies| == |PendingTaskIds(bgs)|
    ensures var after := SettleBackgrounds(CompleteBackgrounds(s3, OkBody(bgs)));
            var ticked := SettleBackgrounds(after.(backgrounds := ApplyBackgroundReplies(bgs, PendingTaskIds(bgs), replies)));
            CanGenerate(s, ticked) <==> PendingTaskIds(ticked.backgrounds) == []
  {
    if PendingTaskIds(bgs) == [] {
      assert ApplyBackgroundReplies(bgs, [], []) == bgs;
    }
  }

  /** The generate button's label precedence: generating, then regenerate
      once generated, then the first-run label. */
  function GenerateButtonLabel(s3: Step3): (l: GenerateLabel)
    ensures l == Generating <==> s3.status == StageLoading
    ensures l == Regenerate <==> s3.status != StageLoading && s3.hasGenerated
  {
    if s3.status == StageLoading then Generating else if s3.hasGenerated then Regenerate else FirstRun
  }

  /** The step's own state. */
  class BackgroundStepView {
    var proposals: seq<Proposal>
    var proposalsLoading: bool
    var proposalsError: string
    var slots: Slots
    var selectedModel: string

    predicate Valid()
      reads this
    {
      Distinct(slots)
    }

    constructor ()
      ensures Valid()
      ensures proposals == [] && !proposalsLoading && proposalsError == ""
      ensures slots == Slots(None, None) && selectedModel == "kling"
    {
      proposals := [];
      proposalsLoading := false;
      proposalsError := "";
      slots := Slots(None, None);
      selectedModel := "kling";
    }

    /** `fetchProposals` up to its request. */
    method BeginFetchProposals()
      requires Valid()
      modifies this
      ensures Valid()
      ensures proposalsLoading && proposalsError == ""
      ensures proposals == old(proposals) && slots == old(slots) && selectedModel == old(selectedModel)
    {
      proposalsLoading := true;
      proposalsError := "";
    }

    /** The proposals on success, the message on failure; loading ends
      either way. The slots keep their selections. */
    method CompleteFetchProposals(outcome: Response<seq<Proposal>>)
      requires Valid()
      modifies this
      ensures Valid()
      ensures !proposalsLoading
      ensures outcome.OkBody? ==> proposals == outcome.body && proposalsError == old(proposalsError)
      ensures !outcome.OkBody? ==> proposals == old(proposals) && proposalsError == ErrorMessage(outcome)
      ensures slots == old(slots) && selectedModel == old(selectedModel)
    {
      if outcome.OkBody? {
        proposals := outcome.body;
      } else {
        proposalsError := ErrorMessage(outcome);
      }
      proposalsLoading := false;
    }

    /** `assignSlot(slot, index)` for a listed proposal. */
    method AssignSlot(slot: Slot, index: nat)
      requires Valid() && index < |proposals|
      modifies this
      ensures Valid()
      ensures proposals == old(proposals)
      ensures slots == Assign(old(slots), slot, Selection(index, proposals[index].prompt, proposals[index].title))
      ensures proposalsLoading == old(proposalsLoading)
      ensures proposalsError == old(proposalsError) && selectedModel == old(selectedModel)
    {
      var p := proposals[index];
      var sel := Selection(index, p.prompt, p.title);
      if slot == A {
        if HoldsIndex(slots.b, index) {
          slots := slots.(b := None);
        }
        slots := slots.(a := Some(sel));
      } else {
        if HoldsIndex(slots.a, index) {
          slots := slots.(a := None);
        }
        slots := slots.(b := Some(sel));
      }
    }

    method SelectModel(id: string)
      requires Valid()
      modifies this
      ensures Valid()
      ensures selectedModel == id
      ensures proposals == old(proposals) && slots == old(slots)
      ensures proposalsLoading == old(proposalsLoading) && proposalsError == old(proposalsError)
    {
      selectedModel := id;
    }

    /** The generate button: the two slots' prompts and the model, offered
      only when generating is allowed. */
    method Generate(s3: Step3) returns (req: Option<PipelineViewModel.BackgroundsRequest>)
      ensures req.Some? <==> CanGenerate(slots, s3)
      ensures req.Some? ==> req.value == PipelineViewModel.BackgroundsRequest(slots.a.value.prompt, slots.b.value.prompt, selectedModel)
    {
      if !CanGenerate(slots, s3) {
        return None;
      }
      return Some(PipelineViewModel.BackgroundsRequest(slots.a.value.prompt, slots.b.value.prompt, selectedModel));
    }
  }
}
