/** Step 4's view of the records: which slots can be composited, what each
    slot's card shows, and whether any composite is ready. */
module CompositeStep {
  import opened Wrappers
  import opened Text
  import opened ProviderStatus
  import opened PipelineState

  /** `succeededBgs`: the succeeded backgrounds, in order. */
  function SucceededBgs(bgs: seq<Background>): (r: seq<Background>)
    ensures forall b :: b in r <==> b in bgs && BgSucceeded(b)
    ensures |r| <= |bgs|
  {
    if bgs == [] then []
    else if BgSucceeded(bgs[0]) then [bgs[0]] + SucceededBgs(bgs[1..])
    else SucceededBgs(bgs[1..])
  }

  /** The backgrounds of one slot, in order. */
  function OfSlot(bgs: seq<Background>, slot: Slot): (r: seq<Background>)
    ensures forall b :: b in r <==> b in bgs && b.slot == slot
  {
    if bgs == [] then []
    else if bgs[0].slot == slot then [bgs[0]] + OfSlot(bgs[1..], slot)
    else OfSlot(bgs[1..], slot)
  }

  /** `canCompositeA` / `canCompositeB`: the avatar is done and a background
      of that slot has succeeded. */
  predicate CanComposite(s2: Step2, s3: Step3, slot: Slot) {
    s2.status == StageDone && exists b :: b in SucceededBgs(s3.backgrounds) && b.slot == slot
  }

  /** The same readiness, stated on the list itself and on the handler's
      first-succeeded lookup. */
  lemma CanCompositeFirst(s2: Step2, s3: Step3, slot: Slot)
    ensures CanComposite(s2, s3, slot) <==> s2.status == StageDone && FirstSucceeded(s3.backgrounds, slot).Some?
  {
    if FirstSucceeded(s3.backgrounds, slot).Some? {
      assert FirstSucceeded(s3.backgrounds, slot).value in SucceededBgs(s3.backgrounds);
    }
  }

  /** Either slot's readiness implies the step 4 gate. */
  lemma CanCompositeUnlocks(s2: Step2, s3: Step3, slot: Slot)
    requires CanComposite(s2, s3, slot)
    ensures Step4Unlocked(s2, s3)
  {
    var b :| b in SucceededBgs(s3.backgrounds) && b.slot == slot;
    var i :| 0 <= i < |s3.backgrounds| && s3.backgrounds[i] == b;
    assert BgSucceeded(s3.backgrounds[i]);
  }

  /** A slot's readiness depends only on that slot's backgrounds. */
  lemma CanCompositeOwnSlot(s2: Step2, s3: Step3, t3: Step3, slot: Slot)
    requires OfSlot(s3.backgrounds, slot) == OfSlot(t3.backgrounds, slot)
    ensures CanComposite(s2, s3, slot) <==> CanComposite(s2, t3, slot)
  {
    if CanComposite(s2, s3, slot) {
      var b :| b in SucceededBgs(s3.backgrounds) && b.slot == slot;
      assert b in OfSlot(s3.backgrounds, slot);
      assert b in SucceededBgs(t3.backgrounds);
    }
    if CanComposite(s2, t3, slot) {
      var b :| b in SucceededBgs(t3.backgrounds) && b.slot == slot;
      assert b in OfSlot(t3.backgrounds, slot);
      assert b in SucceededBgs(s3.backgrounds);
    }
  }

  /** An enabled composite button is ignored by the handler exactly when
      the avatar finished without a url. */
  lemma EnabledButtonNeedsUrl(s2: Step2, s3: Step3, slot: Slot)
    requires CanComposite(s2, s3, slot)
    ensures CompositeAllowed(s2, s3, slot) <==> Truthy(s2.videoUrl)
  {
    CanCompositeFirst(s2, s3, slot);
  }

  /** `anyDone`: some composite has succeeded. */
  predicate AnyDone(s4: Step4) {
    AnyCompositeSucceeded(s4.composites)
  }

  /** What a slot's card shows below its header. */
  datatype CardBody =
    | ComposeButton(enabled: bool)
    | Submitting
    | Rendering
    | Finished(url: string)
    | Failure(text: string)
    | Blank

  /** The slot's card: the composite button only while the slot has no
      record (enabled when the slot can be composited), then the record's
      progress, result or error text ("Render failed" by default). */
  function SlotCard(s2: Step2, s3: Step3, s4: Step4, slot: Slot): (c: CardBody)
    ensures c.ComposeButton? <==> ForSlot(s4.composites, slot).None?
    ensures c.ComposeButton? ==> (c.enabled <==> CanComposite(s2, s3, slot))
    ensures c == Submitting <==> ForSlot(s4.composites, slot).Some? && ForSlot(s4.composites, slot).value.status == JobLoading
    ensures c == Rendering <==> ForSlot(s4.composites, slot).Some? && ForSlot(s4.composites, slot).value.status == Reported(Pending)
    ensures c.Finished? <==> ForSlot(s4.composites, slot).Some? && ForSlot(s4.composites, slot).value.status == Reported(Succeeded)
                             && Truthy(ForSlot(s4.composites, slot).value.videoUrl)
    ensures c.Finished? ==> ForSlot(s4.composites, slot).value.videoUrl == Some(c.url)
    ensures c.Failure? <==> ForSlot(s4.composites, slot).Some? && ForSlot(s4.composites, slot).value.status in {Reported(Failed), Reported(Error)}
    ensures c.Failure? ==> c.text == OrDefault(ForSlot(s4.composites, slot).value.error, "Render failed")
    ensures c == Blank <==> ForSlot(s4.composites, slot).Some? && ForSlot(s4.composites, slot).value.status !in {JobLoading, Reported(Pending), Reported(Failed), Reported(Error)}
                            && !(ForSlot(s4.composites, slot).value.status == Reported(Succeeded) && Truthy(ForSlot(s4.composites, slot).value.videoUrl))
  {
    match ForSlot(s4.composites, slot)
    case None => ComposeButton(CanComposite(s2, s3, slot))
    case Some(comp) =>
      if comp.status == JobLoading then Submitting
      else if comp.status == Reported(Pending) then Rendering
      else if comp.status == Reported(Succeeded) && Truthy(comp.videoUrl) then Finished(comp.videoUrl.value)
      else if comp.status == Reported(Failed) || comp.status == Reported(Error) then Failure(OrDefault(comp.error, "Render failed"))
      else Blank
  }

  /** After a slot is marked, its button is gone and its card shows the
      submit in progress. */
  lemma MarkedSlotSubmitting(s2: Step2, s3: Step3, s4: Step4, slot: Slot)
    requires AtMostOnePerSlot(s4.composites)
    ensures SlotCard(s2, s3, s4.(composites := MarkComposite(s4.composites, slot)), slot) == Submitting
  {
    MarkCompositeSlots(s4.composites, slot);
  }
}
