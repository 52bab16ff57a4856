/** The step-by-step instruction viewer of script.js: seven numbered
    instructions shown one at a time, Previous and Next buttons (also bound
    to the arrow keys), a completion screen after the last step, and the
    Start Over and Review Steps actions on that screen. */
module InstructionViewer {

  datatype Instruction = Instruction(step: nat, title: string, text: string)

  const InstructionCount: nat := 7
  const LastStep: nat := InstructionCount - 1

  const Title1: string := "Get Your Station Ready"
  const Text1: string :=
    "Okay, first, let's get your station ready. Put the bread, almond butter, jam, cutting board, and your spreader all on the counter."
  const Title2: string := "Lay Out the Bread"
  const Text2: string :=
    "Now, lay your two slices of bread on the cutting board."
  const Title3: string := "Spread the Almond Butter"
  const Text3: string :=
    "Take a good scoop of almond butter with your spreader and spread it all the way to the edges of one slice of bread."
  const Title4: string := "Add the Raspberry Jam"
  const Text4: string :=
    "Great. Now use a clean spoon to put some raspberry jam on the other slice and spread it out."
  const Title5: string := "Combine the Slices"
  const Text5: string :=
    "Carefully put the two slices together. Don't press too hard!"
  const Title6: string := "Slice and Plate"
  const Text6: string :=
    "Ask a grown-up to help you slice it, then place it on your plate with some fresh raspberries on the side."
  const Title7: string := "Clean Up"
  const Text7: string :=
    "Last step, let's clean up! Put the lids back on the jars and wipe the counter."

  /** The instruction table; the displayed step number of entry `k` is
      `k + 1`. */
  function InstructionAt(k: nat): (r: Instruction)
    requires k < InstructionCount
    ensures r.step == k + 1
  {
    match k
    case 0 => Instruction(1, Title1, Text1)
    case 1 => Instruction(2, Title2, Text2)
    case 2 => Instruction(3, Title3, Text3)
    case 3 => Instruction(4, Title4, Text4)
    case 4 => Instruction(5, Title5, Text5)
    case 5 => Instruction(6, Title6, Text6)
    case _ => Instruction(7, Title7, Text7)
  }

  const NextCaption: string := "Next"
  const FinishCaption: string := "Finish"

  /** The caption of the Next button on step `k`. */
  function CaptionAt(k: nat): string {
    if k == LastStep then FinishCaption else NextCaption
  }

  datatype Key = ArrowLeft | ArrowRight | OtherKey

  class Viewer {
    var currentStep: int
    /** The instruction the card shows. */
    var shown: Instruction
    var prevDisabled: bool
    var nextCaption: string
    var cardVisible: bool
    var celebrationVisible: bool
    /** The checklist boxes, checked or not. */
    var checklist: seq<bool>

    /** The step stays within the table, and the card always shows the
        current step's instruction with Previous disabled exactly on the
        first step and Next reading "Finish" exactly on the last. */
    ghost predicate Valid()
      reads this
    {
      && 0 <= currentStep < InstructionCount
      && shown == InstructionAt(currentStep)
      && (prevDisabled <==> currentStep == 0)
      && nextCaption == CaptionAt(currentStep)
    }

    /** Loading the page shows the first instruction with the celebration
        hidden. */
    constructor (checklistSize: nat)
      ensures Valid()
      ensures currentStep == 0 && shown == InstructionAt(0)
      ensures prevDisabled && nextCaption == NextCaption
      ensures cardVisible && !celebrationVisible
      ensures checklist == seq(checklistSize, _ => false)
    {
      currentStep := 0;
      cardVisible := true;
      celebrationVisible := false;
      checklist := seq(checklistSize, _ => false);
      new;
      UpdateInstruction();
    }

    /** Shows the current instruction: Previous is disabled exactly on the
        first step and Next reads "Finish" exactly on the last. */
    method UpdateInstruction()
      requires 0 <= currentStep < InstructionCount
      modifies this
      ensures Valid()
      ensures currentStep == old(currentStep) && checklist == old(checklist)
      ensures cardVisible == old(cardVisible) && celebrationVisible == old(celebrationVisible)
      ensures shown == InstructionAt(currentStep)
      ensures prevDisabled <==> currentStep == 0
      ensures nextCaption == CaptionAt(currentStep)
    {
      shown := InstructionAt(currentStep);
      prevDisabled := currentStep == 0;
      nextCaption := CaptionAt(currentStep);
    }

    /** Previous: steps back and redraws, except on the first step where
        nothing changes. */
    method Prev()
      requires Valid()
      modifies this
      ensures Valid()
      ensures old(currentStep) == 0 ==> unchanged(this)
      ensures old(currentStep) > 0 ==>
                && currentStep == old(currentStep) - 1 && shown == InstructionAt(currentStep)
                && (prevDisabled <==> currentStep == 0) && nextCaption == NextCaption
      ensures cardVisible == old(cardVisible) && celebrationVisible == old(celebrationVisible)
      ensures checklist == old(checklist)
    {
      if currentStep > 0 {
        currentStep := currentStep - 1;
        UpdateInstruction();
      }
    }

    /** Next: advances and redraws, or on the last step shows the
        completion screen and stays on that step. */
    method Next()
      requires Valid()
      modifies this
      ensures Valid()
      ensures old(currentStep) < LastStep ==>
                && currentStep == old(currentStep) + 1 && shown == InstructionAt(currentStep)
                && !prevDisabled && (nextCaption == FinishCaption <==> currentStep == LastStep)
                && cardVisible == old(cardVisible) && celebrationVisible == old(celebrationVisible)
      ensures old(currentStep) == LastStep ==>
                && currentStep == LastStep && !cardVisible && celebrationVisible
                && shown == old(shown) && prevDisabled == old(prevDisabled) && nextCaption == old(nextCaption)
      ensures checklist == old(checklist)
    {
      if currentStep < LastStep {
        currentStep := currentStep + 1;
        UpdateInstruction();
      } else {
        ShowCompletionMessage();
      }
    }

    /** Hides the instruction card and shows the celebration. */
    method ShowCompletionMessage()
      modifies this
      ensures !cardVisible && celebrationVisible
      ensures currentStep == old(currentStep) && shown == old(shown) && checklist == old(checklist)
      ensures prevDisabled == old(prevDisabled) && nextCaption == old(nextCaption)
    {
      cardVisible := false;
      celebrationVisible := true;
    }

    /** Start Over: back to the first instruction with every box unchecked. */
    method ResetInstructions()
      modifies this
      ensures Valid()
      ensures currentStep == 0 && shown == InstructionAt(0) && prevDisabled && nextCaption == NextCaption
      ensures cardVisible && !celebrationVisible
      ensures |checklist| == |old(checklist)| && forall i :: 0 <= i < |checklist| ==> !checklist[i]
    {
      currentStep := 0;
      cardVisible := true;
      celebrationVisible := false;
      UpdateInstruction();
      checklist := seq(|checklist|, _ => false);
    }

    /** Review Steps: back to the last instruction, with the checklist kept. */
    method ShowOriginalContent()
      modifies this
      ensures Valid()
      ensures currentStep == LastStep && shown == InstructionAt(LastStep)
      ensures !prevDisabled && nextCaption == FinishCaption
      ensures cardVisible && !celebrationVisible
      ensures checklist == old(checklist)
    {
      currentStep := LastStep;
      cardVisible := true;
      celebrationVisible := false;
      UpdateInstruction();
    }

    /** Ticking or clearing checklist box `i`. */
    method SetChecked(i: int, checked: bool)
      requires 0 <= i < |checklist|
      modifies this
      ensures checklist == old(checklist)[i := checked]
      ensures currentStep == old(currentStep) && shown == old(shown)
      ensures prevDisabled == old(prevDisabled) && nextCaption == old(nextCaption)
      ensures cardVisible == old(cardVisible) && celebrationVisible == old(celebrationVisible)
    {
      checklist := checklist[i := checked];
    }

    /** The arrow keys press Previous (when it is enabled) and Next; the Next
        button is never disabled. */
    method KeyDown(key: Key)
      requires Valid()
      modifies this
      ensures Valid()
      ensures checklist == old(checklist)
      ensures key == OtherKey || (key == ArrowLeft && old(prevDisabled)) ==> unchanged(this)
      ensures key == ArrowLeft && !old(prevDisabled) ==>
                && currentStep == old(currentStep) - 1 && shown == InstructionAt(currentStep)
                && (prevDisabled <==> currentStep == 0) && nextCaption == NextCaption
                && cardVisible == old(cardVisible) && celebrationVisible == old(celebrationVisible)
      ensures key == ArrowRight && old(currentStep) < LastStep ==>
                && currentStep == old(currentStep) + 1 && shown == InstructionAt(currentStep)
                && !prevDisabled && (nextCaption == FinishCaption <==> currentStep == LastStep)
                && cardVisible == old(cardVisible) && celebrationVisible == old(celebrationVisible)
      ensures key == ArrowRight && old(currentStep) == LastStep ==>
                && currentStep == LastStep && !cardVisible && celebrationVisible
                && shown == old(shown) && prevDisabled == old(prevDisabled) && nextCaption == old(nextCaption)
    {
      if key == ArrowLeft && !prevDisabled {
        Prev();
      } else if key == ArrowRight {
        Next();
      }
    }
  }

  /** Walking through the steps: from the first step, pressing Next `n`
      times (n at most the last index) lands on step `n` and shows the
      instruction numbered `n + 1`. */
  method WalkForward(v: Viewer, n: nat)
    requires v.Valid() && v.currentStep == 0 && n <= LastStep
    modifies v
    ensures v.Valid() && v.currentStep == n
    ensures n > 0 ==> v.shown == InstructionAt(n) && v.shown.step == n + 1
  {
    var i := 0;
    while i < n
      invariant 0 <= i <= n && v.Valid() && v.currentStep == i
      invariant i > 0 ==> v.shown == InstructionAt(i)
    {
      v.Next();
      i := i + 1;
    }
  }
}
