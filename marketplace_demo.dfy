/**
 * The interactive demo: a fixed table of seven tutorial steps, the index of
 * the step on screen, and the five fields the steps share. Every step gets
 * the same completion callback, which moves one step forward unless the last
 * step is on screen.
 */
module MarketplaceDemo {
  import opened Wrappers

  /** The step component each table entry renders. */
  datatype StepKind =
    | AppDownload | VersionManagement | CreateStore | Branding
    | SelectApps | CreateCustomApp | RevenuePotential

  datatype TutorialStep = TutorialStep(id: string, title: string, description: string, component: StepKind)

  function Steps(): seq<TutorialStep>
  {
    [
      TutorialStep("download", "Download Apps",
        "Start by downloading sample apps for your marketplace.", AppDownload),
      TutorialStep("versions", "Manage Versions",
        "Keep your apps up to date with version management.", VersionManagement),
      TutorialStep("store", "Create Store",
        "Set up your branded marketplace store.", CreateStore),
      TutorialStep("branding", "Brand Your Store",
        "Customize the look and feel of your marketplace.", Branding),
      TutorialStep("select-apps", "Select Apps",
        "Choose which apps to offer in your marketplace.", SelectApps),
      TutorialStep("custom-app", "Create Custom App",
        "Design a unique app for your marketplace.", CreateCustomApp),
      TutorialStep("revenue", "Revenue Potential",
        "See the potential earnings from your marketplace.", RevenuePotential)
    ]
  }

  /** The index of the terminal step, `steps.length - 1`. */
  const LastStep: nat := 6

  const InitialBrandColor := "#6366f1"

  /** The step ids in table order. */
  function StepIds(): seq<string>
  {
    ["download", "versions", "store", "branding", "select-apps", "custom-app", "revenue"]
  }

  /** The ids are pairwise distinct: no two agree on both length and first letter. */
  lemma StepIdsDistinct()
    ensures forall i, j :: 0 <= i < j < |StepIds()| ==> StepIds()[i] != StepIds()[j]
  {
    var ids := StepIds();
    var keys := [(8, 'd'), (8, 'v'), (5, 's'), (8, 'b'), (11, 's'), (10, 'c'), (7, 'r')];
    assert forall i :: 0 <= i < 7 ==> |ids[i]| == keys[i].0 && ids[i][0] == keys[i].1;
  }

  /** The table has seven entries with distinct ids, in the tutorial's order, ending at `LastStep`. */
  lemma StepTable()
    ensures |Steps()| == LastStep + 1
    ensures forall i :: 0 <= i < |Steps()| ==> Steps()[i].id == StepIds()[i]
    ensures forall i, j :: 0 <= i < j < |Steps()| ==> Steps()[i].id != Steps()[j].id
    ensures Steps()[0].component == AppDownload && Steps()[LastStep].component == RevenuePotential
  {
    StepIdsDistinct();
  }

  /** `handleStepComplete` seen from the index: one step forward, the last step stays. */
  function Advanced(step: nat): (r: nat)
    ensures step < LastStep ==> r == step + 1
    ensures step >= LastStep ==> r == step
  {
    if step < LastStep then step + 1 else step
  }

  /** The index after `n` completions. */
  function AfterCompletions(step: nat, n: nat): nat
    decreases n
  {
    if n == 0 then step else AfterCompletions(Advanced(step), n - 1)
  }

  /**
   * However many times steps complete, the index never decreases, never
   * passes the last step, and moves by exactly the number of completions
   * until it gets there.
   */
  lemma {:induction false} CompletionsFromStep(step: nat, n: nat)
    requires step <= LastStep
    ensures step <= AfterCompletions(step, n) <= LastStep
    ensures AfterCompletions(step, n) == if step + n <= LastStep then step + n else LastStep
    decreases n
  {
    if n > 0 {
      CompletionsFromStep(Advanced(step), n - 1);
    }
  }

  /**
   * A completion callback that closed over the index `captured` of an
   * earlier render: `Some(captured + 1)` is the index it writes, None means
   * it writes nothing.
   */
  function CompletionWrite(captured: nat): (r: Option<nat>)
    ensures r.Some? <==> captured < LastStep
    ensures r.Some? ==> r.value == captured + 1
  {
    if captured < LastStep then Some(captured + 1) else None
  }

  class Demo {
    var currentStep: nat
    var companyName: string
    var brandColor: string
    var selectedApps: seq<string>
    var selectedApp: string

    ghost predicate Valid()
      reads this
    {
      currentStep <= LastStep
    }

    constructor ()
      ensures Valid()
      ensures currentStep == 0 && companyName == "" && brandColor == InitialBrandColor
      ensures selectedApps == [] && selectedApp == ""
    {
      currentStep, companyName, brandColor, selectedApps, selectedApp := 0, "", InitialBrandColor, [], "";
    }

    /** `steps[currentStep]`: the step on screen, always defined. */
    function CurrentStep(): (s: TutorialStep)
      reads this
      requires Valid()
      ensures s in Steps()
      ensures currentStep == 0 ==> s.component == AppDownload
      ensures currentStep == LastStep ==> s.component == RevenuePotential
    {
      Steps()[currentStep]
    }

    /** `handleStepComplete` called through the callback of the current render. */
    method Advance()
      requires Valid()
      modifies this
      ensures Valid()
      ensures currentStep == Advanced(old(currentStep))
      ensures old(currentStep) <= currentStep
      ensures companyName == old(companyName) && brandColor == old(brandColor)
      ensures selectedApps == old(selectedApps) && selectedApp == old(selectedApp)
    {
      if currentStep < |Steps()| - 1 {
        currentStep := currentStep + 1;
      }
    }

    /**
     * `handleStepComplete` called through the callback of an earlier render,
     * which still sees the index `captured` (a timer of a step that is no
     * longer on screen).
     */
    method CompleteFromEarlierRender(captured: nat)
      requires Valid()
      modifies this
      ensures Valid()
      ensures currentStep == if captured < LastStep then captured + 1 else old(currentStep)
      ensures companyName == old(companyName) && brandColor == old(brandColor)
      ensures selectedApps == old(selectedApps) && selectedApp == old(selectedApp)
    {
      match CompletionWrite(captured)
      case Some(next) => currentStep := next;
      case None =>
    }

    method SetCompanyName(name: string)
      requires Valid()
      modifies this
      ensures Valid() && companyName == name
      ensures currentStep == old(currentStep) && brandColor == old(brandColor)
      ensures selectedApps == old(selectedApps) && selectedApp == old(selectedApp)
    {
      companyName := name;
    }

    method SetBrandColor(color: string)
      requires Valid()
      modifies this
      ensures Valid() && brandColor == color
      ensures currentStep == old(currentStep) && companyName == old(companyName)
      ensures selectedApps == old(selectedApps) && selectedApp == old(selectedApp)
    {
      brandColor := color;
    }

    method SetSelectedApps(apps: seq<string>)
      requires Valid()
      modifies this
      ensures Valid() && selectedApps == apps
      ensures currentStep == old(currentStep) && companyName == old(companyName)
      ensures brandColor == old(brandColor) && selectedApp == old(selectedApp)
    {
      selectedApps := apps;
    }

    method SetSelectedApp(app: string)
      requires Valid()
      modifies this
      ensures Valid() && selectedApp == app
      ensures currentStep == old(currentStep) && companyName == old(companyName)
      ensures brandColor == old(brandColor) && selectedApps == old(selectedApps)
    {
      selectedApp := app;
    }
  }

  /**
   * The version step's delayed `onComplete` still sees index 1. If the user
   * moves on through "Continue" and the store step before it fires, it sets
   * the index back from 3 to 2.
   */
  method StaleCompletionMovesBack() returns (d: Demo, before: nat)
    ensures before == 3 && d.currentStep == 2 && d.currentStep < before
  {
    d := new Demo();
    d.Advance();
    d.Advance();
    d.Advance();
    before := d.currentStep;
    d.CompleteFromEarlierRender(1);
  }
}
