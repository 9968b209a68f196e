/**
 * How the download step hands its result to the demo: the completion effect
 * passes the identifier of the single completed app to `onAppSelect` and
 * then calls `onComplete`, which moves the demo to the version step.
 */
module DemoFlow {
  import opened Wrappers
  import opened MarketplaceDemo
  import opened AppDownloadStep
  import VersionManagementStep

  /** The completion effect of the download step, applied to the demo's callbacks. */
  method DownloadCompletionEffect(demo: Demo, step: AppDownload) returns (fired: bool)
    requires demo.Valid()
    modifies demo
    ensures demo.Valid()
    ensures fired <==> CompletionSelection(step.completed).Some?
    ensures fired ==> demo.selectedApp == CompletionSelection(step.completed).value
    ensures fired ==> demo.currentStep == Advanced(old(demo.currentStep))
    ensures fired ==>
      && demo.companyName == old(demo.companyName)
      && demo.brandColor == old(demo.brandColor)
      && demo.selectedApps == old(demo.selectedApps)
    ensures !fired ==> unchanged(demo)
  {
    var selection := CompletionSelection(step.completed);
    fired := selection.Some?;
    if fired {
      demo.SetSelectedApp(selection.value);
      demo.Advance();
    }
  }

  /** Install Grafana with seven ticks of 14.5; it is then the one completed app. */
  method InstallGrafana() returns (step: AppDownload)
    ensures fresh(step) && step.completed == [1]
  {
    step := new AppDownload();
    step.Download(1);
    assert step.live == map[0 := 1] && step.intervals == map[1 := 0];
    var k := 0;
    while k < 6
      invariant 0 <= k <= 6
      invariant step.Valid() && step.live == map[0 := 1] && step.intervals == map[1 := 0]
      invariant 1 in step.progress && step.progress[1] == 14.5 * k as real
      invariant step.completed == []
    {
      step.Tick(0, 14.5);
      k := k + 1;
    }
    step.Tick(0, 14.5);
  }

  /**
   * From a fresh demo: install Grafana, let the completion effect run, and
   * the demo shows the version step for "grafana".
   */
  method InstallGrafanaThenManageVersions() returns (demo: Demo)
    ensures demo.currentStep == 1 && demo.selectedApp == "grafana"
    ensures Steps()[demo.currentStep].id == "versions"
    ensures VersionManagementStep.Lookup(demo.selectedApp).Manage?
  {
    demo := new Demo();
    var step := InstallGrafana();
    var fired := DownloadCompletionEffect(demo, step);
    VersionManagementStep.DownloadedAppsAreManaged();
    assert MainApps()[0] == MainApp(1, "Grafana", "grafana");
  }
}
