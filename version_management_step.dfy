/**
 * The second tutorial step: the app chosen in the download step is looked up
 * in a fixed table; the user picks a version and starts a simulated update,
 * whose repeating timer raises the update progress until it reaches 100.
 */
module VersionManagementStep {
  import opened Wrappers
  import opened ProgressTick
  import AppDownloadStep

  datatype Version = Version(version: string, kind: string)
  datatype AppData = AppData(name: string, currentVersion: string, versions: seq<Version>)

  /** The lookup table `apps`, keyed by lower-case app key; None for any other key. */
  function AppTable(key: string): Option<AppData>
  {
    if key == "grafana" then
      Some(AppData("Grafana", "10.0.0",
        [Version("9.5.2", "Stable"), Version("10.0.0", "Current"), Version("10.1.0", "Beta")]))
    else if key == "nodered" then
      Some(AppData("Node-RED", "3.0.2",
        [Version("2.2.2", "Stable"), Version("3.0.2", "Current"), Version("3.1.0", "Beta")]))
    else None
  }

  function LowerChar(c: char): char
  {
    if 'A' <= c <= 'Z' then (c as int + 32) as char else c
  }

  /** `toLowerCase`, on the ASCII letters. */
  function ToLower(s: string): (r: string)
    ensures |r| == |s|
    ensures forall i :: 0 <= i < |s| ==> r[i] == LowerChar(s[i])
  {
    if s == [] then [] else [LowerChar(s[0])] + ToLower(s[1..])
  }

  /** What the step renders for the `selectedApp` it receives. */
  datatype Screen = NoAppSelected | InvalidAppSelected | Manage(app: AppData)

  function Lookup(selectedApp: string): (s: Screen)
    ensures s == NoAppSelected <==> selectedApp == ""
    ensures s == InvalidAppSelected <==>
      selectedApp != "" && ToLower(selectedApp) != "grafana" && ToLower(selectedApp) != "nodered"
    ensures s.Manage? ==> AppTable(ToLower(selectedApp)) == Some(s.app)
  {
    if selectedApp == "" then NoAppSelected
    else match AppTable(ToLower(selectedApp))
      case Some(app) => Manage(app)
      case None => InvalidAppSelected
  }

  /** A key without upper-case letters is its own lower-case form. */
  lemma {:induction false} ToLowerOfLower(s: string)
    requires forall i :: 0 <= i < |s| ==> !('A' <= s[i] <= 'Z')
    ensures ToLower(s) == s
  {
    if s != [] {
      ToLowerOfLower(s[1..]);
      assert s == [s[0]] + s[1..];
    }
  }

  /** Every app the download step can hand over has a version screen of the same name. */
  lemma DownloadedAppsAreManaged()
    ensures forall app :: app in AppDownloadStep.MainApps() ==>
      Lookup(app.identifier).Manage? && Lookup(app.identifier).app.name == app.name
  {
    var apps := AppDownloadStep.MainApps();
    ToLowerOfLower("grafana");
    ToLowerOfLower("nodered");
    assert Lookup("grafana") == Manage(AppTable("grafana").value);
    assert Lookup("nodered") == Manage(AppTable("nodered").value);
    forall app | app in apps
      ensures Lookup(app.identifier).Manage? && Lookup(app.identifier).app.name == app.name
    {
      assert app == apps[0] || app == apps[1];
    }
  }

  /** The key is case-insensitive: the display name's capitalisation does not matter. */
  lemma LookupIgnoresCase()
    ensures Lookup("Grafana") == Lookup("grafana")
    ensures Lookup("NodeRED") == Lookup("nodered")
    ensures Lookup("Node-RED") == InvalidAppSelected
  {
    ToLowerOfLower("grafana");
    ToLowerOfLower("nodered");
    assert ToLower("Grafana") == "grafana";
    assert ToLower("NodeRED") == "nodered";
    assert ToLower("Node-RED")[4] == '-';
  }

  /** JavaScript truthiness of `selectedVersion`: neither null nor empty. */
  predicate Chosen(v: Option<string>)
  {
    v.Some? && v.value != ""
  }

  class VersionManagement {
    var selectedVersion: Option<string>
    var updating: bool
    var updateProgress: real
    var updateComplete: bool

    /**
     * The update interval runs exactly while `updating` holds; progress stays
     * in [0, 100], below 100 while updating and at 100 once complete.
     */
    ghost predicate Valid()
      reads this
    {
      && 0.0 <= updateProgress <= 100.0
      && (updating ==> !updateComplete && updateProgress < 100.0 && Chosen(selectedVersion))
      && (updateComplete ==> !updating && updateProgress == 100.0)
    }

    constructor ()
      ensures Valid()
      ensures selectedVersion == None && !updating && updateProgress == 0.0 && !updateComplete
    {
      selectedVersion, updating, updateProgress, updateComplete := None, false, 0.0, false;
    }

    /** `disabled={!selectedVersion || updating}` on the update button. */
    function UpdateEnabled(): (r: bool)
      reads this
      ensures r <==> Chosen(selectedVersion) && !updating
    {
      !(!Chosen(selectedVersion) || updating)
    }

    /** `handleVersionSelect`: ignored while updating or after completion. */
    method SelectVersion(version: string)
      requires Valid()
      modifies this
      ensures Valid()
      ensures old(updating || updateComplete) ==> unchanged(this)
      ensures !old(updating || updateComplete) ==>
        selectedVersion == Some(version) && updating == old(updating)
        && updateProgress == old(updateProgress) && updateComplete == old(updateComplete)
    {
      if updating || updateComplete {
        return;
      }
      selectedVersion := Some(version);
    }

    /** `handleUpdate`: needs a chosen version; ignored while updating or after completion. */
    method Update()
      requires Valid()
      modifies this
      ensures Valid()
      ensures !Chosen(old(selectedVersion)) || old(updating) || old(updateComplete) ==> unchanged(this)
      ensures Chosen(old(selectedVersion)) && !old(updating) && !old(updateComplete) ==>
        updating && updateProgress == 0.0 && !updateComplete && selectedVersion == old(selectedVersion)
      ensures old(UpdateEnabled()) && !old(updateComplete) ==> updating
      ensures !old(UpdateEnabled()) ==> unchanged(this)
    {
      if !Chosen(selectedVersion) || updating || updateComplete {
        return;
      }
      updating := true;
      updateProgress := 0.0;
      updateComplete := false;
    }

    /**
     * One tick of the update interval. Reaching 100 stops the update, marks
     * it complete and schedules `onComplete` (`completes` is true exactly then).
     */
    method Tick(inc: real) returns (completes: bool)
      requires Valid() && updating && ValidIncrement(inc)
      modifies this
      ensures Valid()
      ensures updateProgress == Next(old(updateProgress), inc)
      ensures old(updateProgress) <= updateProgress
      ensures completes <==> old(updateProgress) + inc >= 100.0
      ensures completes ==> updateProgress == 100.0 && !updating && updateComplete
      ensures !completes ==> updateProgress < 100.0 && updating && !updateComplete
      ensures selectedVersion == old(selectedVersion)
    {
      var newProgress := updateProgress + inc;
      if newProgress >= 100.0 {
        updating := false;
        updateComplete := true;
        updateProgress := 100.0;
        completes := true;
      } else {
        updateProgress := newProgress;
        completes := false;
      }
    }
  }
}
