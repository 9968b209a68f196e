/**
 * The first tutorial step: two featured apps can be "installed". A click
 * starts a repeating timer (an interval) for that app; every tick raises the
 * app's progress by a random amount, and at 100 the app joins `completed`.
 * Timer ticks are explicit method calls here, each naming the interval that
 * fires; the random amount is a parameter.
 */
module AppDownloadStep {
  import opened Wrappers
  import opened ProgressTick

  /** An entry of the featured app list `mainApps`. */
  datatype MainApp = MainApp(id: int, name: string, identifier: string)

  function MainApps(): seq<MainApp>
  {
    [MainApp(1, "Grafana", "grafana"), MainApp(2, "Node-RED", "nodered")]
  }

  /** `apps.find(app => app.id === id)`: the first app with that id. */
  function FindApp(apps: seq<MainApp>, id: int): (r: Option<MainApp>)
    ensures r.Some? ==> r.value in apps && r.value.id == id
    ensures r.None? <==> forall k :: 0 <= k < |apps| ==> apps[k].id != id
  {
    if apps == [] then None
    else if apps[0].id == id then Some(apps[0])
    else FindApp(apps[1..], id)
  }

  /**
   * The completion effect: once exactly one app has completed and it is a
   * featured app, its identifier is handed to `onAppSelect` (and `onComplete`
   * is scheduled). None means the effect does nothing.
   */
  function CompletionSelection(completed: seq<int>): (r: Option<string>)
    ensures r.Some? <==> |completed| == 1 && (completed[0] == 1 || completed[0] == 2)
    ensures completed == [1] ==> r == Some("grafana")
    ensures completed == [2] ==> r == Some("nodered")
  {
    if |completed| == 1 then
      match FindApp(MainApps(), completed[0])
      case Some(app) => Some(app.identifier)
      case None => None
    else None
  }

  /** `prev[appId] || 0`: a missing entry reads as 0. */
  function ProgressOf(progress: map<int, real>, appId: int): real
  {
    if appId in progress then progress[appId] else 0.0
  }

  /** What the card of an app shows below its description. */
  datatype InstallView =
    | Installed                                  // the green "Installed" badge
    | InstallButton(enabled: bool, installing: bool)

  predicate NoDuplicates(s: seq<int>)
  {
    forall i, j :: 0 <= i < j < |s| ==> s[i] != s[j]
  }

  class AppDownload {
    /** The app shown as installing, `null` as None. */
    var downloading: Option<int>
    var completed: seq<int>
    var progress: map<int, real>
    /** `progressIntervals.current`: the last interval started for each app. */
    var intervals: map<int, nat>
    /** Every interval not yet cleared, with the app it updates. */
    var live: map<nat, int>
    var nextHandle: nat

    ghost predicate Valid()
      reads this
    {
      && (forall a :: a in progress ==> 0.0 <= progress[a] <= 100.0)
      && (forall h :: h in live ==> h < nextHandle && live[h] in progress && live[h] in intervals)
      && (forall i :: 0 <= i < |completed| ==> completed[i] in progress && progress[completed[i]] == 100.0)
      && (downloading.Some? ==> downloading.value !in completed)
    }

    /**
     * Every running interval is the one recorded for its app and belongs to
     * an app not yet completed, and `completed` has no duplicates.
     */
    ghost predicate SingleIntervals()
      reads this
    {
      && (forall h :: h in live ==> live[h] in intervals && intervals[live[h]] == h && live[h] !in completed)
      && NoDuplicates(completed)
    }

    constructor ()
      ensures Valid() && SingleIntervals()
      ensures downloading == None && completed == [] && progress == map[]
      ensures intervals == map[] && live == map[] && nextHandle == 0
    {
      downloading, completed, progress := None, [], map[];
      intervals, live, nextHandle := map[], map[], 0;
    }

    /** The card of app `appId`: installed, or the install button and its state. */
    function View(appId: int): (v: InstallView)
      reads this
      ensures v == Installed <==> appId in completed
      ensures v.InstallButton? ==> (v.enabled <==> downloading == None || downloading == Some(appId))
      ensures v.InstallButton? ==> (v.installing <==> downloading == Some(appId))
    {
      if appId in completed then Installed
      else InstallButton(!(downloading.Some? && downloading.value != appId), downloading == Some(appId))
    }

    /**
     * `handleDownload`: ignored for a completed app; otherwise the app becomes
     * the downloading one, its progress restarts at 0 and a new interval is
     * started for it. An interval already running for the app is not stopped.
     */
    method Download(appId: int)
      requires Valid()
      modifies this
      ensures Valid()
      ensures old(View(appId)) == Installed ==> unchanged(this)
      ensures old(appId !in completed) ==>
        && downloading == Some(appId)
        && progress == old(progress)[appId := 0.0]
        && completed == old(completed)
        && intervals == old(intervals)[appId := old(nextHandle)]
        && live == old(live)[old(nextHandle) := appId]
        && old(nextHandle) !in old(live)
        && nextHandle == old(nextHandle) + 1
      ensures old(SingleIntervals()) && (forall h :: h in old(live) ==> old(live)[h] != appId) ==> SingleIntervals()
    {
      if appId in completed {
        return;
      }
      downloading := Some(appId);
      progress := progress[appId := 0.0];
      intervals := intervals[appId := nextHandle];
      live := live[nextHandle := appId];
      nextHandle := nextHandle + 1;
    }

    /**
     * The same handler with the guard extended to an app whose interval is
     * still running, so that a second click on the installing app is ignored.
     */
    method DownloadGuarded(appId: int)
      requires Valid()
      modifies this
      ensures Valid()
      ensures old(appId in completed || appId in live.Values) ==> unchanged(this)
      ensures old(appId !in completed && appId !in live.Values) ==>
        && downloading == Some(appId)
        && progress == old(progress)[appId := 0.0]
        && completed == old(completed)
        && intervals == old(intervals)[appId := old(nextHandle)]
        && live == old(live)[old(nextHandle) := appId]
        && nextHandle == old(nextHandle) + 1
      ensures old(SingleIntervals()) ==> SingleIntervals()
    {
      if appId in live.Values {
        return;
      }
      Download(appId);
    }

    /**
     * One tick of interval `h`: the app's progress becomes
     * `min(progress + inc, 100)`; on reaching 100 the app's recorded interval
     * is cleared, the app is appended to `completed` and nothing is shown as
     * downloading any more.
     */
    method Tick(h: nat, inc: real)
      requires Valid() && h in live && ValidIncrement(inc)
      modifies this
      ensures Valid()
      ensures var app := old(live[h]);
        && progress == old(progress)[app := Next(old(progress[app]), inc)]
        && old(progress[app]) <= progress[app] <= 100.0
        && (forall a :: a in old(progress) && a != app ==> a in progress && progress[a] == old(progress[a]))
        && (progress[app] == 100.0 ==>
              && completed == old(completed) + [app]
              && downloading == None
              && live == old(live) - {old(intervals[app])})
        && (progress[app] < 100.0 ==>
              completed == old(completed) && downloading == old(downloading) && live == old(live))
      ensures intervals == old(intervals) && nextHandle == old(nextHandle)
      ensures old(SingleIntervals()) ==> SingleIntervals()
    {
      var app := live[h];
      var newProgress := Next(ProgressOf(progress, app), inc);
      if newProgress >= 100.0 {
        live := live - {intervals[app]};
        completed := completed + [app];
        downloading := None;
      }
      progress := progress[app := newProgress];
    }
  }

  /**
   * Clicking the installing app a second time leaves two intervals for it;
   * the one that is never cleared appends the app to `completed` again.
   */
  method ReclickAppendsTwice() returns (d: AppDownload)
    ensures d.completed == [1, 1]
  {
    d := new AppDownload();
    d.Download(1);
    d.Download(1);
    d.Tick(0, 14.5);
    d.Tick(0, 14.5);
    d.Tick(0, 14.5);
    d.Tick(0, 14.5);
    d.Tick(0, 14.5);
    d.Tick(0, 14.5);
    d.Tick(0, 14.5);
    assert d.completed == [1];
    d.Tick(0, 0.0);
  }
}
