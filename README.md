# FLECS demo marketplace: the interactive tutorial and the ROI calculator in Dafny

The FLECS marketplace website is mostly static content. It has two interactive pieces, and this project models their logic:

* **The interactive demo** (`MarketplaceDemo`). It has a fixed table of seven steps: download, versions, store, branding, select-apps, custom-app and revenue. It keeps the index of the step on screen and four fields that the steps share (`companyName`, `brandColor`, `selectedApps`, `selectedApp`). Every step gets the same completion callback, which moves one step forward except at the last step. Each step also has local state:
  * the simulated app download: per-app progress, the app being installed, the completed list and the repeating timers;
  * the version update: select, update, tick, complete;
  * the company-name readiness flags;
  * the logo/icon/colour choice in branding;
  * the app selection toggle;
  * the step guide's completed/current/clickable flags and its click guard.
* **The ROI calculator** (`story-section.tsx`). It has:
  * a table of multiplier stages built by four loops;
  * a timer-driven walk through that table that keeps the revenue multiplier equal to the current stage's level;
  * four projection formulas;
  * a lookup of the product-category card by half-open multiplier range.

How the model represents the source:

* Each timer firing is an explicit method call.
* `Math.random() * 15` is a `real` parameter `inc` with `0 <= inc < 15`.
* Multiplier levels are integer tenths (10 stands for 1.0).
* Money is exact `real`.
* Components whose state is updated in place are classes: `AppDownload`, `VersionManagement`, `CreateStore`, `Branding`, `Demo` and `Calculator`. Their methods state the complete new state.
* Pure code is written as functions, with lemmas about them.

Files, one Dafny module each:

* `wrappers.dfy`
* `tutorial_guide.dfy`
* `final_steps.dfy`
* `marketplace_demo.dfy`
* `progress_tick.dfy`: the tick arithmetic that the download and update timers share
* `app_download_step.dfy`
* `version_management_step.dfy`
* `create_store_step.dfy`
* `branding_step.dfy`
* `demo_flow.dfy`: the download step's completion effect wired to the demo
* `multiplier_stages.dfy`
* `roi_calculator.dfy`

Behaviour of the code worth knowing:

* The stage table has 41 entries. The first loop runs `i = 0..10`, so the levels run from 1.0 to 5.0.
* The last category range `[4, 5)` is half-open. At the final level 5.0, no category card is shown.
* `startJourney` rejects only a falsy revenue (null or 0). Negative revenues start the walk.
* The demo has no backward jump. `TutorialGuide` is not rendered by `MarketplaceDemo`, so its click guard is modelled only as the guide's own function.
* The version step can call `onComplete` twice: once from the Continue button and once from the 1000 ms timer. The download step's completion effect can also schedule it more than once. A step's completion can therefore fire more than once.

## Model

| member | source | states |
|---|---|---|
| `MarketplaceDemo.Demo.constructor` | components/interactive-tutorial/marketplace-demo.tsx:24-28 | initial state: step 0, empty company name, colour `#6366f1`, no selected apps, empty selected app |
| `MarketplaceDemo.Demo.Advance` | components/interactive-tutorial/marketplace-demo.tsx:30-34 | the index moves to `Advanced(old)`, never decreases, stays within the table; none of the four shared fields changes |
| `MarketplaceDemo.Advanced` | components/interactive-tutorial/marketplace-demo.tsx:31-32 | below the last index the step goes up by exactly one; at the last index (6, revenue) it is unchanged |
| `MarketplaceDemo.CompletionsFromStep` | components/interactive-tutorial/marketplace-demo.tsx:30-34 | after any number n of completions from an in-range index the index is `min(step + n, 6)`: monotone and in bounds |
| `MarketplaceDemo.Demo.CurrentStep` | components/interactive-tutorial/marketplace-demo.tsx:36 | `steps[currentStep]` is always defined; index 0 renders the download step, index 6 the revenue step |
| `MarketplaceDemo.StepTable` | components/interactive-tutorial/marketplace-demo.tsx:68-111 | 7 entries with pairwise distinct ids in the order download … revenue, first component download, last revenue |
| `MarketplaceDemo.StepIdsDistinct` | components/interactive-tutorial/marketplace-demo.tsx:68-111 | the seven step ids are pairwise distinct |
| `MarketplaceDemo.CompletionWrite` | components/interactive-tutorial/marketplace-demo.tsx:30-34 | a completion callback that saw index `captured` writes `captured + 1` exactly when `captured` is below the last index, and writes nothing otherwise |
| `MarketplaceDemo.Demo.CompleteFromEarlierRender` | components/interactive-tutorial/marketplace-demo.tsx:30-34 | the callback of an earlier render sets the index from the index it captured, not from the current one |
| `MarketplaceDemo.StaleCompletionMovesBack` | components/interactive-tutorial/tutorial-steps/index.tsx:353 | the version step's delayed `onComplete` can fire after the user has reached step 3, and then sets the index back to 2 |
| `MarketplaceDemo.Demo.SetCompanyName` | components/interactive-tutorial/marketplace-demo.tsx:25 | the company-name setter changes only `companyName` |
| `MarketplaceDemo.Demo.SetBrandColor` | components/interactive-tutorial/marketplace-demo.tsx:26 | the brand-colour setter changes only `brandColor`, without validating it |
| `MarketplaceDemo.Demo.SetSelectedApps` | components/interactive-tutorial/marketplace-demo.tsx:27 | the selection setter changes only `selectedApps` |
| `MarketplaceDemo.Demo.SetSelectedApp` | components/interactive-tutorial/marketplace-demo.tsx:28 | the single-app setter changes only `selectedApp` |
| `TutorialGuide.Status` | components/interactive-tutorial/tutorial-guide.tsx:28-30 | completed iff `index < currentStep`, current iff `index == currentStep`, clickable iff `index <= currentStep` |
| `TutorialGuide.Statuses` | components/interactive-tutorial/tutorial-guide.tsx:27-30 | the flags of every listed step, one per step, in list order |
| `TutorialGuide.ClickableIsCompletedOrCurrent` | components/interactive-tutorial/tutorial-guide.tsx:28-30 | clickable is equivalent to completed or current, and the two are mutually exclusive |
| `TutorialGuide.ExactlyOneCurrent` | components/interactive-tutorial/tutorial-guide.tsx:29 | for an in-range current index, the set of current steps is exactly that index |
| `TutorialGuide.Click` | components/interactive-tutorial/tutorial-guide.tsx:52 | `onStepClick` is called exactly for clickable indices, with the clicked index |
| `TutorialGuide.ClickNeverSkipsAhead` | components/interactive-tutorial/tutorial-guide.tsx:52 | no index above `currentStep` is ever handed to `onStepClick` |
| `TutorialGuide.StepBadge` | components/interactive-tutorial/tutorial-guide.tsx:61-69 | completed steps show a check mark; the others show `index + 1`, which is above `currentStep` |
| `FinalSteps.Without` | components/interactive-tutorial/tutorial-steps/final-steps.tsx:26 | `filter(id => id !== x)` removes every occurrence of `x`; every other id keeps its number of occurrences, so the length drops by the count of `x` |
| `FinalSteps.Toggle` | components/interactive-tutorial/tutorial-steps/final-steps.tsx:24-28 | after a toggle the id is present exactly when it was absent before; every other id keeps its membership; an absent id is appended at the end |
| `FinalSteps.WithoutKeepsOrder` | components/interactive-tutorial/tutorial-steps/final-steps.tsx:26 | the filtered list is a subsequence of the original, so the relative order is kept |
| `FinalSteps.ToggleKeepsOrder` | components/interactive-tutorial/tutorial-steps/final-steps.tsx:24-28 | removing keeps the others' relative order; appending leaves the old list as a prefix |
| `FinalSteps.WithoutAbsent` | components/interactive-tutorial/tutorial-steps/final-steps.tsx:26 | filtering out an absent id returns the list unchanged |
| `FinalSteps.WithoutAppended` | components/interactive-tutorial/tutorial-steps/final-steps.tsx:25-27 | filtering a just-appended, previously absent id gives back the list before the append |
| `FinalSteps.ToggleTwiceAbsent` | components/interactive-tutorial/tutorial-steps/final-steps.tsx:25-27 | toggling an absent id twice returns the original selection |
| `FinalSteps.WithoutNoDuplicates` | components/interactive-tutorial/tutorial-steps/final-steps.tsx:26 | filtering a duplicate-free list gives a duplicate-free list |
| `FinalSteps.ToggleNoDuplicates` | components/interactive-tutorial/tutorial-steps/final-steps.tsx:25-27 | a duplicate-free selection stays duplicate-free after a toggle |
| `FinalSteps.CompleteEnabled` | components/interactive-tutorial/tutorial-steps/final-steps.tsx:53-120 | Continue of the selection step is disabled exactly when `selectedApps` is empty; the custom-app and revenue steps complete from an always-enabled button |
| `FinalSteps.ToggleOnEnablesContinue` | components/interactive-tutorial/tutorial-steps/final-steps.tsx:24-56 | selecting a previously unselected app always enables Continue |
| `ProgressTick.Next` | components/interactive-tutorial/tutorial-steps/index.tsx:90-101 | a tick never lowers progress, never takes it past 100, gives exactly 100 iff `p + inc >= 100`, and otherwise gives `p + inc` |
| `ProgressTick.RunMonotoneBounded` | components/interactive-tutorial/tutorial-steps/index.tsx:89-103 | across any run of ticks, progress never decreases and stays at most 100 |
| `ProgressTick.RunReachesHundred` | components/interactive-tutorial/tutorial-steps/index.tsx:344-358 | if every increment is at least `d > 0`, `n` ticks with `n * d >= 100 - p` end exactly at 100 |
| `ProgressTick.RunStaysAtHundred` | components/interactive-tutorial/tutorial-steps/index.tsx:93 | once at 100, further ticks keep progress at 100 |
| `AppDownloadStep.FindApp` | components/interactive-tutorial/tutorial-steps/index.tsx:108 | `find` returns an app of the list with that id, or nothing exactly when no app has it |
| `AppDownloadStep.CompletionSelection` | components/interactive-tutorial/tutorial-steps/index.tsx:106-113 | the effect fires exactly when `completed` has one featured id; it hands over `"grafana"` for id 1 and `"nodered"` for id 2 |
| `AppDownloadStep.AppDownload.constructor` | components/interactive-tutorial/tutorial-steps/index.tsx:52-55 | nothing downloading, nothing completed, no progress, no intervals |
| `AppDownloadStep.AppDownload.View` | components/interactive-tutorial/tutorial-steps/index.tsx:180-215 | "Installed" exactly for completed apps; otherwise the install button is enabled iff no app, or this app, is downloading; while one app downloads every other app's button is disabled |
| `AppDownloadStep.AppDownload.Download` | components/interactive-tutorial/tutorial-steps/index.tsx:83-89 | an app whose card shows "Installed" is ignored; otherwise `downloading := appId`, `progress[appId] := 0` and a new, distinct interval is recorded; it keeps the single-interval invariant only if the app had no running interval |
| `AppDownloadStep.AppDownload.DownloadGuarded` | components/interactive-tutorial/tutorial-steps/index.tsx:83-89 | the handler with the guard extended to an app whose interval is running; it always keeps the single-interval invariant, so `completed` stays duplicate-free |
| `AppDownloadStep.AppDownload.Tick` | components/interactive-tutorial/tutorial-steps/index.tsx:89-103 | the app's progress becomes `min(old + inc, 100)`, never decreases and stays at most 100; other apps' entries are unchanged; at 100 the recorded interval is cleared, the app is appended to `completed` and `downloading` becomes null |
| `AppDownloadStep.ReclickAppendsTwice` | components/interactive-tutorial/tutorial-steps/index.tsx:84-103 | clicking the installing app again leaves an interval that is never cleared, and it appends the app to `completed` a second time |
| `VersionManagementStep.ToLower` | components/interactive-tutorial/tutorial-steps/index.tsx:320 | `toLowerCase` maps every character through the ASCII lower-case mapping and keeps the length |
| `VersionManagementStep.Lookup` | components/interactive-tutorial/tutorial-steps/index.tsx:309-331 | an empty `selectedApp` gives "No App Selected"; a lower-cased key outside {grafana, nodered} gives "Invalid App Selected"; otherwise the table entry for the key is shown |
| `VersionManagementStep.DownloadedAppsAreManaged` | components/interactive-tutorial/tutorial-steps/index.tsx:284-307 | both identifiers handed over by the download step have a version screen with the same app name |
| `VersionManagementStep.LookupIgnoresCase` | components/interactive-tutorial/tutorial-steps/index.tsx:320 | the key is case-insensitive ("Grafana", "NodeRED"), but the display name "Node-RED" is not a key |
| `VersionManagementStep.VersionManagement.constructor` | components/interactive-tutorial/tutorial-steps/index.tsx:270-273 | no version chosen, not updating, progress 0, not complete |
| `VersionManagementStep.VersionManagement.UpdateEnabled` | components/interactive-tutorial/tutorial-steps/index.tsx:434 | the update button is enabled iff a version is chosen and no update is running |
| `VersionManagementStep.VersionManagement.SelectVersion` | components/interactive-tutorial/tutorial-steps/index.tsx:333-336 | ignored while updating or after completion; otherwise changes only the chosen version |
| `VersionManagementStep.VersionManagement.Update` | components/interactive-tutorial/tutorial-steps/index.tsx:338-343 | ignored without a chosen version, while updating, or after completion; otherwise starts updating from progress 0; a click while the button is disabled changes nothing, and a click on the enabled button starts the update unless it already completed |
| `VersionManagementStep.VersionManagement.Tick` | components/interactive-tutorial/tutorial-steps/index.tsx:344-358 | progress never decreases; with `prev + inc >= 100` it becomes exactly 100, `updating` false, `updateComplete` true and `onComplete` is scheduled; otherwise progress stays below 100 and the update continues |
| `CreateStoreStep.CreateStore.constructor` | components/interactive-tutorial/tutorial-steps/index.tsx:502-504 | empty field, not typing, not ready, no pending timer |
| `CreateStoreStep.CreateStore.ChangeName` | components/interactive-tutorial/tutorial-steps/index.tsx:522-533 | `onCompanyNameChange` always receives the value; an empty value clears `isTyping` and `isReady`; a non-empty one sets `isTyping` and schedules one ready timer |
| `CreateStoreStep.CreateStore.ReadyTimerFires` | components/interactive-tutorial/tutorial-steps/index.tsx:530 | a pending ready timer sets `isReady` whatever the field holds by then |
| `CreateStoreStep.CreateStore.ReadyTimerFiresChecked` | components/interactive-tutorial/tutorial-steps/index.tsx:530 | the corrected timer makes `isReady` true exactly for a non-empty name, so the create button never shows for an empty name |
| `CreateStoreStep.ReadyWithEmptyName` | components/interactive-tutorial/tutorial-steps/index.tsx:522-533 | typing one letter and deleting it before the delay ends leaves `isReady` true with an empty name |
| `BrandingStep.Branding.constructor` | components/interactive-tutorial/tutorial-steps/index.tsx:728-731 | colour `brandColor \|\| "#0091FF"`, no icon, no logo, logo phase |
| `BrandingStep.Branding.LogoLoaded` | components/interactive-tutorial/tutorial-steps/index.tsx:738-741 | an uploaded logo (a non-empty data URL) is set and clears the selected icon |
| `BrandingStep.Branding.PickIcon` | components/interactive-tutorial/tutorial-steps/index.tsx:848-851 | picking one of the three example icons sets it and clears the uploaded logo, so the two are never both set |
| `BrandingStep.Branding.ChangeColor` | components/interactive-tutorial/tutorial-steps/index.tsx:760-763 | the colour is stored without validation and forwarded unchanged to `onBrandColorChange` |
| `BrandingStep.Branding.ContinueVisible` | components/interactive-tutorial/tutorial-steps/index.tsx:874 | Continue shows exactly in the logo phase when a logo or an icon is set |
| `BrandingStep.Branding.PreviewLogo` | components/interactive-tutorial/tutorial-steps/index.tsx:989-999 | the preview shows the uploaded logo, else the selected icon, else the placeholder |
| `BrandingStep.Branding.ToColorPhase` | components/interactive-tutorial/tutorial-steps/index.tsx:876 | Continue, shown only while a logo or an icon is set, switches to the colour phase and keeps the choice; the colour phase is therefore never reached without one |
| `BrandingStep.Branding.ToLogoPhase` | components/interactive-tutorial/tutorial-steps/index.tsx:956 | Back returns to the logo phase and keeps the choice |
| `DemoFlow.DownloadCompletionEffect` | components/interactive-tutorial/tutorial-steps/index.tsx:106-113 | the effect fires exactly when one featured app has completed; it sets the demo's `selectedApp` to that app's identifier and advances the demo by one step, leaving the company name, brand colour and app selection as they were; otherwise the demo is unchanged |
| `DemoFlow.InstallGrafana` | components/interactive-tutorial/tutorial-steps/index.tsx:83-103 | one click on Grafana's Install button and seven ticks of 14.5 leave Grafana as the only completed app |
| `DemoFlow.InstallGrafanaThenManageVersions` | components/interactive-tutorial/marketplace-demo.tsx:24-59 | from a fresh demo, installing Grafana with the handler as written ends on the versions step with `selectedApp == "grafana"`, which the version screen can show |
| `MultiplierStages.Stages` | components/story-section.tsx:79-154 | the table has 41 entries |
| `MultiplierStages.GenerateStages` | components/story-section.tsx:79-154 | the four push loops build exactly `Stages()`, whose entry k has level `10 + k` tenths |
| `MultiplierStages.StageLevels` | components/story-section.tsx:82-152 | levels rise strictly from 1.0 to 5.0 in steps of 0.1; entries 0-10 are Hardware, 11-20 Software, 21-30 Advanced, 31-40 Premium |
| `MultiplierStages.StageBlurbs` | components/story-section.tsx:87-141 | entries 10, 20, 30 and 40 carry the era's milestone text; the first loop reports `(i + 1) * 10`% (100% at level 1.9), the others `i * 10`% |
| `ROICalculator.Projections` | components/story-section.tsx:197-207 | null exactly for a falsy revenue; otherwise additional `b(m-1)`, cost `0.15b` (never 0), projected `bm`, roi `(additional - cost)/cost*100` |
| `ROICalculator.ProjectionIdentities` | components/story-section.tsx:199-205 | projected = base + additional, and the ROI is `(m - 1.15)/0.15*100` for every nonzero revenue, negative ones included |
| `ROICalculator.RoiPositiveFromLevel12` | components/story-section.tsx:205 | the ROI is positive exactly from multiplier 1.2 on |
| `ROICalculator.ProjectionExample` | components/story-section.tsx:197-207 | revenue 10000 at 2.0x: additional 10000, cost 1500, projected 20000, ROI 1700/3 (about 566.67) |
| `ROICalculator.FindCategory` | components/story-section.tsx:349-352 | `find` returns a listed category whose range contains `m`, or nothing exactly when none does |
| `ROICalculator.CurrentCategory` | components/story-section.tsx:342-354 | a card shows exactly for 1.0 <= m < 5.0, and its one-unit range contains `m` |
| `ROICalculator.CategoriesDisjoint` | components/story-section.tsx:342-347 | the four half-open ranges are disjoint, so at most one matches |
| `ROICalculator.CategoryExamples` | components/story-section.tsx:342-352 | 1.0 gives Hardware Product, 2.5 Connected Product, 3.99 Intelligent Product, 4.9 Software Platform, and 5.0 gives no card |
| `ROICalculator.StageCategories` | components/story-section.tsx:349-354 | every stage level except the last has a card; the last level (5.0) has none |
| `ROICalculator.BarWidth` | components/story-section.tsx:457-458 | the in-range bar width `(m - lo)/(hi - lo)*100` lies in [0, 100) |
| `ROICalculator.FractionBelowOne` | components/story-section.tsx:457-458 | `x/d` lies in [0, 1) for `0 <= x < d` |
| `ROICalculator.TicksStayInTable` | components/story-section.tsx:172-187 | no sequence of timer firings lowers the stage index or takes it past the last entry |
| `ROICalculator.WalkAdvances` | components/story-section.tsx:172-177 | while animating, n firings from entry k lead to entry k + n, up to the last entry |
| `ROICalculator.WalkCompletes` | components/story-section.tsx:172-185 | a walk started at entry 0 reaches entry 40 after 40 firings and stops animating at the 41st |
| `ROICalculator.AfterTicksSplit` | components/story-section.tsx:172-187 | n + 1 firings are n firings followed by one more |
| `ROICalculator.Calculator.constructor` | components/story-section.tsx:164-170 | revenue null, multiplier 1.0, not started, stage 0, not animating |
| `ROICalculator.Calculator.SetBaseRevenue` | components/story-section.tsx:279 | the input stores `Number(value)` and changes nothing else |
| `ROICalculator.Calculator.StartJourney` | components/story-section.tsx:189-195 | ignored for a null or zero revenue; otherwise started, animating, stage 0 and multiplier 1.0 |
| `ROICalculator.Calculator.Tick` | components/story-section.tsx:172-187 | the stage and animation flag follow `WalkTick`: while animating below entry 40 the stage goes up by one; at entry 40 animation stops; `softwareMultiplier == stages[currentStage].level` is kept |
| `ROICalculator.Calculator.CurrentProjections` | components/story-section.tsx:197-209 | the shown projections exist iff the revenue is truthy, and all four of them are the projections at the current stage's level |

## Left out

- Rendering and animation are not modelled: JSX layout, framer-motion, Tailwind classes, images, icons, `getVersionTypeColor`, and the stage-progress markers (components/story-section.tsx:365-377). They only display the modelled state.
- Timer delays and cleanup are not modelled: the 200/500/1000 ms delays and unmount cleanup. Each timer firing is a method call, and the caller chooses the order of firings.
- `Math.random()` is not modelled. Each increment is a parameter in [0, 15).
- IEEE floating point is not modelled. Levels are exact tenths, so drift such as `1 + 3 * 0.1` does not arise. `toFixed` and `toLocaleString` formatting is left out, so stage titles are an era plus a level. The stages' description texts and feature lists are reduced to the `Blurb` (milestone or progress percentage), and the colours to the era.
- A NaN revenue is not modelled. `Number(...)` of a non-numeric input gives NaN, which is falsy. Here the input is a `real`, so only null and 0 are falsy.
- `VersionManagementStep.ToLower`: only ASCII letters are lower-cased, unlike Unicode `toLowerCase`.
- `VersionManagementStep.Lookup`: only the table's own keys are found. In JavaScript, keys inherited from `Object.prototype` (such as `constructor`) would also find a truthy value.
- `DemoFlow.DownloadCompletionEffect`: the effect is modelled as running once. React re-runs it after every render while one app is completed, because `mainApps` is a new array each render. Each re-run schedules another `onComplete`, and every one of them writes index 1.
- `VersionManagementStep.VersionManagement.Tick`: the delayed `onComplete` is reported as `completes` and is not sent to the demo. Its effect on the demo is modelled separately by `MarketplaceDemo.Demo.CompleteFromEarlierRender`.
- The `FileReader` read of an uploaded logo is browser I/O and is not modelled. The logo is an opaque string handed to `LogoLoaded`.
- The version interval is not modelled as a separate value. It runs exactly while `updating` holds, so `Tick` requires `updating`.
- The purely visual `isTyping` blur of the store step is not modelled. `isTyping` is kept as state.
- components/interactive-tutorial/tutorial-steps/select-apps.tsx is not part of this model. It is an unused duplicate of the selection step.
- components/hero.tsx, components/mode-toggle.tsx, story.tsx, navbar.tsx, footer.tsx, pricing.tsx, flecselerator.tsx, product-journey.tsx, ui/mac-window.tsx, app/page.tsx, app/layout.tsx and layout.tsx are not part of this model. They hold layout, theming and DOM geometry only.

## Findings

| source | as written | input that shows it | evidently intended | confidence | as-written member | corrected member |
|---|---|---|---|---|---|---|
| components/interactive-tutorial/tutorial-steps/index.tsx:84 | `handleDownload` only refuses completed apps, and the installing app's button stays enabled. A second click starts a second interval and overwrites the recorded one, so one interval is never cleared. | Click Install on Grafana twice, then let one interval reach 100 and tick it once more: `completed == [1, 1]` | a click on the installing app is ignored, so `completed` has no duplicates | not executed; high | `AppDownloadStep.ReclickAppendsTwice` | `AppDownloadStep.AppDownload.DownloadGuarded` |
| components/interactive-tutorial/tutorial-steps/index.tsx:530 | the 500 ms ready timer is neither cancelled when the field is emptied nor checks the field when it fires | type "a", delete it within 500 ms, and the timer fires: `isReady` is true with an empty name | the create button appears only for a non-empty name | not executed; high | `CreateStoreStep.ReadyWithEmptyName` | `CreateStoreStep.CreateStore.ReadyTimerFiresChecked` |
| components/interactive-tutorial/tutorial-steps/index.tsx:353 | the version step's `setTimeout(onComplete, 1000)` is never cleared. It calls the completion callback that saw index 1, which sets the index to `1 + 1` whenever it fires. | finish the update, press Continue, type a name, wait for Create and press it, all within one second: the index goes 3 → 2 | the step index never decreases | not executed; medium (needs a fast user) | `MarketplaceDemo.StaleCompletionMovesBack` | `MarketplaceDemo.Demo.Advance` |
