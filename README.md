# Proxifier toggler: a verified model of its control core

The tool is a Windows tray utility that switches Proxifier on and off.
Proxifier has two parts: a driver service and a user process. This project
models, in Dafny, the logic that decides what to do with them and what the
user sees:

- the tray menu's toggle, a state machine over the raw service status, and
  the tray icon cache and refresh (`tray.dfy`, module `TrayIcon`);
- the status panel of the main window: its own toggle, which decides from the
  text of the service badge, the monitor loop and its `_sync_ui` step, the
  loading animation and the lifecycle flags (`status_frame.dfy`, module
  `StatusFrame`);
- the configuration manager: loading with default keys filled in, partial
  updates and the accessors (`config.dfy`, module `ConfigManager`);
- the process probe and driver: match by executable base name, as a
  case-insensitive substring of the task-list output, and the kill and
  launch commands (`process.dfy`, module `Process`);
- the style tables: status colours, the appearance-mode toggle and the preset
  merge of `StyledButton` (`styles.dfy`, module `CtkStyles`).

`common.dfy` holds Python's substring test and `str.lower()`. `system.dfy`
holds the collaborators the core calls but does not contain: the service
manager (`service.py` is not part of this model), subprocess, `time.sleep`
and the tray balloon. Each call is appended, in order, to the trace of a
`Host`. What a call answers is a parameter of the operation that issues it.

Objects whose fields the program updates in place are classes:
`TrayIcon.Tray` holds the module-level icon cache and icon instance,
`TrayIcon.Icon` the pystray icon, `StatusFrame.StatusPanel` the panel,
`ConfigManager.ConfigStore` the configuration file, and
`CtkStyles.StyledButton` the merged button options. Their methods are
proved against pure functions (`ToggleCalls`, `WorkerCalls`, `Synced`,
`Run`, `WithDefaults`, `Apply`, `CacheAfter`). The properties are proved
about those functions as lemmas.

On a status other than `RUNNING`, `STOPPED` or `NOT_INSTALLED` the tray only
warns (`TrayUnknownStatus`). The panel's toggle starts the service for every
badge text that contains neither `RUNNING` nor `运行中`, including unknown
statuses and the loading texts (`PanelOnOtherStatus`,
`LoadingLabelsActivate`). The monitor loop catches a status query that raises,
so a poll's status answer is optional.

## Model

| member | source | states |
|---|---|---|
| Common.Contains | src/core/process.py:23 | Python's `in` on strings: the needle starts the haystack or one of its tails; it holds exactly when the needle occurs at some position (`OccursImpliesContains`, `ContainsImpliesOccurs`) |
| Common.OccursImpliesContains | src/core/process.py:23 | every positional occurrence of the needle is found by the substring test |
| Common.ContainsImpliesOccurs | src/core/process.py:23 | the substring test holds only when the needle occurs at some position |
| Common.ContainsInfix | src/core/process.py:23 | a string built as before + needle + after contains the needle |
| Common.NotContainsWithoutHead | src/core/process.py:23 | a non-empty needle whose first character never occurs is not contained |
| Common.ContainsAfterPrefix | src/gui/widgets/status_frame.py:194 | a prefix that cannot start the needle does not change containment |
| Common.LowerChar | src/core/process.py:23 | each ASCII capital maps to its own lower-case letter (code point plus 32); every other character is kept |
| Common.Lower | src/core/process.py:23 | lower-casing keeps the length and maps each character |
| Common.LowerIdempotent | src/gui/ctk_styles.py:262 | lower-casing twice is lower-casing once |
| Common.LowerConcat | src/core/process.py:23 | lower-casing distributes over concatenation |
| Process.Basename | src/core/process.py:10 | `os.path.basename` on a Windows path: after any drive letter, the text after the last `\` or `/` (`BasenameIsSuffix`, `BasenameIgnoresDirectory`) |
| Process.TailIsLastComponent | src/core/process.py:10 | the text after the last separator is a separator-free suffix, preceded by a separator when shorter than the whole |
| Process.BasenameIsSuffix | src/core/process.py:10 | the base name is a separator-free suffix of the path |
| Process.TailAfterSep | src/core/process.py:10 | a separator-free name after a separator is the whole tail |
| Process.BasenameIgnoresDirectory | src/core/process.py:10 | the directory part never affects the base name |
| Process.TailLower | src/core/process.py:10-23 | taking the tail and lower-casing commute |
| Process.BasenameLower | src/core/process.py:10-23 | taking the base name and lower-casing commute |
| Process.TasklistCommand | src/core/process.py:16-17 | the task-list query, filtered on the image name equal to the base name, without a header line |
| Process.IsProxifierRunning | src/core/process.py:7-25 | a raised task-list query reads as not running |
| Process.DetectionMeansOccurrence | src/core/process.py:23 | an answered query reads as running iff the lower-cased base name occurs at some position of the lower-cased output |
| Process.DetectionUsesBaseNameOnly | src/core/process.py:10-23 | two paths with the same file name in different directories are detected alike |
| Process.DetectionIgnoresCase | src/core/process.py:23 | detection ignores the letter case of the path and of the listing |
| Process.DetectionFindsListedName | src/core/process.py:16-23 | a listing that mentions the base name, with any surrounding text, reads as running |
| Process.EmptyNameMatchesEveryListing | src/core/process.py:10-23 | a path ending in a separator has an empty base name, and every answered query then reads as running |
| Process.KillCommand | src/core/process.py:48 | the forced kill of every process whose image name is the base name (`KillCommandNamesFile`) |
| Process.KillCommandNamesFile | src/core/process.py:46-48 | the kill command is "taskkill /f /im " followed by the file name, whatever the directory |
| Process.LaunchCommand | src/core/process.py:35-39 | the launch command is the full path, unchanged, between two double quotes |
| Process.KillProxifier | src/core/process.py:46-48 | exactly one elevated kill command is issued |
| Process.StartProxifier | src/core/process.py:28-43 | exactly one launch is issued; the result is true iff the launch did not raise |
| Process.ProbeProxifier | src/core/process.py:7-25 | one filtered task-list query naming the base name; the answer is the detection rule |
| ConfigManager.WithDefaults | src/config/manager.py:49-52 | the loaded object with every missing default key added and every loaded key kept (`WithDefaultsFillsOnlyMissing`, `WithDefaultsIdempotent`, `FillDefaults`) |
| ConfigManager.Loaded | src/config/manager.py:37-57 | a missing or unreadable file loads as a copy of the defaults; a parsed file loads as its object with the defaults filled in (`LoadedHasEveryDefaultKey`) |
| ConfigManager.Apply | src/config/manager.py:87-99 | each argument that is not None overwrites its own key; nothing else changes (`UpdateWritesOnlyGivenKeys`) |
| ConfigManager.Get | src/config/manager.py:73-82 | `dict.get` with the default value as fallback (`AccessorReadsLoadedValue`) |
| ConfigManager.DefaultKeysAreTheDefaults | src/config/manager.py:8-13 | the loop's key list is exactly the key set of the defaults |
| ConfigManager.WithDefaultsFillsOnlyMissing | src/config/manager.py:49-52 | loaded keys keep their values; exactly the missing default keys are added |
| ConfigManager.WithDefaultsIdempotent | src/config/manager.py:49-52 | filling defaults twice is filling them once |
| ConfigManager.LoadedHasEveryDefaultKey | src/config/manager.py:37-57 | every load result holds every default key; a missing or unreadable file yields the defaults |
| ConfigManager.ReloadIsStable | src/config/manager.py:37-70 | saving a loaded configuration and loading it again gives it back |
| ConfigManager.UpdateWritesOnlyGivenKeys | src/config/manager.py:85-99 | an update writes exactly the keys whose argument is not None and leaves every other key unchanged |
| ConfigManager.UpdateThenLoad | src/config/manager.py:85-101 | after an update is saved, the next load returns the updated configuration |
| ConfigManager.AccessorReadsLoadedValue | src/config/manager.py:73-82 | an accessor returns the loaded value, the file's own value when present, the default when there is no readable file |
| ConfigManager.FillDefaults | src/config/manager.py:50-52 | the fill loop computes the loaded object with the missing defaults added |
| ConfigManager.ConfigStore.SaveConfig | src/config/manager.py:60-70 | true and the file written when the write succeeds; false and the file unchanged when it fails |
| ConfigManager.FileAfterLoad | src/config/manager.py:41-43 | a load changes the file only when it was missing, and then to the defaults; a load after it returns the same configuration |
| ConfigManager.ConfigStore.LoadConfig | src/config/manager.py:37-57 | returns the load result; the defaults are written only when the file was missing and their save succeeds |
| ConfigManager.ConfigStore.UpdateConfig | src/config/manager.py:85-101 | returns what the final save returned; on success the file is the updated load result, on failure it is what the load left, which holds the defaults when the file was missing and their save succeeded |
| ConfigManager.ConfigStore.GetSetting | src/config/manager.py:73-82 | load, then the value under the key or its default |
| ConfigManager.ConfigStore.GetProxifierExePath | src/config/manager.py:73-76 | the executable path setting with default fallback |
| ConfigManager.ConfigStore.GetServiceName | src/config/manager.py:79-82 | the service name setting with default fallback |
| ConfigManager.ConfigStore.GetAutoStart | src/config/manager.py:104-107 | the auto-start setting with default fallback |
| ConfigManager.ConfigStore.GetStartMinimized | src/config/manager.py:110-113 | the start-minimized setting with default fallback |
| CtkStyles.ToggleAppearanceMode | src/gui/ctk_styles.py:241-246 | the new mode is "light" iff the current mode is "Dark", else "dark" |
| CtkStyles.ToggleTwiceRestores | src/gui/ctk_styles.py:241-246 | toggling twice returns to the mode one started from |
| CtkStyles.GetStatusColors | src/gui/ctk_styles.py:249-276 | success/running/active, danger/error/stopped/inactive and warning/pending get the success, danger and warning foregrounds, each in both directions, with the dark or light background of their category by the explicit or else current mode; any other status gets the dark or light text and hover pair |
| CtkStyles.StatusColorsIgnoreCase | src/gui/ctk_styles.py:262-270 | the colours depend only on the lower-cased status |
| CtkStyles.StatusColorsFollowMode | src/gui/ctk_styles.py:259-260 | an explicit mode wins; without one the current mode decides |
| CtkStyles.PresetFor | src/gui/ctk_styles.py:286-293 | "primary", "success" and "danger" select their presets; any other name selects the secondary one |
| CtkStyles.SetDefaults | src/gui/ctk_styles.py:296-297 | the merged keys are the caller's plus the preset's; the caller's values always win; other keys take the preset value |
| CtkStyles.PresetPrefixExtends | src/gui/ctk_styles.py:296-297 | one more preset entry adds its key and keeps the earlier values |
| CtkStyles.StyledButton.constructor | src/gui/ctk_styles.py:285-297 | the options are the caller's options merged over the preset of the style; unknown styles take the secondary preset |
| TrayIcon.ImageFor | src/gui/tray_icon.py:20-48 | the cached image for the key, else the image of the key's own file when it loads, else the transparent placeholder (`CacheIsSticky`) |
| TrayIcon.CacheAfter | src/gui/tray_icon.py:27-48 | the cache stays valid: both keys, each empty or holding its own file's image |
| TrayIcon.CacheIsSticky | src/gui/tray_icon.py:27-48 | a loaded image is returned by every later call; the placeholder is returned only when nothing is cached and is never cached |
| TrayIcon.Icon.SetImage | src/gui/tray_icon.py:63-64 | assigning the image repaints the icon once |
| TrayIcon.TrayIntent | src/gui/tray_icon.py:79-105 | RUNNING leads to switching off, STOPPED and NOT_INSTALLED to switching on, any other status to a warning |
| TrayIcon.ToggleCalls | src/gui/tray_icon.py:79-105 | the notices and control calls of the selected branch, in program order, given what the collaborators answered (`TrayDeactivation`, `TrayActivation`, `TrayUnknownStatus`) |
| TrayIcon.TrayDeactivation | src/gui/tray_icon.py:78-89 | on RUNNING, one kill then one stop, nothing started; the "closed" notice appears iff stopping succeeded |
| TrayIcon.TrayActivation | src/gui/tray_icon.py:91-103 | on STOPPED or NOT_INSTALLED, the service start comes before any other control call; nothing killed or stopped; the process is launched, after it, iff the start succeeded |
| TrayIcon.TrayUnknownStatus | src/gui/tray_icon.py:104-105 | on any other status, no control call, one warning that names the status |
| TrayIcon.Tray.constructor | src/gui/tray_icon.py:13-17 | the cache starts empty under both keys |
| TrayIcon.Tray.CreateImage | src/gui/tray_icon.py:20-48 | the cached image, else the loaded one (now cached), else the placeholder |
| TrayIcon.Tray.UpdateIconState | src/gui/tray_icon.py:51-64 | one status query; the image is the active one iff the status is RUNNING; a repaint happens iff the image changed |
| TrayIcon.Tray.RefreshTrayIcon | src/gui/tray_icon.py:67-70 | nothing happens without a registered icon; otherwise one status query, the active image iff RUNNING, and a repaint iff the image changed |
| TrayIcon.Tray.ToggleProxifierState | src/gui/tray_icon.py:73-108 | one status query, the branch's calls, then exactly one icon update: the active image iff the final status is RUNNING, and a repaint iff the image changed |
| TrayIcon.SwitchProxifier | src/gui/tray_icon.py:78-105 | the calls of the branch taken on the queried status |
| StatusFrame.SubtleBg | src/gui/widgets/status_frame.py:323-344 | the success, danger and warning foregrounds each get their own soft background, and every other colour the neutral hover pair, each in both directions |
| StatusFrame.SubtleBgMatchesStatusColors | src/gui/widgets/status_frame.py:323-344 | the panel's soft background equals the background the colour table pairs with the same foreground, in both modes |
| StatusFrame.ServiceBadge | src/gui/widgets/status_frame.py:256-298 | the badge is green iff the status is RUNNING, orange iff NOT_INSTALLED, and its background matches its colour |
| StatusFrame.ProcessBadge | src/gui/widgets/status_frame.py:300-321 | the badge is green iff the process runs |
| StatusFrame.Repeat | src/gui/widgets/status_frame.py:169 | k copies of one character |
| StatusFrame.Dots | src/gui/widgets/status_frame.py:169 | the dot string has length loading_dots % 4, at most three |
| StatusFrame.LoadingLabel | src/gui/widgets/status_frame.py:169-176 | the loading text: "正在获取" followed by the current dots |
| StatusFrame.Deactivates | src/gui/widgets/status_frame.py:194 | the toggle stops when the badge text contains `RUNNING` or `运行中` (`PanelAgreesWithTray`, `PanelOnOtherStatus`, `LoadingLabelsActivate`) |
| StatusFrame.WorkerCalls | src/gui/widgets/status_frame.py:192-205 | the stopping calls when `Deactivates` holds of the badge text, the starting calls otherwise |
| StatusFrame.StopCalls | src/gui/widgets/status_frame.py:194-198 | the kill, then the half-second settle and the service stop unless the kill raised (`PanelDeactivation`) |
| StatusFrame.StartCalls | src/gui/widgets/status_frame.py:199-202 | the service start, then the launch iff the start returned true (`PanelActivation`) |
| StatusFrame.PanelAgreesWithTray | src/gui/widgets/status_frame.py:185-202 | on RUNNING, STOPPED and NOT_INSTALLED the panel stops iff the tray would stop |
| StatusFrame.PanelOnOtherStatus | src/gui/widgets/status_frame.py:194-202 | on other statuses the panel decides from the status text, where the tray only warns |
| StatusFrame.LoadingLabelsActivate | src/gui/widgets/status_frame.py:146-181 | a badge still fetching always leads to starting |
| StatusFrame.PanelDeactivation | src/gui/widgets/status_frame.py:194-198 | the kill comes first and once; the stop follows a 0.5 s settle only when the kill did not raise; nothing is started |
| StatusFrame.PanelActivation | src/gui/widgets/status_frame.py:199-202 | the service start comes first; nothing is killed or stopped; the launch follows iff the start returned true |
| StatusFrame.Synced | src/gui/widgets/status_frame.py:234-321 | nothing changes once monitoring stopped or the widget is gone; otherwise the status is recorded, the process field is RUNNING iff running and STOPPED otherwise, and both badges are redrawn |
| StatusFrame.Refreshes | src/gui/widgets/status_frame.py:237-252 | the tray is refreshed iff monitoring is on, the widget exists and the status differs from the recorded one |
| StatusFrame.SyncIsIdempotent | src/gui/widgets/status_frame.py:243-252 | syncing the same answer again changes nothing and does not refresh the tray |
| StatusFrame.SyncEndsAnimation | src/gui/widgets/status_frame.py:163-181 | the first real answer, or stopping the monitor, ends the loading animation |
| StatusFrame.AfterEvent | src/gui/widgets/status_frame.py:216-230 | a stop turns monitoring off; a raising status query leaves the panel as it was; an answer syncs the panel with it and the probe's result |
| StatusFrame.PollCalls | src/gui/widgets/status_frame.py:219-230 | one answered pass: the status query, the task-list query, the tray refresh iff `Refreshes`, then the two-second sleep |
| StatusFrame.CycleCalls | src/gui/widgets/status_frame.py:216-230 | the calls of one pass: none for a stop, query then sleep when the query raised, `PollCalls` otherwise |
| StatusFrame.Run | src/gui/widgets/status_frame.py:216-230 | the loop over the events: it runs while monitoring is on, each pass's calls follow the previous ones (`MonitorOnlyQueries`, `NothingAfterStop`, `SteadyStatusRefreshesOnce`) |
| StatusFrame.MonitorOnlyQueries | src/gui/widgets/status_frame.py:214-232 | the loop runs only while monitoring, never issues a control call, and refreshes the tray at most once per cycle |
| StatusFrame.CycleOnlyQueries | src/gui/widgets/status_frame.py:216-230 | one cycle issues no control call and at most one tray refresh |
| StatusFrame.NothingAfterStop | src/gui/widgets/status_frame.py:346-348 | after stop_monitoring the loop issues nothing more and the earlier cycles are unaffected |
| StatusFrame.SteadyStatusRefreshesOnce | src/gui/widgets/status_frame.py:243-252 | a stream of identical answers refreshes the tray once if the recorded status differed, else never |
| StatusFrame.StatusPanel.constructor | src/gui/widgets/status_frame.py:12-31 | monitoring on, both fields LOADING, the first animation frame shown, the button idle |
| StatusFrame.StatusPanel.AnimateLoading | src/gui/widgets/status_frame.py:163-181 | while monitoring, each LOADING field shows the fetching text with the current dots; the counter advances and the next frame is scheduled iff some field is LOADING |
| StatusFrame.StatusPanel.HandleToggle | src/gui/widgets/status_frame.py:183-190 | the job carries the badge text and the settings with their fallbacks; the button is disabled |
| StatusFrame.StatusPanel.RunToggle | src/gui/widgets/status_frame.py:192-210 | the worker's calls, then the button enabled again whatever happened |
| StatusFrame.StatusPanel.SyncUi | src/gui/widgets/status_frame.py:234-321 | the panel becomes the synced panel; the tray is refreshed iff the service status changed |
| StatusFrame.StatusPanel.MonitorStep | src/gui/widgets/status_frame.py:216-230 | one event of the loop: its calls and its effect on the panel |
| StatusFrame.StatusPanel.PollStep | src/gui/widgets/status_frame.py:218-230 | status query, process probe, sync and sleep, in this order |
| StatusFrame.StatusPanel.MonitorCycle | src/gui/widgets/status_frame.py:216-230 | one loop pass is one step of the run over the remaining events |
| StatusFrame.StatusPanel.MonitorLoop | src/gui/widgets/status_frame.py:214-232 | the loop's calls and final panel are those of the run over the events |
| StatusFrame.StatusPanel.StopMonitoring | src/gui/widgets/status_frame.py:346-348 | monitoring off, nothing else changed |
| StatusFrame.StatusPanel.UpdateConfig | src/gui/widgets/status_frame.py:350-355 | new settings, both fields LOADING, the animation restarted iff the widget exists and monitoring is on |
| StatusFrame.RunWorker | src/gui/widgets/status_frame.py:192-205 | the worker issues the calls of the branch its badge text selects |
| StatusFrame.StopWorker | src/gui/widgets/status_frame.py:194-198 | kill, then settle and stop unless the kill raised |
| StatusFrame.StartWorker | src/gui/widgets/status_frame.py:199-202 | service start, then launch iff it returned true |

## Left out

- Threads, `self.after` scheduling and real sleeping: the toggle worker runs as one sequential call after `HandleToggle`. The monitor loop runs over a finite sequence of events. A sync runs at once instead of being queued on the UI thread. Sleeps appear only as calls in the trace.
- The monitor loop reads the settings once per run in the model. In the program it reads them every cycle, so an `update_config` between two cycles is not modelled inside one run.
- `service.py` is not part of this model. Its four operations are calls in the trace, and their answers are parameters.
- Common.Lower, Common.LowerChar: model only ASCII case mapping; Python's `str.lower()` maps all of Unicode.
- Process.Basename: strips a drive letter and takes the text after the last `\` or `/`. UNC drive prefixes of `ntpath.splitdrive` are not modelled.
- Non-string JSON values in the panel's settings: the panel's configuration is a map of strings, so the model cannot represent a non-string executable path. In the program such a path makes `os.path.basename` raise inside the probe, which then returns False (not running). The same raise happens while the kill command is being built, so the worker issues no elevated kill and skips the settle and the stop; the model's nearest case, a raising kill, still records the elevated kill call, which the program never makes here. The launch formats the value as text into its command. A non-string service name goes only to `service.py`, which is not part of this model.
- JSON values other than strings, booleans, integers and null (floats, arrays, objects), and a JSON file whose top level is not an object.
- Directory creation, file existence checks and the JSON encoding itself: the configuration file is one of missing, unreadable or parsed, and a save either succeeds or fails as a whole.
- Exceptions in the tray toggle path: the collaborators there are assumed to return. In the panel worker, only a raising kill changes the trace; a raising service start or stop ends the worker at a point where nothing more would have been issued anyway.
- Image content: a tray image is its file name or the transparent placeholder. The check `if _icon_images[key]` is taken as "an image was cached".
- The tray's configuration reads (`get_service_name`, `get_proxifier_exe_path`) are taken as the name and path parameters of the tray operations.
- Widget construction, layout, fonts and the other windows and frames, `settings.py`, `admin.py`, `dpi_fix.py`, the icon scripts and `main.py`.
