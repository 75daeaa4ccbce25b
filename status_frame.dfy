/** The status panel of the main window (src/gui/widgets/status_frame.py):
    two status badges fed by a monitor loop, a loading animation that runs
    while either badge still waits for its first answer, and a toggle button
    whose worker decides from the text the service badge shows. */
module StatusFrame {
  import opened Common
  import opened System
  import opened CtkStyles
  import Process
  import TrayIcon

  /** `last_status`: the service status and the process state last shown. */
  datatype Composite = Composite(service: string, process: string)

  const Loading := Composite("LOADING", "LOADING")

  /** A badge background: transparent, or a (light, dark) colour pair. */
  datatype Fill = Transparent | Shade(light: string, dark: string)

  /** The colour a fill shows in the given mode. */
  function Pick(fill: Fill, dark: bool): string
  {
    match fill
    case Transparent => "transparent"
    case Shade(light, darkColor) => if dark then darkColor else light
  }

  /** A status item: the label text, the colour shared by the label and its
      indicator dot, and the badge background. */
  datatype Badge = Badge(text: string, color: string, fill: Fill)

  /** The badge as `_setup_ui` creates it. */
  const Fetching := Badge("正在获取...", TextSecondaryDark, Transparent)

  const IdleText := "⚡  切换服务状态"
  const BusyText := "⏳  正在处理..."

  /** `_get_subtle_bg`: the soft background that goes with a foreground colour. */
  function SubtleBg(color: string): (fill: Fill)
    ensures fill.Shade?
    ensures color == SuccessFg <==> fill == Shade(SuccessBg, SuccessBgDark)
    ensures color == WarningFg <==> fill == Shade(WarningBg, WarningBgDark)
    ensures color == DangerFg <==> fill == Shade(DangerBg, DangerBgDark)
    ensures color != SuccessFg && color != DangerFg && color != WarningFg <==> fill == Shade(HoverLight, HoverDark)
  {
    if color == SuccessFg then Shade(SuccessBg, SuccessBgDark)
    else if color == DangerFg then Shade(DangerBg, DangerBgDark)
    else if color == WarningFg then Shade(WarningBg, WarningBgDark)
    else Shade(HoverLight, HoverDark)
  }

  /** The panel's soft backgrounds are the backgrounds `get_status_colors`
      pairs with the same foreground, in either mode. */
  lemma SubtleBgMatchesStatusColors(status: string, dark: bool, currentMode: string)
    ensures var colors := GetStatusColors(status, Some(dark), currentMode);
      colors.1 == Pick(SubtleBg(colors.0), dark)
  {
  }

  /** The service badge `_sync_ui` shows for a status. */
  function ServiceBadge(status: string): (b: Badge)
    ensures b.fill == SubtleBg(b.color)
    ensures b.color == SuccessFg <==> status == "RUNNING"
    ensures b.color == WarningFg <==> status == "NOT_INSTALLED"
  {
    if status == "RUNNING" then Badge("✓  RUNNING", SuccessFg, SubtleBg(SuccessFg))
    else if status == "STOPPED" then Badge("⏸  STOPPED", TextSecondaryDark, SubtleBg(TextSecondaryDark))
    else if status == "NOT_INSTALLED" then Badge("⚠  未安装", WarningFg, SubtleBg(WarningFg))
    else Badge("●  " + status, TextSecondaryDark, SubtleBg(TextSecondaryDark))
  }

  /** The process badge `_sync_ui` shows. */
  function ProcessBadge(running: bool): (b: Badge)
    ensures b.fill == SubtleBg(b.color)
    ensures b.color == SuccessFg <==> running
  {
    if running then Badge("✓  运行中", SuccessFg, SubtleBg(SuccessFg))
    else Badge("⏸  已停止", TextSecondaryDark, SubtleBg(TextSecondaryDark))
  }

  /** `k` copies of `c`. */
  function Repeat(c: char, k: nat): (r: string)
    ensures |r| == k
    ensures forall i :: 0 <= i < k ==> r[i] == c
  {
    if k == 0 then [] else [c] + Repeat(c, k - 1)
  }

  /** The dots of the loading animation: between none and three. */
  function Dots(n: nat): (d: string)
    ensures |d| == n % 4 && |d| <= 3
    ensures forall i :: 0 <= i < |d| ==> d[i] == '.'
  {
    Repeat('.', n % 4)
  }

  function LoadingLabel(n: nat): string
  {
    "正在获取" + Dots(n)
  }

  /** The toggle's test on the service badge text: stop when it shows a
      running service or process. */
  predicate Deactivates(shown: string)
  {
    Contains(shown, "RUNNING") || Contains(shown, "运行中")
  }

  /** On the three statuses the tray knows, the panel decides as the tray does. */
  lemma PanelAgreesWithTray(status: string)
    requires status == "RUNNING" || status == "STOPPED" || status == "NOT_INSTALLED"
    ensures Deactivates(ServiceBadge(status).text) <==> TrayIcon.TrayIntent(status) == TrayIcon.Deactivate
  {
    var text := ServiceBadge(status).text;
    if status == "RUNNING" {
      assert text == "✓  " + "RUNNING" + "";
      ContainsInfix("✓  ", "RUNNING", "");
    } else {
      assert forall i :: 0 <= i < |text| ==> text[i] != 'R' && text[i] != '运';
      NotContainsWithoutHead(text, "RUNNING");
      NotContainsWithoutHead(text, "运行中");
    }
  }

  /** On any other status the tray only warns, while the panel decides from
      the status text itself: it starts the service unless the status
      happens to contain one of the markers. */
  lemma PanelOnOtherStatus(status: string)
    requires TrayIcon.TrayIntent(status) == TrayIcon.Warn
    ensures Deactivates(ServiceBadge(status).text) <==> Deactivates(status)
  {
    ContainsAfterPrefix("●  ", status, "RUNNING");
    ContainsAfterPrefix("●  ", status, "运行中");
  }

  /** A badge still waiting for its first answer always starts the service. */
  lemma LoadingLabelsActivate(n: nat)
    ensures !Deactivates(LoadingLabel(n)) && !Deactivates(Fetching.text)
  {
    var shown := LoadingLabel(n);
    assert forall i :: 0 <= i < |shown| ==> shown[i] != 'R' && shown[i] != '运';
    NotContainsWithoutHead(shown, "RUNNING");
    NotContainsWithoutHead(shown, "运行中");
    assert forall i :: 0 <= i < |Fetching.text| ==> Fetching.text[i] != 'R' && Fetching.text[i] != '运';
    NotContainsWithoutHead(Fetching.text, "RUNNING");
    NotContainsWithoutHead(Fetching.text, "运行中");
  }

  /** What `_handle_toggle` hands to its worker thread. */
  datatype ToggleJob = ToggleJob(shown: string, name: string, path: string)

  /** The calls of the toggle worker. `killRaised` says the kill raised (the
      worker then catches it and goes no further); `start` is how the service
      start ended. */
  function WorkerCalls(job: ToggleJob, killRaised: bool, start: Reply): seq<Call>
  {
    if Deactivates(job.shown) then StopCalls(job, killRaised) else StartCalls(job, start)
  }

  function StopCalls(job: ToggleJob, killRaised: bool): seq<Call>
  {
    [RunAdmin(Process.KillCommand(job.path))]
    + (if killRaised then [] else [Sleep(500), StopService(job.name)])
  }

  function StartCalls(job: ToggleJob, start: Reply): seq<Call>
  {
    [StartService(job.name)]
    + (if start == Returned(true) then [Spawn(Process.LaunchCommand(job.path))] else [])
  }

  /** The shape of the stopping branch, for any kill and stop call. */
  lemma StopShape(kill: Call, stop: Call, killRaised: bool)
    requires kill.RunAdmin? && stop.StopService?
    ensures var t := [kill] + (if killRaised then [] else [Sleep(500), stop]);
      && t[0] == kill && multiset(t)[kill] == 1
      && (stop in t <==> !killRaised)
      && (!killRaised ==> Precedes(t, kill, Sleep(500)) && Precedes(t, Sleep(500), stop))
      && (forall c :: c in t ==> !c.StartService? && !c.Spawn?)
  {
    var t := [kill] + (if killRaised then [] else [Sleep(500), stop]);
    if !killRaised {
      assert t[1] == Sleep(500) && t[2] == stop;
    }
  }

  /** The shape of the starting branch, for any start and launch call. */
  lemma StartShape(startCall: Call, spawn: Call, start: Reply)
    requires startCall.StartService? && spawn.Spawn?
    ensures var t := [startCall] + (if start == Returned(true) then [spawn] else []);
      && t[0] == startCall && multiset(t)[startCall] == 1
      && (forall c :: c in t ==> !c.RunAdmin? && !c.StopService?)
      && (spawn in t <==> start == Returned(true))
      && (start == Returned(true) ==> Precedes(t, startCall, spawn))
  {
    var t := [startCall] + (if start == Returned(true) then [spawn] else []);
    if start == Returned(true) {
      assert t[1] == spawn;
    }
  }

  /** Stopping: the process is killed first and only once, and the service
      is stopped, after a half-second settle, only when the kill did not raise;
      nothing is started. */
  lemma PanelDeactivation(job: ToggleJob, killRaised: bool, start: Reply)
    requires Deactivates(job.shown)
    ensures var t := WorkerCalls(job, killRaised, start);
      var kill := RunAdmin(Process.KillCommand(job.path));
      && t[0] == kill && multiset(t)[kill] == 1
      && (StopService(job.name) in t <==> !killRaised)
      && (!killRaised ==> Precedes(t, kill, Sleep(500)) && Precedes(t, Sleep(500), StopService(job.name)))
      && (forall c :: c in t ==> !c.StartService? && !c.Spawn?)
  {
    StopShape(RunAdmin(Process.KillCommand(job.path)), StopService(job.name), killRaised);
  }

  /** Starting: the service start comes first, nothing is killed or stopped,
      and the process is launched, afterwards, iff the start returned true. */
  lemma PanelActivation(job: ToggleJob, killRaised: bool, start: Reply)
    requires !Deactivates(job.shown)
    ensures var t := WorkerCalls(job, killRaised, start);
      var launch := Spawn(Process.LaunchCommand(job.path));
      && t[0] == StartService(job.name) && multiset(t)[StartService(job.name)] == 1
      && (forall c :: c in t ==> !c.RunAdmin? && !c.StopService?)
      && (launch in t <==> start == Returned(true))
      && (start == Returned(true) ==> Precedes(t, StartService(job.name), launch))
  {
    StartShape(StartService(job.name), Spawn(Process.LaunchCommand(job.path)), start);
  }

  /** The part of the panel state the monitor drives. */
  datatype Panel = Panel(monitoring: bool, last: Composite, service: Badge, process: Badge)

  /** The panel after `_sync_ui`: nothing changes once monitoring stopped or
      the widget is gone; otherwise the new status and process state are
      recorded and both badges redrawn. */
  function Synced(p: Panel, status: string, running: bool, alive: bool): (q: Panel)
    ensures !(p.monitoring && alive) ==> q == p
    ensures p.monitoring && alive ==>
      && q.monitoring
      && q.last.service == status
      && (q.last.process == "RUNNING" <==> running)
      && (q.last.process == "STOPPED" <==> !running)
      && q.service == ServiceBadge(status)
      && q.process == ProcessBadge(running)
  {
    if !p.monitoring || !alive then p
    else Panel(true, Composite(status, if running then "RUNNING" else "STOPPED"),
               ServiceBadge(status), ProcessBadge(running))
  }

  /** `_sync_ui` refreshes the tray iff the service status changed. */
  predicate Refreshes(p: Panel, status: string, alive: bool)
  {
    p.monitoring && alive && p.last.service != status
  }

  /** Syncing the same answer twice changes nothing more and never refreshes
      the tray a second time. */
  lemma SyncIsIdempotent(p: Panel, status: string, running: bool, alive: bool)
    ensures Synced(Synced(p, status, running, alive), status, running, alive) == Synced(p, status, running, alive)
    ensures !Refreshes(Synced(p, status, running, alive), status, alive)
  {
  }

  /** The loading animation keeps running while monitoring and while either
      field still reads LOADING. */
  predicate Animating(p: Panel)
  {
    p.monitoring && (p.last.service == "LOADING" || p.last.process == "LOADING")
  }

  /** The first real answer ends the animation; stopping the monitor ends it too. */
  lemma SyncEndsAnimation(p: Panel, status: string, running: bool)
    requires p.monitoring && status != "LOADING"
    ensures !Animating(Synced(p, status, running, true))
    ensures !Animating(p.(monitoring := false))
  {
  }

  /** One thing that happens while the monitor thread runs: a poll (the
      service status query's answer, None if it raised; the task-list
      output, None if it raised; whether the widget still alive when the
      sync runs), or the window asking the monitor to stop. */
  datatype Event =
    | Poll(status: Option<string>, listing: Option<string>, alive: bool)
    | StopRequested

  /** The calls of one event. */
  function CycleCalls(p: Panel, name: string, path: string, e: Event): seq<Call>
  {
    match e
    case StopRequested => []
    case Poll(None, _, _) => [QueryService(name), Sleep(2000)]
    case Poll(Some(status), _, alive) => PollCalls(p, name, path, status, alive)
  }

  /** The calls of a poll whose status query answered. */
  function PollCalls(p: Panel, name: string, path: string, status: string, alive: bool): seq<Call>
  {
    [QueryService(name), QueryTasks(Process.TasklistCommand(path))]
    + (if Refreshes(p, status, alive) then [RefreshTray] else [])
    + [Sleep(2000)]
  }

  /** The panel after one event. */
  function AfterEvent(p: Panel, path: string, e: Event): Panel
  {
    match e
    case StopRequested => p.(monitoring := false)
    case Poll(None, _, _) => p
    case Poll(Some(status), listing, alive) =>
      Synced(p, status, Process.IsProxifierRunning(path, listing), alive)
  }

  /** `monitor_loop` over a sequence of events: one cycle per event while
      monitoring. */
  function Run(p: Panel, name: string, path: string, events: seq<Event>): (Panel, seq<Call>)
    decreases |events|
  {
    if events == [] || !p.monitoring then (p, [])
    else
      var rest := Run(AfterEvent(p, path, events[0]), name, path, events[1..]);
      (rest.0, CycleCalls(p, name, path, events[0]) + rest.1)
  }

  /** One cycle of `Run`. */
  lemma RunStep(p: Panel, name: string, path: string, events: seq<Event>)
    requires events != [] && p.monitoring
    ensures var rest := Run(AfterEvent(p, path, events[0]), name, path, events[1..]);
      Run(p, name, path, events) == (rest.0, CycleCalls(p, name, path, events[0]) + rest.1)
  {
  }

  /** The monitor runs only while monitoring, never starts, stops or kills
      anything, and refreshes the tray at most once per event. */
  lemma {:induction false} MonitorOnlyQueries(p: Panel, name: string, path: string, events: seq<Event>)
    ensures !p.monitoring ==> Run(p, name, path, events) == (p, [])
    ensures forall c :: c in Run(p, name, path, events).1 ==> !IsControl(c)
    ensures multiset(Run(p, name, path, events).1)[RefreshTray] <= |events|
    decreases |events|
  {
    if events != [] && p.monitoring {
      MonitorOnlyQueries(AfterEvent(p, path, events[0]), name, path, events[1..]);
      CycleOnlyQueries(p, name, path, events[0]);
    }
  }

  /** One cycle only queries and refreshes the tray at most once. */
  lemma CycleOnlyQueries(p: Panel, name: string, path: string, e: Event)
    ensures forall c :: c in CycleCalls(p, name, path, e) ==> !IsControl(c)
    ensures multiset(CycleCalls(p, name, path, e))[RefreshTray] <= 1
  {
  }

  /** After a stop request the monitor issues nothing more, and what it did
      before is what it would have done without the later events. */
  lemma {:induction false} NothingAfterStop(p: Panel, name: string, path: string,
                                            before: seq<Event>, after: seq<Event>)
    ensures var r := Run(p, name, path, before);
      Run(p, name, path, before + [StopRequested] + after) == (r.0.(monitoring := false), r.1)
    decreases |before|
  {
    var events := before + [StopRequested] + after;
    if before != [] && p.monitoring {
      assert events[0] == before[0];
      assert events[1..] == before[1..] + [StopRequested] + after;
      NothingAfterStop(AfterEvent(p, path, before[0]), name, path, before[1..], after);
    } else if before == [] {
      assert events[0] == StopRequested && events[1..] == after;
      if p.monitoring {
        var q := p.(monitoring := false);
        RunStep(p, name, path, events);
        MonitorOnlyQueries(q, name, path, after);
        var rest := Run(AfterEvent(p, path, events[0]), name, path, events[1..]);
        assert rest == (q, []);
        assert CycleCalls(p, name, path, events[0]) + rest.1 == [];
      } else {
        assert p.(monitoring := false) == p;
      }
    }
  }

  /** A stream of identical answers refreshes the tray at most once: on the
      first poll, iff the recorded status differs from the answer. */
  lemma {:induction false} SteadyStatusRefreshesOnce(p: Panel, name: string, path: string,
                                                     status: string, events: seq<Event>)
    requires p.monitoring
    requires forall i :: 0 <= i < |events| ==>
      events[i].Poll? && events[i].status == Some(status) && events[i].alive
    ensures multiset(Run(p, name, path, events).1)[RefreshTray] ==
      if events != [] && p.last.service != status then 1 else 0
    decreases |events|
  {
    if events != [] {
      var q := AfterEvent(p, path, events[0]);
      assert q.monitoring && q.last.service == status;
      SteadyStatusRefreshesOnce(q, name, path, status, events[1..]);
    }
  }

  /** `config.get(key, fallback)` on the panel's settings. */
  function Setting(config: map<string, string>, key: string, fallback: string): string
  {
    if key in config then config[key] else fallback
  }

  function ServiceName(config: map<string, string>): string
  {
    Setting(config, "service_name", "proxifierdrv")
  }

  function ExePath(config: map<string, string>): string
  {
    Setting(config, "proxifier_exe_path", "")
  }

  /** The widget's state. */
  class StatusPanel {
    var config: map<string, string>
    var isMonitoring: bool
    var lastStatus: Composite
    var loadingDots: nat
    var serviceLabel: Badge
    var processLabel: Badge
    var toggleEnabled: bool
    var toggleText: string

    function ViewOf(): Panel
      reads this
    {
      Panel(isMonitoring, lastStatus, serviceLabel, processLabel)
    }

    /** `__init__`: monitoring on, both fields LOADING, badges fetching; the
        first animation frame runs at once. The monitor thread it starts is
        `MonitorLoop`. */
    constructor(config: map<string, string>)
      ensures this.config == config && isMonitoring && lastStatus == Loading
      ensures serviceLabel == Fetching.(text := LoadingLabel(0))
      ensures processLabel == Fetching.(text := LoadingLabel(0))
      ensures loadingDots == 1 && toggleEnabled && toggleText == IdleText
    {
      this.config := config;
      isMonitoring := true;
      lastStatus := Loading;
      loadingDots := 0;
      serviceLabel := Fetching;
      processLabel := Fetching;
      toggleEnabled := true;
      toggleText := IdleText;
      new;
      var _ := AnimateLoading();
    }

    /** `_animate_loading`: while monitoring, every field still LOADING shows
        the fetching text with the current dots; the counter advances and
        the next frame is scheduled iff some field was LOADING. */
    method AnimateLoading() returns (rescheduled: bool)
      modifies this
      ensures rescheduled == Animating(old(ViewOf()))
      ensures loadingDots == old(loadingDots) + (if rescheduled then 1 else 0)
      ensures serviceLabel == if old(isMonitoring) && lastStatus.service == "LOADING"
        then old(serviceLabel).(text := LoadingLabel(old(loadingDots))) else old(serviceLabel)
      ensures processLabel == if old(isMonitoring) && lastStatus.process == "LOADING"
        then old(processLabel).(text := LoadingLabel(old(loadingDots))) else old(processLabel)
      ensures isMonitoring == old(isMonitoring) && lastStatus == old(lastStatus) && config == old(config)
      ensures toggleEnabled == old(toggleEnabled) && toggleText == old(toggleText)
    {
      if !isMonitoring {
        return false;
      }
      rescheduled := false;
      var dots := Dots(loadingDots);
      if lastStatus.service == "LOADING" {
        serviceLabel := serviceLabel.(text := "正在获取" + dots);
        rescheduled := true;
      }
      if lastStatus.process == "LOADING" {
        processLabel := processLabel.(text := "正在获取" + dots);
        rescheduled := true;
      }
      if rescheduled {
        loadingDots := loadingDots + 1;
      }
    }

    /** `_handle_toggle` on the UI thread: capture the service badge text and
        the settings, then disable the button. */
    method HandleToggle() returns (job: ToggleJob)
      modifies this
      ensures job == ToggleJob(serviceLabel.text, ServiceName(config), ExePath(config))
      ensures !toggleEnabled && toggleText == BusyText
      ensures ViewOf() == old(ViewOf()) && config == old(config) && loadingDots == old(loadingDots)
    {
      job := ToggleJob(serviceLabel.text, ServiceName(config), ExePath(config));
      toggleEnabled := false;
      toggleText := BusyText;
    }

    /** `run_toggle`: the worker's calls, then the button is enabled again
        whatever happened. */
    method RunToggle(host: Host, job: ToggleJob, killRaised: bool, start: Reply, launched: bool)
      modifies this, host
      ensures host.calls == old(host.calls) + WorkerCalls(job, killRaised, start)
      ensures toggleEnabled && toggleText == IdleText
      ensures ViewOf() == old(ViewOf()) && config == old(config) && loadingDots == old(loadingDots)
    {
      RunWorker(host, job, killRaised, start, launched);
      toggleEnabled := true;
      toggleText := IdleText;
    }

    /** `_sync_ui`: record the answers, refresh the tray iff the service
        status changed, redraw both badges. */
    method SyncUi(host: Host, status: string, running: bool, alive: bool)
      modifies this, host
      ensures ViewOf() == Synced(old(ViewOf()), status, running, alive)
      ensures host.calls == old(host.calls) + (if Refreshes(old(ViewOf()), status, alive) then [RefreshTray] else [])
      ensures config == old(config) && loadingDots == old(loadingDots)
      ensures toggleEnabled == old(toggleEnabled) && toggleText == old(toggleText)
    {
      if !isMonitoring || !alive {
        return;
      }
      var changed := lastStatus.service != status;
      lastStatus := Composite(status, if running then "RUNNING" else "STOPPED");
      if changed {
        host.Issue(RefreshTray);
      }
      serviceLabel := ServiceBadge(status);
      processLabel := ProcessBadge(running);
    }

    /** One event of the monitor loop. */
    method MonitorStep(host: Host, e: Event)
      modifies this, host
      ensures ViewOf() == AfterEvent(old(ViewOf()), ExePath(config), e)
      ensures host.calls == old(host.calls) + CycleCalls(old(ViewOf()), ServiceName(config), ExePath(config), e)
      ensures config == old(config) && loadingDots == old(loadingDots)
      ensures toggleEnabled == old(toggleEnabled) && toggleText == old(toggleText)
    {
      match e {
        case StopRequested =>
          StopMonitoring();
        case Poll(None, _, _) =>
          host.Issue(QueryService(ServiceName(config)));
          host.Issue(Sleep(2000));
        case Poll(Some(status), listing, alive) =>
          PollStep(host, status, listing, alive);
      }
    }

    /** One pass of the loop body whose status query answered: probe the
        process, sync the badges, sleep. */
    method PollStep(host: Host, status: string, listing: Option<string>, alive: bool)
      modifies this, host
      ensures ViewOf() == Synced(old(ViewOf()), status, Process.IsProxifierRunning(ExePath(config), listing), alive)
      ensures host.calls == old(host.calls) + PollCalls(old(ViewOf()), ServiceName(config), ExePath(config), status, alive)
      ensures config == old(config) && loadingDots == old(loadingDots)
      ensures toggleEnabled == old(toggleEnabled) && toggleText == old(toggleText)
    {
      host.Issue(QueryService(ServiceName(config)));
      var running := Process.ProbeProxifier(host, ExePath(config), listing);
      SyncUi(host, status, running, alive);
      host.Issue(Sleep(2000));
    }

    /** One pass of `monitor_loop`, as one step of `Run` over the events left. */
    method MonitorCycle(host: Host, name: string, path: string, events: seq<Event>)
      requires events != [] && isMonitoring
      requires name == ServiceName(config) && path == ExePath(config)
      modifies this, host
      ensures Run(old(ViewOf()), name, path, events).0 == Run(ViewOf(), name, path, events[1..]).0
      ensures old(host.calls) + Run(old(ViewOf()), name, path, events).1
        == host.calls + Run(ViewOf(), name, path, events[1..]).1
      ensures config == old(config) && loadingDots == old(loadingDots)
      ensures toggleEnabled == old(toggleEnabled) && toggleText == old(toggleText)
    {
      RunStep(ViewOf(), name, path, events);
      MonitorStep(host, events[0]);
    }

    /** `monitor_loop`: poll while monitoring. */
    method MonitorLoop(host: Host, events: seq<Event>)
      modifies this, host
      ensures var r := Run(old(ViewOf()), ServiceName(config), ExePath(config), events);
        ViewOf() == r.0 && host.calls == old(host.calls) + r.1
      ensures config == old(config) && loadingDots == old(loadingDots)
      ensures toggleEnabled == old(toggleEnabled) && toggleText == old(toggleText)
    {
      var name, path := ServiceName(config), ExePath(config);
      ghost var total := Run(ViewOf(), name, path, events);
      ghost var rest := total;
      var i := 0;
      while i < |events| && isMonitoring
        invariant 0 <= i <= |events|
        invariant config == old(config) && loadingDots == old(loadingDots)
        invariant toggleEnabled == old(toggleEnabled) && toggleText == old(toggleText)
        invariant rest == Run(ViewOf(), name, path, events[i..])
        invariant rest.0 == total.0 && host.calls + rest.1 == old(host.calls) + total.1
      {
        assert events[i..][1..] == events[i + 1..];
        MonitorCycle(host, name, path, events[i..]);
        i := i + 1;
        rest := Run(ViewOf(), name, path, events[i..]);
      }
      assert Run(ViewOf(), name, path, events[i..]) == (ViewOf(), []);
    }

    /** `stop_monitoring`. */
    method StopMonitoring()
      modifies this
      ensures ViewOf() == old(ViewOf()).(monitoring := false)
      ensures config == old(config) && loadingDots == old(loadingDots)
      ensures toggleEnabled == old(toggleEnabled) && toggleText == old(toggleText)
    {
      isMonitoring := false;
    }

    /** `update_config`: new settings, both fields back to LOADING, and the
        animation restarted when the widget still alive. */
    method UpdateConfig(newConfig: map<string, string>, alive: bool) returns (rescheduled: bool)
      modifies this
      ensures config == newConfig && lastStatus == Loading && isMonitoring == old(isMonitoring)
      ensures rescheduled == (alive && isMonitoring)
      ensures loadingDots == old(loadingDots) + (if rescheduled then 1 else 0)
      ensures serviceLabel == if rescheduled then old(serviceLabel).(text := LoadingLabel(old(loadingDots))) else old(serviceLabel)
      ensures processLabel == if rescheduled then old(processLabel).(text := LoadingLabel(old(loadingDots))) else old(processLabel)
      ensures toggleEnabled == old(toggleEnabled) && toggleText == old(toggleText)
    {
      config := newConfig;
      lastStatus := Loading;
      rescheduled := false;
      if alive {
        rescheduled := AnimateLoading();
      }
    }
  }

  /** The body of `run_toggle` up to its exception handler. `start_proxifier`
      catches its own failures, so `launched` only decides its ignored result. */
  method RunWorker(host: Host, job: ToggleJob, killRaised: bool, start: Reply, launched: bool)
    modifies host
    ensures host.calls == old(host.calls) + WorkerCalls(job, killRaised, start)
  {
    if Deactivates(job.shown) {
      StopWorker(host, job, killRaised);
    } else {
      StartWorker(host, job, start, launched);
    }
  }

  method StopWorker(host: Host, job: ToggleJob, killRaised: bool)
    modifies host
    ensures host.calls == old(host.calls) + StopCalls(job, killRaised)
  {
    Process.KillProxifier(host, job.path);
    if !killRaised {
      host.Issue(Sleep(500));
      host.Issue(StopService(job.name));
    }
  }

  method StartWorker(host: Host, job: ToggleJob, start: Reply, launched: bool)
    modifies host
    ensures host.calls == old(host.calls) + StartCalls(job, start)
  {
    host.Issue(StartService(job.name));
    if start == Returned(true) {
      var _ := Process.StartProxifier(host, job.path, launched);
    }
  }
}
