/** The tray indicator (src/gui/tray_icon.py): the icon image cache, the icon
    refresh that follows the service status, and the toggle state machine
    behind the tray menu's default item. */
module TrayIcon {
  import opened Common
  import opened System
  import Process

  /** A tray image: one loaded from an asset file, or the transparent 64x64
      placeholder returned when loading fails. Images compare by content. */
  datatype Image = IconFile(name: string) | Blank

  /** What the asset file of an icon is like when `create_image` looks at it. */
  datatype AssetFile = Missing | Unreadable | Readable

  function CacheKey(active: bool): string
  {
    if active then "active" else "inactive"
  }

  function IconFileName(active: bool): string
  {
    if active then "icon.png" else "icon_inactive.png"
  }

  type Cache = map<string, Option<Image>>

  /** The cache holds both keys, and a key holds nothing or the image loaded
      from its own file: the placeholder is never cached. */
  ghost predicate ValidCache(cache: Cache)
  {
    && cache.Keys == {"active", "inactive"}
    && forall active: bool :: cache[CacheKey(active)] in {None, Some(IconFile(IconFileName(active)))}
  }

  /** The image `create_image` returns. */
  function ImageFor(cache: Cache, active: bool, asset: AssetFile): Image
    requires ValidCache(cache)
  {
    match cache[CacheKey(active)]
    case Some(img) => img
    case None => if asset == Readable then IconFile(IconFileName(active)) else Blank
  }

  /** The cache after `create_image`: a successful load is remembered. */
  function CacheAfter(cache: Cache, active: bool, asset: AssetFile): (after: Cache)
    requires ValidCache(cache)
    ensures ValidCache(after)
  {
    if cache[CacheKey(active)] == None && asset == Readable
    then cache[CacheKey(active) := Some(IconFile(IconFileName(active)))]
    else cache
  }

  /** Once an image was loaded, later calls return it whatever the asset
      file has become; the placeholder is returned only when nothing is
      cached and it never enters the cache. */
  lemma CacheIsSticky(cache: Cache, active: bool, first: AssetFile, later: AssetFile)
    requires ValidCache(cache)
    ensures ImageFor(cache, active, first) != Blank ==>
      ImageFor(CacheAfter(cache, active, first), active, later) == ImageFor(cache, active, first)
    ensures ImageFor(cache, active, first) == Blank ==>
      CacheAfter(cache, active, first) == cache && cache[CacheKey(active)] == None
    ensures ImageFor(cache, active, first) in {Blank, IconFile(IconFileName(active))}
  {
  }

  /** The pystray icon: its current image and how often it was repainted. */
  class Icon {
    var image: Image
    var repaints: nat

    constructor(image: Image)
      ensures this.image == image && repaints == 0
    {
      this.image := image;
      repaints := 0;
    }

    /** Assigning `icon.icon` repaints the tray. */
    method SetImage(img: Image)
      modifies this
      ensures image == img && repaints == old(repaints) + 1
    {
      image := img;
      repaints := repaints + 1;
    }
  }

  /** What the tray menu's toggle decides from the raw service status. */
  datatype Intent = Deactivate | Activate | Warn

  function TrayIntent(status: string): Intent
  {
    if status == "RUNNING" then Deactivate
    else if status == "STOPPED" || status == "NOT_INSTALLED" then Activate
    else Warn
  }

  const Closing := Notify("正在关闭 Proxifier...", "切换状态")
  const Closed := Notify("Proxifier 已关闭。", "状态通知")
  const CloseIncomplete := Notify("Proxifier 关闭可能未完成。", "警告")
  const Opening := Notify("正在开启 Proxifier...", "切换状态")
  const Opened := Notify("Proxifier 已开启。", "状态通知")
  const LaunchFailed := Notify("启动 Proxifier 失败！", "错误")
  const DriverFailed := Notify("驱动启动失败！", "错误")

  function UnknownStatus(status: string): Call
  {
    Notify("Proxifier 状态未知 (" + status + ")", "警告")
  }

  /** The calls `toggle_proxifier_state` issues between its status query and
      its icon refresh, given what the collaborators answer. */
  function ToggleCalls(name: string, path: string, status: string,
                       stopped: bool, started: bool, launched: bool): seq<Call>
  {
    match TrayIntent(status)
    case Deactivate =>
      [Closing, RunAdmin(Process.KillCommand(path)), StopService(name),
       if stopped then Closed else CloseIncomplete]
    case Activate =>
      [Opening, StartService(name)]
      + (if started then [Spawn(Process.LaunchCommand(path)), if launched then Opened else LaunchFailed]
         else [DriverFailed])
    case Warn =>
      [UnknownStatus(status)]
  }

  /** The shape of the RUNNING branch, for any kill command and notices. */
  lemma DeactivationShape(opening: Call, kill: Call, stop: Call, last: Call, closed: Call)
    requires opening.Notify? && kill.RunAdmin? && stop.StopService? && last.Notify?
    requires closed.Notify? && closed != opening
    ensures var t := [opening, kill, stop, last];
      && multiset(t)[kill] == 1
      && multiset(t)[stop] == 1
      && Precedes(t, kill, stop)
      && (forall c :: c in t ==> !c.StartService? && !c.Spawn?)
      && (closed in t <==> closed == last)
  {
    var t := [opening, kill, stop, last];
    assert t[1] == kill && t[2] == stop;
  }

  lemma NoticesDiffer()
    ensures Closed != Closing && Closed != CloseIncomplete
    ensures Opened != Opening && Opened != LaunchFailed && Opened != DriverFailed
  {
    assert Closed.title[0] != Closing.title[0] && Closed.title[0] != CloseIncomplete.title[0];
    assert Opened.title[0] != Opening.title[0] && Opened.title[0] != LaunchFailed.title[0];
    assert Opened.title[0] != DriverFailed.title[0];
  }

  /** RUNNING: the process is killed once, then the service is stopped once,
      nothing is started, and the "closed" notice appears iff stopping
      succeeded. */
  lemma TrayDeactivation(name: string, path: string, status: string, stopped: bool, started: bool, launched: bool)
    requires status == "RUNNING"
    ensures var t := ToggleCalls(name, path, status, stopped, started, launched);
      && multiset(t)[RunAdmin(Process.KillCommand(path))] == 1
      && multiset(t)[StopService(name)] == 1
      && Precedes(t, RunAdmin(Process.KillCommand(path)), StopService(name))
      && (forall c :: c in t ==> !c.StartService? && !c.Spawn?)
      && (Closed in t <==> stopped)
  {
    NoticesDiffer();
    DeactivationShape(Closing, RunAdmin(Process.KillCommand(path)), StopService(name),
                      if stopped then Closed else CloseIncomplete, Closed);
  }

  /** STOPPED or NOT_INSTALLED: the service is started first, nothing is
      killed or stopped, and the process is launched iff the service start
      succeeded, after it. */
  lemma TrayActivation(name: string, path: string, status: string, stopped: bool, started: bool, launched: bool)
    requires status == "STOPPED" || status == "NOT_INSTALLED"
    ensures var t := ToggleCalls(name, path, status, stopped, started, launched);
      && multiset(t)[StartService(name)] == 1
      && (forall c :: c in t ==> !c.RunAdmin? && !c.StopService?)
      && (forall i :: 0 <= i < |t| && IsControl(t[i]) && !t[i].StartService? ==>
            exists j :: 0 <= j < i && t[j] == StartService(name))
      && (Spawn(Process.LaunchCommand(path)) in t <==> started)
      && (started ==> Precedes(t, StartService(name), Spawn(Process.LaunchCommand(path))))
  {
    var t := ToggleCalls(name, path, status, stopped, started, launched);
    assert t[1] == StartService(name);
    if started {
      assert t[2] == Spawn(Process.LaunchCommand(path));
    }
  }

  /** Any other status: no control call at all, only a warning naming it. */
  lemma TrayUnknownStatus(name: string, path: string, status: string, stopped: bool, started: bool, launched: bool)
    requires status != "RUNNING" && status != "STOPPED" && status != "NOT_INSTALLED"
    ensures var t := ToggleCalls(name, path, status, stopped, started, launched);
      && (forall c :: c in t ==> !IsControl(c))
      && |t| == 1 && t[0].Notify? && t[0].title == "警告"
      && Contains(t[0].message, status)
  {
    var msg := "Proxifier 状态未知 (" + status + ")";
    assert msg == "Proxifier 状态未知 (" + status + ")" + "";
    ContainsInfix("Proxifier 状态未知 (", status, ")");
  }

  /** The module-level state of tray_icon.py: `_icon_images` and `_icon_instance`. */
  class Tray {
    var iconImages: Cache
    var iconInstance: Icon?

    ghost predicate Valid()
      reads this
    {
      ValidCache(iconImages)
    }

    constructor(instance: Icon?)
      ensures Valid() && iconInstance == instance
      ensures iconImages == map["active" := None, "inactive" := None]
    {
      iconImages := map["active" := None, "inactive" := None];
      iconInstance := instance;
    }

    /** `create_image`: the cached image, else the freshly loaded one (now
        cached), else the placeholder. */
    method CreateImage(active: bool, asset: AssetFile) returns (image: Image)
      requires Valid()
      modifies this
      ensures Valid() && iconInstance == old(iconInstance)
      ensures image == ImageFor(old(iconImages), active, asset)
      ensures iconImages == CacheAfter(old(iconImages), active, asset)
    {
      var key := CacheKey(active);
      if iconImages[key].Some? {
        return iconImages[key].value;
      }
      if asset == Readable {
        image := IconFile(IconFileName(active));
        iconImages := iconImages[key := Some(image)];
        return;
      }
      image := Blank;
    }

    /** `update_icon_state`: query the service; the icon shows the active
        image iff the status is RUNNING, and is repainted only when the
        chosen image differs from the current one. */
    method UpdateIconState(icon: Icon, host: Host, name: string, status: string, asset: AssetFile)
      requires Valid()
      modifies this, icon, host
      ensures Valid() && iconInstance == old(iconInstance)
      ensures host.calls == old(host.calls) + [QueryService(name)]
      ensures iconImages == CacheAfter(old(iconImages), status == "RUNNING", asset)
      ensures icon.image == ImageFor(old(iconImages), status == "RUNNING", asset)
      ensures icon.repaints == old(icon.repaints) + (if icon.image == old(icon.image) then 0 else 1)
    {
      host.Issue(QueryService(name));
      var isActive := status == "RUNNING";
      var newImage := CreateImage(isActive, asset);
      if icon.image != newImage {
        icon.SetImage(newImage);
      }
    }

    /** `refresh_tray_icon`: nothing happens until an icon is registered. */
    method RefreshTrayIcon(host: Host, name: string, status: string, asset: AssetFile)
      requires Valid()
      modifies this, iconInstance, host
      ensures Valid() && iconInstance == old(iconInstance)
      ensures iconInstance == null ==> iconImages == old(iconImages) && host.calls == old(host.calls)
      ensures iconInstance != null ==>
        && host.calls == old(host.calls) + [QueryService(name)]
        && iconImages == CacheAfter(old(iconImages), status == "RUNNING", asset)
        && iconInstance.image == ImageFor(old(iconImages), status == "RUNNING", asset)
        && iconInstance.repaints == old(iconInstance.repaints)
             + (if iconInstance.image == old(iconInstance.image) then 0 else 1)
    {
      if iconInstance != null {
        UpdateIconState(iconInstance, host, name, status, asset);
      }
    }

    /** `toggle_proxifier_state`. The service name and executable path are
        what the configuration accessors returned; `status` answers the first
        status query, `stopped`, `started` and `launched` answer the service
        stop, service start and process launch, and `statusAfter` and `asset`
        answer the icon refresh that always ends the toggle. */
    method ToggleProxifierState(icon: Icon, host: Host, name: string, path: string, status: string,
                                stopped: bool, started: bool, launched: bool,
                                statusAfter: string, asset: AssetFile)
      requires Valid()
      modifies this, icon, host
      ensures Valid() && iconInstance == old(iconInstance)
      ensures host.calls == old(host.calls) + [QueryService(name)]
        + ToggleCalls(name, path, status, stopped, started, launched) + [QueryService(name)]
      ensures iconImages == CacheAfter(old(iconImages), statusAfter == "RUNNING", asset)
      ensures icon.image == ImageFor(old(iconImages), statusAfter == "RUNNING", asset)
      ensures icon.repaints == old(icon.repaints) + (if icon.image == old(icon.image) then 0 else 1)
    {
      host.Issue(QueryService(name));
      SwitchProxifier(host, name, path, status, stopped, started, launched);
      UpdateIconState(icon, host, name, statusAfter, asset);
    }
  }

  /** The branch of `toggle_proxifier_state` taken on the queried status. */
  method SwitchProxifier(host: Host, name: string, path: string, status: string,
                         stopped: bool, started: bool, launched: bool)
    modifies host
    ensures host.calls == old(host.calls) + ToggleCalls(name, path, status, stopped, started, launched)
  {
    if status == "RUNNING" {
      host.Issue(Closing);
      Process.KillProxifier(host, path);
      host.Issue(StopService(name));
      host.Issue(if stopped then Closed else CloseIncomplete);
    } else if status == "STOPPED" || status == "NOT_INSTALLED" {
      host.Issue(Opening);
      host.Issue(StartService(name));
      if started {
        var ok := Process.StartProxifier(host, path, launched);
        host.Issue(if ok then Opened else LaunchFailed);
      } else {
        host.Issue(DriverFailed);
      }
    } else {
      host.Issue(UnknownStatus(status));
    }
  }
}
