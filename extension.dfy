/**
 * The GNOME Shell extension "Alt-Tab current monitor": the window filter the
 * Alt-Tab switcher and the window cycler are patched to use, the rule that
 * decides which monitor is "current", and the enable/disable lifecycle that
 * installs the patches and the settings listeners and takes them down again.
 *
 * Host queries (pointer position, focus window, primary monitor, active
 * workspace) are answered by a `Host` value; the settings store and the two
 * patched popup prototypes are small objects standing in for the host's.
 */
module Extension {
  import opened Wrappers
  import opened JsArray

  /** A `Meta.Window` as the filter sees it: an identity, its monitor and its workspace. */
  datatype Window = Window(id: int, monitor: int, workspace: int)

  /** What the host reports at the moment the switcher asks for its window list. */
  datatype Host = Host(
    pointerMonitor: int,          // monitor holding the 1x1 rectangle at the pointer
    focusWindow: Option<Window>,  // `global.display.focus_window`, possibly null
    primaryMonitor: int,          // `global.display.get_primary_monitor()`
    activeWorkspace: int)         // `global.workspace_manager.get_active_workspace()`

  /** The filter callback `window => window.get_monitor() === m`. */
  function OnMonitor(m: int): Window -> bool
  {
    (w: Window) => w.monitor == m
  }

  /** The filter callback `window => window.get_workspace() === ws`. */
  function OnWorkspace(ws: int): Window -> bool
  {
    (w: Window) => w.workspace == ws
  }

  /** The single condition a window must meet to stay in the switcher list. */
  function Kept(m: int, ws: int, currentWorkspaceOnly: bool): Window -> bool
  {
    (w: Window) => w.monitor == m && (!currentWorkspaceOnly || w.workspace == ws)
  }

  /**
   * `getCurrentMonitor`: the pointer's monitor when the mouse decides,
   * otherwise the focused window's monitor, otherwise the primary monitor.
   * Total: there is no input for which it fails.
   */
  function GetCurrentMonitor(useMouseMonitor: bool, pointerMonitor: int,
                             focusWindow: Option<Window>, primaryMonitor: int): (m: int)
    ensures useMouseMonitor ==> m == pointerMonitor
    ensures !useMouseMonitor && focusWindow.Some? ==> m == focusWindow.value.monitor
    ensures !useMouseMonitor && focusWindow.None? ==> m == primaryMonitor
  {
    if useMouseMonitor then pointerMonitor
    else match focusWindow
      case Some(w) => w.monitor
      case None => primaryMonitor
  }

  /**
   * `filterWindows` with the current monitor and the active workspace already
   * looked up: keeps the windows on the current monitor and, when
   * `currentWorkspaceOnly` is set, on the active workspace, in their order.
   */
  function FilterWindows(windows: seq<Window>, currentMonitor: int, activeWorkspace: int,
                         currentWorkspaceOnly: bool): (r: seq<Window>)
    ensures IsSubsequence(r, windows)
    ensures forall w :: w in r ==> w.monitor == currentMonitor
    ensures currentWorkspaceOnly ==> forall w :: w in r ==> w.workspace == activeWorkspace
    ensures forall w :: (w in windows && w.monitor == currentMonitor &&
                         (currentWorkspaceOnly ==> w.workspace == activeWorkspace)) ==> w in r
  {
    var filtered := Filter(windows, OnMonitor(currentMonitor));
    if currentWorkspaceOnly then
      FilterFilter(windows, OnMonitor(currentMonitor), OnWorkspace(activeWorkspace));
      Filter(filtered, OnWorkspace(activeWorkspace))
    else
      filtered
  }

  /**
   * The two filter steps are one filter on the conjunction of their
   * conditions; with the flag off the workspace plays no part at all.
   */
  lemma FilterWindowsIsOneFilter(windows: seq<Window>, m: int, ws: int, currentWorkspaceOnly: bool)
    ensures FilterWindows(windows, m, ws, currentWorkspaceOnly) == Filter(windows, Kept(m, ws, currentWorkspaceOnly))
    ensures !currentWorkspaceOnly ==> FilterWindows(windows, m, ws, false) == Filter(windows, OnMonitor(m))
  {
    if currentWorkspaceOnly {
      FilterFilter(windows, OnMonitor(m), OnWorkspace(ws));
      FilterAgreeing(windows, Both(OnMonitor(m), OnWorkspace(ws)), Kept(m, ws, true));
    } else {
      FilterAgreeing(windows, OnMonitor(m), Kept(m, ws, false));
    }
  }

  /**
   * The switcher list is exactly the input's windows that meet the monitor
   * (and, if enabled, workspace) condition, each as often as in the input,
   * in the input's order: any sequence with those properties is it.
   */
  lemma SwitcherListCharacterised(windows: seq<Window>, m: int, ws: int, currentWorkspaceOnly: bool,
                                  r: seq<Window>)
    requires IsSubsequence(r, windows)
    requires forall w :: w in r ==> w.monitor == m && (currentWorkspaceOnly ==> w.workspace == ws)
    requires forall w :: (w in windows && w.monitor == m && (currentWorkspaceOnly ==> w.workspace == ws)) ==>
                           multiset(r)[w] == multiset(windows)[w]
    ensures r == FilterWindows(windows, m, ws, currentWorkspaceOnly)
  {
    var p := Kept(m, ws, currentWorkspaceOnly);
    forall w | w in r ensures p(w) { }
    forall w | w in windows && p(w) ensures multiset(r)[w] == multiset(windows)[w] { }
    FilterUnique(windows, p, r);
    FilterWindowsIsOneFilter(windows, m, ws, currentWorkspaceOnly);
  }

  /** Filtering on the workspace first and on the monitor second gives the same list. */
  lemma WorkspaceFirstSameList(windows: seq<Window>, m: int, ws: int)
    ensures FilterWindows(windows, m, ws, true) ==
            Filter(Filter(windows, OnWorkspace(ws)), OnMonitor(m))
  {
    FilterCommutes(windows, OnMonitor(m), OnWorkspace(ws));
  }

  /** Filtering the switcher list again with the same inputs leaves it as it is. */
  lemma FilterWindowsIdempotent(windows: seq<Window>, m: int, ws: int, currentWorkspaceOnly: bool)
    ensures FilterWindows(FilterWindows(windows, m, ws, currentWorkspaceOnly), m, ws, currentWorkspaceOnly) ==
            FilterWindows(windows, m, ws, currentWorkspaceOnly)
  {
    var once := FilterWindows(windows, m, ws, currentWorkspaceOnly);
    FilterWindowsIsOneFilter(once, m, ws, currentWorkspaceOnly);
    FilterKeepsAll(once, Kept(m, ws, currentWorkspaceOnly));
  }

  /**
   * When the focused window decides the monitor, the focused window itself is
   * always offered by the switcher (if the host listed it and, with the
   * workspace flag on, it is on the active workspace).
   */
  lemma FocusedWindowListed(windows: seq<Window>, host: Host, currentWorkspaceOnly: bool)
    requires host.focusWindow.Some? && host.focusWindow.value in windows
    requires currentWorkspaceOnly ==> host.focusWindow.value.workspace == host.activeWorkspace
    ensures host.focusWindow.value in
            FilterWindows(windows,
                          GetCurrentMonitor(false, host.pointerMonitor, host.focusWindow, host.primaryMonitor),
                          host.activeWorkspace, currentWorkspaceOnly)
  {
  }

  /** The settings keys the extension listens to. */
  datatype SettingKey = UseMouseMonitor | CurrentWorkspaceOnly

  /**
   * The `Gio.Settings` object: the two boolean keys and the signal handlers
   * connected to it, by handler id. Handler ids are positive and never reused.
   */
  class Settings {
    var useMouseMonitor: bool
    var currentWorkspaceOnly: bool
    var handlers: map<int, SettingKey>
    var nextHandlerId: int

    ghost predicate Valid()
      reads this
    {
      0 < nextHandlerId && forall id :: id in handlers ==> 0 < id < nextHandlerId
    }

    constructor (useMouseMonitor: bool, currentWorkspaceOnly: bool)
      ensures Valid()
      ensures this.useMouseMonitor == useMouseMonitor && this.currentWorkspaceOnly == currentWorkspaceOnly
      ensures handlers == map[]
    {
      this.useMouseMonitor := useMouseMonitor;
      this.currentWorkspaceOnly := currentWorkspaceOnly;
      handlers := map[];
      nextHandlerId := 1;
    }

    /** `get_boolean(key)`. */
    function GetBoolean(key: SettingKey): bool
      reads this
    {
      match key
      case UseMouseMonitor => useMouseMonitor
      case CurrentWorkspaceOnly => currentWorkspaceOnly
    }

    /** `connect('changed::<key>', …)`: registers a handler under a new id. */
    method Connect(key: SettingKey) returns (id: int)
      requires Valid()
      modifies this
      ensures Valid()
      ensures 0 < id && id !in old(handlers) && handlers == old(handlers)[id := key]
      ensures useMouseMonitor == old(useMouseMonitor) && currentWorkspaceOnly == old(currentWorkspaceOnly)
    {
      id := nextHandlerId;
      handlers := handlers[id := key];
      nextHandlerId := nextHandlerId + 1;
    }

    /** `disconnect(id)`: the handler with that id, if any, is gone. */
    method Disconnect(id: int)
      requires Valid()
      modifies this
      ensures Valid()
      ensures handlers == old(handlers) - {id}
      ensures useMouseMonitor == old(useMouseMonitor) && currentWorkspaceOnly == old(currentWorkspaceOnly)
    {
      handlers := handlers - {id};
    }
  }

  /**
   * Which function a popup prototype holds as its window-list supplier:
   * one the host had there (told apart by a tag), the extension's wrapper
   * that filters what `inner` returns, or the fresh default that returns
   * `global.display.get_tab_list(Meta.TabList.NORMAL, null)`.
   */
  datatype Supplier = HostProvided(tag: nat) | Filtering(inner: Supplier) | NormalTabList

  /** The two patched prototype slots of `AltTab`. */
  class AltTabPopups {
    var switcherGetWindowList: Supplier   // WindowSwitcherPopup.prototype._getWindowList
    var cyclerGetWindows: Supplier        // WindowCyclerPopup.prototype._getWindows

    constructor (switcher: Supplier, cycler: Supplier)
      ensures switcherGetWindowList == switcher && cyclerGetWindows == cycler
    {
      switcherGetWindowList := switcher;
      cyclerGetWindows := cycler;
    }
  }

  /** The extension object with its cached settings and its listener ids. */
  class AltTabCurrentMonitorExtension {
    var gsettings: Settings?
    var originalWindowSwitcherPopupGetWindows: Option<Supplier>
    var useMouseMonitor: bool
    var currentWorkspaceOnly: bool
    var settingsChangedId: seq<int>
    const altTab: AltTabPopups

    /** No listener ids are held without a settings object to hold them on. */
    ghost predicate Valid()
      reads this, gsettings
    {
      (gsettings == null ==> settingsChangedId == []) &&
      (gsettings != null ==> gsettings.Valid())
    }

    /** Every held listener id is connected on the held settings object. */
    ghost predicate Listening()
      reads this, gsettings
    {
      gsettings != null && forall id :: id in settingsChangedId ==> id in gsettings.handlers
    }

    /** Nothing installed, nothing saved, nothing connected. */
    ghost predicate Disabled()
      reads this, altTab
    {
      gsettings == null && settingsChangedId == [] &&
      originalWindowSwitcherPopupGetWindows == None &&
      altTab.cyclerGetWindows == NormalTabList
    }

    constructor (altTab: AltTabPopups)
      ensures Valid() && this.altTab == altTab
      ensures gsettings == null && originalWindowSwitcherPopupGetWindows == None
      ensures !useMouseMonitor && currentWorkspaceOnly && settingsChangedId == []
    {
      this.altTab := altTab;
      gsettings := null;
      originalWindowSwitcherPopupGetWindows := None;
      useMouseMonitor := false;
      currentWorkspaceOnly := true;
      settingsChangedId := [];
    }

    /**
     * `filterWindows` as the patched suppliers run it: the current monitor
     * follows the cached `useMouseMonitor`, the workspace step the cached
     * `currentWorkspaceOnly`.
     */
    function WindowList(windows: seq<Window>, host: Host): (r: seq<Window>)
      reads this
      ensures IsSubsequence(r, windows)
      ensures useMouseMonitor ==> forall w :: w in r ==> w.monitor == host.pointerMonitor
      ensures !useMouseMonitor && host.focusWindow.Some? ==>
                forall w :: w in r ==> w.monitor == host.focusWindow.value.monitor
      ensures !useMouseMonitor && host.focusWindow.None? ==>
                forall w :: w in r ==> w.monitor == host.primaryMonitor
      ensures currentWorkspaceOnly ==> forall w :: w in r ==> w.workspace == host.activeWorkspace
      ensures forall w :: (w in windows &&
                           Kept(GetCurrentMonitor(useMouseMonitor, host.pointerMonitor, host.focusWindow,
                                                  host.primaryMonitor),
                                host.activeWorkspace, currentWorkspaceOnly)(w)) ==> w in r
    {
      var currentMonitor := GetCurrentMonitor(useMouseMonitor, host.pointerMonitor,
                                              host.focusWindow, host.primaryMonitor);
      FilterWindows(windows, currentMonitor, host.activeWorkspace, currentWorkspaceOnly)
    }

    /**
     * `enable`: caches both flags from the store, saves the switcher's
     * supplier, wraps both suppliers in the filter and appends the ids of
     * two new change listeners.
     */
    method Enable(settings: Settings)
      requires Valid() && settings.Valid()
      modifies this, settings, altTab
      ensures Valid() && gsettings == settings
      ensures useMouseMonitor == settings.GetBoolean(UseMouseMonitor)
      ensures currentWorkspaceOnly == settings.GetBoolean(CurrentWorkspaceOnly)
      ensures settings.useMouseMonitor == old(settings.useMouseMonitor)
      ensures settings.currentWorkspaceOnly == old(settings.currentWorkspaceOnly)
      ensures |settingsChangedId| == |old(settingsChangedId)| + 2
      ensures settingsChangedId[..|old(settingsChangedId)|] == old(settingsChangedId)
      ensures var mouseId, workspaceId := settingsChangedId[|settingsChangedId| - 2],
                                          settingsChangedId[|settingsChangedId| - 1];
              mouseId != workspaceId &&
              mouseId !in old(settings.handlers) && workspaceId !in old(settings.handlers) &&
              settings.handlers == old(settings.handlers)[mouseId := UseMouseMonitor][workspaceId := CurrentWorkspaceOnly]
      ensures originalWindowSwitcherPopupGetWindows == Some(old(altTab.switcherGetWindowList))
      ensures altTab.switcherGetWindowList == Filtering(old(altTab.switcherGetWindowList))
      ensures altTab.cyclerGetWindows == Filtering(old(altTab.cyclerGetWindows))
      ensures old(gsettings) == null ==> Listening()
    {
      gsettings := settings;
      useMouseMonitor := settings.GetBoolean(UseMouseMonitor);
      currentWorkspaceOnly := settings.GetBoolean(CurrentWorkspaceOnly);

      originalWindowSwitcherPopupGetWindows := Some(altTab.switcherGetWindowList);
      var originalCycler := altTab.cyclerGetWindows;
      altTab.switcherGetWindowList := Filtering(altTab.switcherGetWindowList);
      altTab.cyclerGetWindows := Filtering(originalCycler);

      var mouseId := settings.Connect(UseMouseMonitor);
      settingsChangedId := settingsChangedId + [mouseId];
      var workspaceId := settings.Connect(CurrentWorkspaceOnly);
      settingsChangedId := settingsChangedId + [workspaceId];
    }

    /** The `changed::use-mouse-monitor` listener: re-reads that one flag. */
    method OnUseMouseMonitorChanged()
      requires Valid() && gsettings != null
      modifies this`useMouseMonitor
      ensures Valid()
      ensures useMouseMonitor == gsettings.GetBoolean(UseMouseMonitor)
    {
      useMouseMonitor := gsettings.GetBoolean(UseMouseMonitor);
    }

    /** The `changed::current-workspace-only` listener: re-reads that one flag. */
    method OnCurrentWorkspaceOnlyChanged()
      requires Valid() && gsettings != null
      modifies this`currentWorkspaceOnly
      ensures Valid()
      ensures currentWorkspaceOnly == gsettings.GetBoolean(CurrentWorkspaceOnly)
    {
      currentWorkspaceOnly := gsettings.GetBoolean(CurrentWorkspaceOnly);
    }

    /**
     * `disable`: puts the saved switcher supplier back, gives the cycler the
     * default tab-list supplier, disconnects every held listener id and drops
     * the settings object. A second `disable` changes nothing.
     */
    method Disable()
      requires Valid()
      modifies this, altTab, gsettings
      ensures Valid() && Disabled()
      ensures altTab.switcherGetWindowList ==
                (match old(originalWindowSwitcherPopupGetWindows)
                 case Some(original) => original
                 case None => old(altTab.switcherGetWindowList))
      ensures old(gsettings) != null ==>
                old(gsettings).handlers == old(gsettings.handlers) - set id | id in old(settingsChangedId)
      ensures old(gsettings) != null ==>
                forall id :: id in old(settingsChangedId) ==> id !in old(gsettings).handlers
      ensures old(gsettings) != null ==>
                old(gsettings).useMouseMonitor == old(gsettings.useMouseMonitor) &&
                old(gsettings).currentWorkspaceOnly == old(gsettings.currentWorkspaceOnly)
      ensures useMouseMonitor == old(useMouseMonitor) && currentWorkspaceOnly == old(currentWorkspaceOnly)
      ensures old(Disabled()) ==> unchanged(this, altTab)
    {
      if originalWindowSwitcherPopupGetWindows.Some? {
        altTab.switcherGetWindowList := originalWindowSwitcherPopupGetWindows.value;
        originalWindowSwitcherPopupGetWindows := None;
      }

      altTab.cyclerGetWindows := NormalTabList;

      if gsettings != null {
        var store := gsettings;
        var i := 0;
        while i < |settingsChangedId|
          invariant 0 <= i <= |settingsChangedId|
          invariant store.Valid()
          invariant store.handlers == old(store.handlers) - set id | id in settingsChangedId[..i]
          invariant store.useMouseMonitor == old(store.useMouseMonitor)
          invariant store.currentWorkspaceOnly == old(store.currentWorkspaceOnly)
          modifies store
        {
          assert settingsChangedId[..i + 1] == settingsChangedId[..i] + [settingsChangedId[i]];
          store.Disconnect(settingsChangedId[i]);
          i := i + 1;
        }
        assert settingsChangedId[..i] == settingsChangedId;
        settingsChangedId := [];
      }

      gsettings := null;
    }
  }
}
