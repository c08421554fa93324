/** The page object itself: fields set step by step, one method for each handler, each proved
    to take the page's state where the function of the same name in `VmTab` says. The lemmas
    of `VmTabRuns` therefore speak of this object. A handler runs to its end on the UI thread
    and reads the outside world as one `World` value. */
module VmTabPages {
  import opened Wrappers
  import opened VmTab
  import Runs = VmTabRuns
  import Fields = VmTabFields

  class VmTabPage {
    var child: Child
    var gate: Gate
    var start: Start
    var health: Health
    var enhanced: Enhanced
    var timers: Timers
    var loaded: bool
    var placeholder: Placeholder

    ghost function State(): Tab
      reads this
    {
      Tab(child, gate, start, health, enhanced, timers, loaded, placeholder)
    }

    constructor ()
      ensures State() == Initial()
      ensures Runs.Valid(State())
    {
      child := Child(None, {}, 0, 0);
      gate := Gate(false, false, false, false);
      start := Start(false, 0, false, 0);
      health := Health(false, 0, false);
      enhanced := Enhanced(false, false, false, 0);
      timers := Timers(None, false, 0);
      loaded, placeholder := false, Loading;
      new;
      Runs.InitialHolds(0);
    }

    // ---- calls on the child ------------------------------------------------

    method Show()
      modifies this`child
      ensures State() == old(State()).(child := SetShown(old(State()).child, true))
    {
      if child.client.Some? { child := child.(client := Some(child.client.value.(shown := true))); }
    }

    method Hide()
      modifies this`child
      ensures State() == old(State()).(child := SetShown(old(State()).child, false))
    {
      if child.client.Some? { child := child.(client := Some(child.client.value.(shown := false))); }
    }

    method StopClient()
      modifies this`child
      ensures State() == old(State()).(child := Release(old(State()).child))
    {
      if child.client.Some? {
        child := child.(alive := child.alive - {child.client.value.id});
        child := child.(client := None);
      }
    }

    // ---- popup -------------------------------------------------------------

    method ShowPopup(w: World)
      modifies this
      ensures State() == VmTab.ShowPopup(old(State()), w)
    {
      gate := gate.(wantsVisible := true);
      if gate.suppressed { return; }
      if child.client.None? || !gate.connected { return; }
      if w.border {
        Show();
        gate := gate.(deferredShow := false);
      } else {
        gate := gate.(deferredShow := true);
      }
    }

    method HidePopup()
      modifies this
      ensures State() == VmTab.HidePopup(old(State()))
    {
      gate := gate.(wantsVisible := false);
      gate := gate.(deferredShow := false);
      Hide();
    }

    method SetPopupSuppressed(w: World, on: bool)
      modifies this
      ensures State() == VmTab.SetPopupSuppressed(old(State()), w, on)
    {
      gate := gate.(suppressed := on);
      if on {
        Hide();
      } else if gate.wantsVisible {
        ShowPopup(w);
      }
    }

    method SetWindowHwnd(hwnd: nat)
      modifies this
      ensures State() == SetWindow(old(State()), hwnd)
    {
      var changed := child.window != hwnd;
      child := child.(window := hwnd);
      if changed && child.client.Some? { child := child.(client := Some(child.client.value.(owner := hwnd))); }
    }

    method OnRdpHostSizeChanged()
      modifies this
      ensures State() == ResolveDeferredShow(old(State()))
    {
      if child.client.Some? && gate.wantsVisible && gate.connected && gate.deferredShow && !gate.suppressed {
        Show();
        gate := gate.(deferredShow := false);
      }
    }

    // ---- client lifecycle --------------------------------------------------

    method StopFit()
      modifies this`timers
      ensures State() == StopEnhancedFit(old(State()))
    {
      timers := timers.(fitRunning := false);
      timers := timers.(fitTicks := 0);
    }

    method TearDownClient()
      modifies this
      ensures State() == VmTab.TearDownClient(old(State()))
    {
      if child.client.None? { return; }
      StopFit();
      Hide();
      StopClient();
      gate := gate.(connected := false);
      gate := gate.(deferredShow := false);
    }

    method ShutdownClient()
      modifies this
      ensures State() == VmTab.ShutdownClient(old(State()))
    {
      StopClient();
    }

    method StartConnection(w: World)
      modifies this
      ensures State() == VmTab.StartConnection(old(State()), w)
    {
      if child.client.Some? { return; }
      if child.window == 0 { return; }
      if !w.exePresent { return; }
      assert CanSpawn(State().child, w);
      var hvAvailable := false;
      if w.vm.Some? { hvAvailable := w.vm.value.enhancedAvailable; }
      var cooldown := w.now < enhanced.cooldownUntil;
      enhanced := enhanced.(wanted := hvAvailable && w.enhancedPref && !cooldown);
      enhanced := enhanced.(ready := false);
      StopFit();
      child := child.(client := Some(Client(child.spawned, child.window, false, w.launchOk, w.now, false, None)));
      child := child.(alive := child.alive + {child.spawned});
      child := child.(spawned := child.spawned + 1);
    }

    method ScheduleReconnect(w: World, delay: nat)
      modifies this
      ensures State() == VmTab.ScheduleReconnect(old(State()), w, delay)
    {
      timers := timers.(reconnectAt := Some(w.now + delay));
    }

    // UpdatePlaceholderAndClient is one function in the source; its three parts are methods
    // of their own here.

    method AgePendingConnect(w: World)
      modifies this`start
      ensures State() == AgePending(old(State()), w)
    {
      if start.pending {
        if IsRunning(w) || w.now > start.pendingAt + PENDING_CONNECT_TIMEOUT {
          start := start.(pending := false);
        }
      }
    }

    method WantClient(w: World)
      modifies this
      ensures State() == VmTab.WantClient(old(State()), w)
    {
      if child.client.None? {
        placeholder := if IsRunning(w) then Covered else Starting;
        StartConnection(w);
      } else if gate.connected {
        placeholder := Covered;
      } else {
        placeholder := if IsRunning(w) then Connecting else Starting;
      }
    }

    method ShowStopped(w: World)
      requires w.vm.Some?
      modifies this
      ensures State() == VmTab.ShowStopped(old(State()), w)
    {
      var vm := w.vm.value;
      if child.client.Some? { TearDownClient(); }
      var stableNotRunning := vm.state == Off || vm.state == Saved || vm.state == Paused;
      if start.requested {
        if vm.jobInFlight || w.now > start.requestedAt + START_REQUEST_TIMEOUT {
          start := start.(requested := false);
        }
      }
      placeholder := Stopped(stableNotRunning && !start.requested && !vm.jobInFlight);
    }

    method UpdatePlaceholderAndClient(w: World)
      modifies this
      ensures State() == VmTab.UpdatePlaceholderAndClient(old(State()), w)
    {
      if w.vm.None? && !w.polledOnce {
        TearDownClient();
        placeholder := Loading;
        return;
      }
      if w.vm.None? {
        TearDownClient();
        placeholder := Missing;
        return;
      }
      AgePendingConnect(w);
      if health.hadError {
        if !IsRunning(w) && !start.pending {
          health := health.(hadError := false);
          health := health.(failures := 0);
        } else {
          if child.client.Some? { TearDownClient(); }
          placeholder := ConnectError;
          return;
        }
      }
      if IsRunning(w) || start.pending {
        WantClient(w);
        return;
      }
      ShowStopped(w);
    }

    method ShowConnectError()
      modifies this
      ensures State() == VmTab.ShowConnectError(old(State()))
    {
      health := health.(hadError := true);
      TearDownClient();
      placeholder := ConnectError;
    }

    // ---- handlers ----------------------------------------------------------

    method OnVmManagerChanged(w: World)
      modifies this
      ensures State() == OnPoll(old(State()), w)
    {
      if child.client.Some? && gate.connected && !enhanced.wanted {
        var avail, running := false, false;
        if w.vm.Some? {
          running := w.vm.value.state == Running;
          avail := w.vm.value.enhancedAvailable;
        }
        var cooldown := w.now < enhanced.cooldownUntil;
        if running && avail && !cooldown && w.enhancedPref { ScheduleReconnect(w, UPGRADE_DELAY); }
      }
      UpdatePlaceholderAndClient(w);
    }

    method OnLoaded(w: World)
      modifies this
      ensures State() == VmTab.OnLoaded(old(State()), w)
    {
      if loaded { return; }
      loaded := true;
      UpdatePlaceholderAndClient(w);
      if child.client.Some? && gate.wantsVisible && gate.connected && gate.deferredShow && !gate.suppressed {
        Show();
        gate := gate.(deferredShow := false);
      }
    }

    method OnPlaceholderStartClick(w: World)
      modifies this
      ensures State() == OnStartClick(old(State()), w)
    {
      start := start.(requested := true);
      start := start.(requestedAt := w.now);
      start := start.(pending := true);
      start := start.(pendingAt := start.requestedAt);
      health := health.(hadError := false);
      health := health.(failures := 0);
      placeholder := Starting;
      assert State() == ClearError(old(State())).(start := Start(true, w.now, true, w.now), placeholder := Starting);
      UpdatePlaceholderAndClient(w);
    }

    method OnPlaceholderRetryClick(w: World)
      modifies this
      ensures State() == OnRetryClick(old(State()), w)
    {
      health := health.(hadError := false);
      health := health.(failures := 0);
      UpdatePlaceholderAndClient(w);
    }

    method ReapplyConnectionSettings(w: World)
      modifies this
      ensures State() == VmTab.ReapplyConnectionSettings(old(State()), w)
    {
      if child.client.None? { return; }
      TearDownClient();
      UpdatePlaceholderAndClient(w);
    }

    method DoReconnect(w: World)
      modifies this
      ensures old(timers).reconnectAt.Some? ==> State() == OnReconnectTimer(old(State()), w)
    {
      timers := timers.(reconnectAt := None);
      var running := false;
      if w.vm.Some? { running := w.vm.value.state == Running; }
      if !running && !start.pending {
        UpdatePlaceholderAndClient(w);
        return;
      }
      TearDownClient();
      UpdatePlaceholderAndClient(w);
    }

    method OnFitTick()
      requires timers.fitRunning
      modifies this
      ensures State() == OnFitTimer(old(State()))
    {
      timers := timers.(fitTicks := timers.fitTicks + 1);
      if timers.fitTicks > MAX_FIT_TICKS || !enhanced.ready || child.client.None? { StopFit(); }
    }

    /** The model's record of what the client's child has reported; not a step of the page. */
    method RecordUp(src: nat)
      modifies this`child
      ensures State() == old(State()).(child := MarkUp(old(child), src))
    {
      if child.client.Some? && child.client.value.id == src {
        child := child.(client := Some(child.client.value.(up := true)));
      }
    }

    method RecordDrop(w: World, src: nat)
      modifies this`child
      ensures State() == old(State()).(child := MarkDropped(old(child), w, src))
    {
      if child.client.Some? && child.client.value.id == src {
        child := child.(client := Some(child.client.value.(up := false, droppedAt := Some(w.now))));
      }
    }

    method OnConnected(w: World, src: nat, sessionEnhanced: bool)
      modifies this
      ensures State() == VmTab.OnConnected(old(State()), w, src, sessionEnhanced)
    {
      ghost var t := State();
      RecordUp(src);
      gate := gate.(connected := true);
      health := health.(everConnected := true);
      if sessionEnhanced { enhanced := enhanced.(ever := true); }
      health := health.(failures := 0);
      health := health.(hadError := false);
      assert State() == BeginSession(t, src, sessionEnhanced);
      UpdatePlaceholderAndClient(w);
      if gate.wantsVisible && child.client.Some? && !gate.suppressed { Show(); }
    }

    method OnDesktopResized(fills: bool)
      modifies this
      ensures State() == VmTab.OnDesktopResized(old(State()), fills)
    {
      if fills { StopFit(); }
    }

    method OnEnhancedReady(ready: bool)
      modifies this
      ensures State() == VmTab.OnEnhancedReady(old(State()), ready)
    {
      if ready {
        enhanced := enhanced.(ready := true);
        enhanced := enhanced.(ever := true);
        timers := timers.(fitTicks := 0);
        timers := timers.(fitRunning := true);
      }
    }

    /** How OnDisconnected opens, whatever the VM does. */
    method DropSession(w: World, src: nat)
      modifies this
      ensures State() == VmTab.DropSession(old(State()), w, src)
    {
      gate := gate.(connected := false);
      if enhanced.wanted && !enhanced.ready && !enhanced.ever {
        enhanced := enhanced.(cooldownUntil := w.now + ENHANCED_COOLDOWN);
      }
      enhanced := enhanced.(ready := false);
      StopFit();
      Hide();
      RecordDrop(w, src);
    }

    method OnDisconnected(w: World, src: nat, fatal: bool)
      modifies this
      ensures State() == VmTab.OnDisconnected(old(State()), w, src, fatal)
    {
      var wasConnected := gate.connected;
      DropSession(w, src);
      if IsRunning(w) {
        if wasConnected {
          health := health.(failures := 0);
        } else if health.everConnected {
          health := health.(failures := 0);
        } else if fatal {
          health := health.(failures := health.failures + 1);
          if health.failures >= MAX_CONNECT_FAILURES {
            ShowConnectError();
            return;
          }
        }
        var delay := if enhanced.wanted then ENHANCED_RECONNECT_DELAY else BASIC_RECONNECT_DELAY;
        ScheduleReconnect(w, delay);
      } else if start.pending {
        ScheduleReconnect(w, BASIC_RECONNECT_DELAY);
      } else {
        UpdatePlaceholderAndClient(w);
      }
    }

    /** The page's message loop: one queued event, handled to its end. */
    method Handle(w: World, ev: Event)
      requires Runs.Valid(State())
      modifies this
      ensures State() == Step(old(State()), w, ev) && Fields.StepLaw(old(State()), w, ev, State())
      ensures Runs.Valid(State())
    {
      Runs.StepValid(State(), w, ev);
      Fields.StepExactly(State(), w, ev, Step(State(), w, ev));
      hide Fields.StepLaw;
      match ev {
        case Loaded => OnLoaded(w);
        case SizeChanged => OnRdpHostSizeChanged();
        case Show => ShowPopup(w);
        case Hide => HidePopup();
        case Suppress(on) => SetPopupSuppressed(w, on);
        case SetHwnd(hwnd) => SetWindowHwnd(hwnd);
        case Poll => OnVmManagerChanged(w);
        case StartClick => OnPlaceholderStartClick(w);
        case RetryClick => OnPlaceholderRetryClick(w);
        case Reapply => ReapplyConnectionSettings(w);
        case ReconnectFires =>
          if timers.reconnectAt.Some? { DoReconnect(w); }
        case FitFires =>
          if timers.fitRunning { OnFitTick(); }
        case Connected(src, sessionEnhanced) => OnConnected(w, src, sessionEnhanced);
        case EnhancedReady(_, ready) => OnEnhancedReady(ready);
        case Resized(_, fills) => OnDesktopResized(fills);
        case Disconnected(src, fatal) => OnDisconnected(w, src, fatal);
        case Failed(_) => ShowConnectError();
        case Shutdown => ShutdownClient();
      }
    }
  }
}
