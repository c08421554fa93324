/** The remote host's page as an object: fields set step by step, one method for each handler,
    each proved to take the page's state where the function in `RemoteTab` says. */
module RemotePages {
  import opened Wrappers
  import opened VmTab
  import opened RemoteTab
  import Fields = RemoteFields

  class RemoteHostTabPage {
    var child: Child
    var gate: Gate
    var loaded: bool
    var autoConnect: bool
    var connecting: bool
    var hadError: bool

    ghost function State(): Remote
      reads this
    {
      Remote(child, gate, loaded, autoConnect, connecting, hadError)
    }

    constructor (autoConnect: bool)
      ensures State() == Fresh(autoConnect)
      ensures RemoteTab.Valid(State()) && RemoteTab.Live(State())
    {
      child := Child(None, {}, 0, 0);
      gate := Gate(false, false, false, false);
      loaded, this.autoConnect, connecting, hadError := false, autoConnect, false, false;
    }

    method SetClientShown(shown: bool)
      modifies this`child
      ensures State() == old(State()).(child := SetShown(old(child), shown))
    {
      if child.client.Some? { child := child.(client := Some(child.client.value.(shown := shown))); }
    }

    method ShowPopup(w: World)
      modifies this
      ensures State() == RemoteTab.ShowPopup(old(State()), w)
    {
      gate := gate.(wantsVisible := true);
      if gate.suppressed { return; }
      if child.client.None? || !gate.connected { return; }
      if w.border {
        SetClientShown(true);
        gate := gate.(deferredShow := false);
      } else {
        gate := gate.(deferredShow := true);
      }
    }

    method HidePopup()
      modifies this
      ensures State() == RemoteTab.HidePopup(old(State()))
    {
      gate := gate.(wantsVisible := false);
      gate := gate.(deferredShow := false);
      SetClientShown(false);
    }

    method SetPopupSuppressed(w: World, on: bool)
      modifies this
      ensures State() == RemoteTab.SetPopupSuppressed(old(State()), w, on)
    {
      gate := gate.(suppressed := on);
      if on {
        SetClientShown(false);
      } else if gate.wantsVisible {
        ShowPopup(w);
      }
    }

    method SetWindowHwnd(hwnd: nat)
      modifies this
      ensures State() == RemoteTab.SetWindow(old(State()), hwnd)
    {
      var changed := child.window != hwnd;
      child := child.(window := hwnd);
      if changed && child.client.Some? { child := child.(client := Some(child.client.value.(owner := hwnd))); }
    }

    method OnRdpHostSizeChanged()
      modifies this
      ensures State() == RemoteTab.ResolveDeferredShow(old(State()))
    {
      if child.client.Some? && gate.wantsVisible && gate.connected && gate.deferredShow && !gate.suppressed {
        SetClientShown(true);
        gate := gate.(deferredShow := false);
      }
    }

    method ShutdownClient()
      modifies this
      ensures State() == RemoteTab.ShutdownClient(old(State()))
    {
      if child.client.Some? {
        child := child.(alive := child.alive - {child.client.value.id});
        child := child.(client := None);
      }
    }

    method TearDownClient()
      modifies this
      ensures State() == RemoteTab.TearDownClient(old(State()))
    {
      if child.client.None? { return; }
      SetClientShown(false);
      child := child.(alive := child.alive - {child.client.value.id}, client := None);
      gate := gate.(connected := false);
      gate := gate.(deferredShow := false);
    }

    method StartConnection(w: World, saved: bool)
      modifies this
      ensures State() == RemoteTab.StartConnection(old(State()), w, saved)
    {
      if child.client.Some? { return; }
      if child.window == 0 { return; }
      if !saved {
        hadError := true;
        return;
      }
      if !w.exePresent {
        hadError := true;
        return;
      }
      var id := child.spawned;
      child := child.(client := Some(Client(id, child.window, false, w.launchOk, w.now, false, None)),
      alive := child.alive + {id}, spawned := id + 1);
      connecting := true;
      hadError := false;
      if !w.launchOk {
        child := child.(alive := child.alive - {id}, client := None);
        connecting := false;
        hadError := true;
      }
    }

    method OnLoaded(w: World, saved: bool)
      modifies this
      ensures State() == OnArrived(old(State()), w, saved)
    {
      if loaded { return; }
      loaded := true;
      if autoConnect { StartConnection(w, saved); }
      OnRdpHostSizeChanged();
    }

    method OnPlaceholderActionClick(w: World, saved: bool)
      modifies this
      ensures State() == OnActionClick(old(State()), w, saved)
    {
      hadError := false;
      if child.client.Some? { TearDownClient(); }
      StartConnection(w, saved);
    }

    method ReapplyConnectionSettings(w: World, saved: bool)
      modifies this
      ensures State() == OnSettingsChanged(old(State()), w, saved)
    {
      if child.client.None? { return; }
      hadError := false;
      TearDownClient();
      StartConnection(w, saved);
    }

    method OnConnected(src: nat)
      modifies this
      ensures State() == OnUp(old(State()), src)
    {
      gate := gate.(connected := true);
      child := MarkUp(child, src);
      connecting := false;
      hadError := false;
      if gate.wantsVisible && child.client.Some? && !gate.suppressed {
        SetClientShown(true);
      }
    }

    method OnDisconnected(w: World, src: nat)
      modifies this
      ensures State() == OnDropped(old(State()), w, src)
    {
      var wasConnected := gate.connected;
      gate := gate.(connected := false);
      connecting := false;
      SetClientShown(false);
      child := MarkDropped(child, w, src);
      if wasConnected {
        hadError := false;
      } else {
        hadError := true;
      }
    }

    method OnError()
      modifies this
      ensures State() == OnErrored(old(State()))
    {
      connecting := false;
      hadError := true;
    }

    /** One queued event of the page's own, start to end. */
    method Handle(w: World, ev: RemoteEvent)
      requires RemoteTab.Valid(State())
      modifies this
      ensures State() == RemoteTab.Step(old(State()), w, ev) && RemoteTab.Valid(State())
      ensures Fields.StepLaw(old(State()), w, Event(ev), State())
    {
      StepValid(State(), w, ev);
      Fields.StepExactly(State(), w, Event(ev), RemoteTab.Step(State(), w, ev));
      hide Fields.StepLaw;
      match ev
      case Arrived(saved) => OnLoaded(w, saved);
      case LaidOut => OnRdpHostSizeChanged();
      case ActionClick(saved) => OnPlaceholderActionClick(w, saved);
      case SettingsChanged(saved) => ReapplyConnectionSettings(w, saved);
      case Up(src) => OnConnected(src);
      case Dropped(src) => OnDisconnected(w, src);
      case Errored(_) => OnError();
    }
  }
}
