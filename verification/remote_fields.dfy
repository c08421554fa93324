/** A remote host's tab field by field: what every event and every order of its window does to
    each of them, as `VmTabFields` has it for a VM's tab. */
module RemoteFields {
  import opened Wrappers
  import opened VmTab
  import opened RemoteTab
  import Runs = VmTabRuns

  /** The button, and changed settings while there is a client, begin afresh. */
  predicate Restarts(t: Remote, o: Order) {
    o.Event? && (o.ev.ActionClick? || (o.ev.SettingsChanged? && t.child.client.Some?))
  }

  /** The page tries to connect: it begins afresh, or it is loaded for the first time, was
      opened by the user, and has no client. */
  predicate Tries(t: Remote, o: Order) {
    && t.child.window != 0
    && (Restarts(t, o)
        || (o.Event? && o.ev.Arrived? && !t.loaded && t.autoConnect && t.child.client.None?))
  }

  function HostSaved(o: Order): bool {
    o.Event? && ((o.ev.ActionClick? && o.ev.saved) || (o.ev.SettingsChanged? && o.ev.saved)
                 || (o.ev.Arrived? && o.ev.saved))
  }

  /** A child is launched: the host is still saved and the program is there. */
  predicate Launches(t: Remote, w: World, o: Order) {
    Tries(t, o) && HostSaved(o) && w.exePresent
  }

  predicate ChildLaw(t: Remote, w: World, o: Order, c: Child) {
    var lost := t.child.client.Some? && Restarts(t, o);
    var left := if lost then t.child.alive - {t.child.client.value.id} else t.child.alive;
    && (c.client.Some? <==> (Launches(t, w, o) && w.launchOk) || (t.child.client.Some? && !lost))
    && c.spawned == t.child.spawned + (if Launches(t, w, o) then 1 else 0)
    && c.alive == (if !Launches(t, w, o) then left
                   else if w.launchOk then left + {t.child.spawned} else left - {t.child.spawned})
    && c.window == (if o.SetHwnd? then o.hwnd else t.child.window)
    && (c.client.Some? && Launches(t, w, o) ==>
          && c.client.value.id == t.child.spawned && c.client.value.owner == t.child.window
          && c.client.value.launched && c.client.value.spawnedAt == w.now
          && !c.client.value.up && c.client.value.droppedAt.None?)
    && (c.client.Some? && !Launches(t, w, o) ==> SameChild(t, w, o, c.client.value))
  }

  predicate SameChild(t: Remote, w: World, o: Order, c: Client)
    requires t.child.client.Some?
  {
    var was := t.child.client.value;
    && c.id == was.id && c.launched == was.launched && c.spawnedAt == was.spawnedAt
    && c.up == (if o.Event? && o.ev.Up? && o.ev.src == was.id then true
                else if o.Event? && o.ev.Dropped? && o.ev.src == was.id then false else was.up)
    && c.droppedAt == (if o.Event? && o.ev.Dropped? && o.ev.src == was.id then Some(w.now) else was.droppedAt)
    && c.owner == (if o.SetHwnd? && o.hwnd != t.child.window then o.hwnd else was.owner)
  }

  predicate Asks(t: Remote, o: Order) {
    (o.Show? && !t.gate.suppressed) || (o.Suppress? && !o.on && t.gate.wantsVisible)
  }

  predicate Resolves(t: Remote, w: World, o: Order) {
    && o.Event? && (o.ev.LaidOut? || (o.ev.Arrived? && !t.loaded))
    && (t.child.client.Some? || (Launches(t, w, o) && w.launchOk))
    && t.gate.connected && t.gate.wantsVisible && !t.gate.suppressed && t.gate.deferredShow
  }

  predicate GateLaw(t: Remote, w: World, o: Order, g: Gate) {
    var lost := t.child.client.Some? && Restarts(t, o);
    && g.wantsVisible == ((t.gate.wantsVisible || o.Show?) && !o.Hide?)
    && g.suppressed == (if o.Suppress? then o.on else t.gate.suppressed)
    && g.connected == ((t.gate.connected || (o.Event? && o.ev.Up?)) && !(o.Event? && o.ev.Dropped?) && !lost)
    && g.deferredShow == (if o.Hide? || lost || Resolves(t, w, o) then false
                          else if Asks(t, o) && t.child.client.Some? && t.gate.connected then !w.border
                          else t.gate.deferredShow)
  }

  predicate Shows(t: Remote, w: World, o: Order) {
    || (Asks(t, o) && t.child.client.Some? && t.gate.connected && w.border)
    || Resolves(t, w, o)
    || (o.Event? && o.ev.Up? && t.child.client.Some? && t.gate.wantsVisible && !t.gate.suppressed)
    || (Runs.OnScreen(RemoteTab.PopupOf(t)) && !Restarts(t, o)
        && !o.Hide? && !(o.Suppress? && o.on) && !(o.Event? && o.ev.Dropped?))
  }

  /** An attempt is under way exactly from a launch that worked until an answer or an error. */
  predicate Connecting(t: Remote, w: World, o: Order) {
    if Launches(t, w, o) then w.launchOk
    else t.connecting && !(o.Event? && (o.ev.Up? || o.ev.Dropped? || o.ev.Errored?))
  }

  /** The page shows an error: one the child raised, a session that ended before it was up, a
      host no longer saved, a missing program or a failed launch. */
  predicate Fails(t: Remote, w: World, o: Order) {
    || (o.Event? && o.ev.Errored?)
    || (o.Event? && o.ev.Dropped? && !t.gate.connected)
    || (Tries(t, o) && !(HostSaved(o) && w.exePresent && w.launchOk))
    || (t.hadError && !Restarts(t, o) && !Launches(t, w, o) && !(o.Event? && (o.ev.Up? || o.ev.Dropped?)))
  }

  predicate StepLaw(t: Remote, w: World, o: Order, t': Remote) {
    && ChildLaw(t, w, o, t'.child) && GateLaw(t, w, o, t'.gate) && (Runs.OnScreen(RemoteTab.PopupOf(t')) <==> Shows(t, w, o))
    && t'.connecting == Connecting(t, w, o) && t'.hadError == Fails(t, w, o)
    && t'.loaded == (t.loaded || (o.Event? && o.ev.Arrived?)) && t'.autoConnect == t.autoConnect
  }

  lemma OrderChild(t: Remote, w: World, o: Order)
    requires !o.Event?
    ensures ChildLaw(t, w, o, Obey(t, w, o).child)
  {}

  lemma OrderGate(t: Remote, w: World, o: Order)
    requires !o.Event?
    ensures GateLaw(t, w, o, Obey(t, w, o).gate)
    ensures Runs.OnScreen(RemoteTab.PopupOf(Obey(t, w, o))) <==> Shows(t, w, o)
  {}

  lemma OrderRest(t: Remote, w: World, o: Order)
    requires !o.Event?
    ensures var t' := Obey(t, w, o);
            && t'.connecting == Connecting(t, w, o) && t'.hadError == Fails(t, w, o)
            && t'.loaded == (t.loaded || (o.Event? && o.ev.Arrived?)) && t'.autoConnect == t.autoConnect
  {}

  lemma OrderStep(t: Remote, w: World, o: Order)
    requires !o.Event?
    ensures StepLaw(t, w, o, Obey(t, w, o))
  {
    hide Obey, ChildLaw, GateLaw, Shows, Connecting, Fails;
    OrderChild(t, w, o);
    OrderGate(t, w, o);
    OrderRest(t, w, o);
  }

  lemma AnswerChild(t: Remote, w: World, o: Order)
    requires o.Event? && (o.ev.Up? || o.ev.Dropped? || o.ev.Errored? || o.ev.LaidOut?)
    ensures ChildLaw(t, w, o, Obey(t, w, o).child)
  {}

  lemma AnswerGate(t: Remote, w: World, o: Order)
    requires o.Event? && (o.ev.Up? || o.ev.Dropped? || o.ev.Errored? || o.ev.LaidOut?)
    ensures GateLaw(t, w, o, Obey(t, w, o).gate)
    ensures Runs.OnScreen(RemoteTab.PopupOf(Obey(t, w, o))) <==> Shows(t, w, o)
  {}

  lemma AnswerRest(t: Remote, w: World, o: Order)
    requires o.Event? && (o.ev.Up? || o.ev.Dropped? || o.ev.Errored? || o.ev.LaidOut?)
    ensures var t' := Obey(t, w, o);
            && t'.connecting == Connecting(t, w, o) && t'.hadError == Fails(t, w, o)
            && t'.loaded == (t.loaded || (o.Event? && o.ev.Arrived?)) && t'.autoConnect == t.autoConnect
  {}

  lemma AnswerStep(t: Remote, w: World, o: Order)
    requires o.Event? && (o.ev.Up? || o.ev.Dropped? || o.ev.Errored? || o.ev.LaidOut?)
    ensures StepLaw(t, w, o, Obey(t, w, o))
  {
    hide Obey, ChildLaw, GateLaw, Shows, Connecting, Fails;
    AnswerChild(t, w, o);
    AnswerGate(t, w, o);
    AnswerRest(t, w, o);
  }

  function Afresh(t: Remote, w: World, o: Order): Remote {
    RemoteTab.StartConnection(RemoteTab.TearDownClient(t.(hadError := false)), w, HostSaved(o))
  }

  lemma RestartIs(t: Remote, w: World, o: Order)
    requires Restarts(t, o)
    ensures Obey(t, w, o) == Afresh(t, w, o)
    ensures Launches(t, w, o) == (t.child.window != 0 && HostSaved(o) && w.exePresent)
  {
    hide RemoteTab.StartConnection, RemoteTab.TearDownClient;
  }

  lemma RestartChild(t: Remote, w: World, o: Order)
    requires Restarts(t, o)
    ensures ChildLaw(t, w, o, Afresh(t, w, o).child)
  {
    RestartIs(t, w, o);
    hide Launches, HostSaved, Obey;
  }

  lemma RestartGate(t: Remote, w: World, o: Order)
    requires Restarts(t, o)
    ensures var t' := Afresh(t, w, o);
            GateLaw(t, w, o, t'.gate) && (Runs.OnScreen(RemoteTab.PopupOf(t')) <==> Shows(t, w, o))
  {
    RestartIs(t, w, o);
    hide Launches, HostSaved, Obey;
  }

  lemma RestartRest(t: Remote, w: World, o: Order)
    requires Restarts(t, o)
    ensures var t' := Afresh(t, w, o);
            && t'.connecting == Connecting(t, w, o) && t'.hadError == Fails(t, w, o)
            && t'.loaded == t.loaded && t'.autoConnect == t.autoConnect
  {
    RestartIs(t, w, o);
    hide Launches, HostSaved, Obey;
  }

  lemma RestartStep(t: Remote, w: World, o: Order)
    requires Restarts(t, o)
    ensures StepLaw(t, w, o, Obey(t, w, o))
  {
    RestartIs(t, w, o);
    hide Obey, ChildLaw, GateLaw, Shows, Connecting, Fails, Afresh, HostSaved, Launches;
    RestartChild(t, w, o);
    RestartGate(t, w, o);
    RestartRest(t, w, o);
  }

  /** Changed settings mean nothing to a page without a client. */
  lemma IdleStep(t: Remote, w: World, o: Order)
    requires o.Event? && o.ev.SettingsChanged? && t.child.client.None?
    ensures StepLaw(t, w, o, Obey(t, w, o))
  {}

  lemma ArrivedStep(t: Remote, w: World, o: Order)
    requires o.Event? && o.ev.Arrived?
    ensures StepLaw(t, w, o, Obey(t, w, o))
  {}

  lemma OneStep(t: Remote, w: World, o: Order)
    ensures StepLaw(t, w, o, Obey(t, w, o))
  {
    hide Obey, StepLaw;
    if !o.Event? { OrderStep(t, w, o); }
    else if o.ev.Arrived? { ArrivedStep(t, w, o); }
    else if Restarts(t, o) { RestartStep(t, w, o); }
    else if o.ev.SettingsChanged? { IdleStep(t, w, o); }
    else { AnswerStep(t, w, o); }
  }

  lemma OneLaw(t: Remote, w: World, o: Order, a: Remote, b: Remote)
    requires StepLaw(t, w, o, a) && StepLaw(t, w, o, b)
    ensures a == b
  {
    hide Launches, Restarts, Tries, Resolves, Shows, Connecting, Fails, Asks;
  }

  /** The laws hold of a step and of nothing else. */
  lemma StepExactly(t: Remote, w: World, o: Order, t': Remote)
    ensures StepLaw(t, w, o, t') <==> t' == Obey(t, w, o)
  {
    OneStep(t, w, o);
    hide Obey, StepLaw;
    if StepLaw(t, w, o, t') { OneLaw(t, w, o, t', Obey(t, w, o)); }
  }
}
