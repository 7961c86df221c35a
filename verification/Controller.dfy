/** The classes of the parts take the steps of the whole: each method here ensures
    a case of `EndToEnd.Follows`. The manager does not take part in the cases of
    the flow tables and of the connection. */
module Controller {
  import opened Options
  import opened FlowModel
  import opened Acknowledged
  import opened Delivery
  import opened EndToEnd
  import O = OfctrlState
  import M = IfStatusModel
  import Mgr = IfStatusMgr
  import R = Reconcilers

  /** Both flow tables and the interface manager are in the state `a` of the
      whole. */
  ghost predicate InState(r: R.Reconciler, m: Mgr.Manager, a: Whole)
    reads r, r.lflows, r.pflows, m, m.tracker
  {
    && r.Valid() && r.Believes(a.d.virt) && r.Now(a.d.virt) == Here(a)
    && m.Valid() && m.State() == a.m
  }

  /** What the rest of ovn-controller, the switch and the network may do next. */
  ghost predicate MayDo(a: Whole, e: Happening) {
    match e
    case OnManager(ev) => !ev.SeqnoRunEvent? && !ev.ConnectionLostEvent?
    case OnTable(logical, op) => R.May(R.OnTable(logical, op), Here(a))
    case OnConnection(ev, lc, pc, _, _) =>
      && MayCome(a.d.s, ev) && Reported(a, ev, lc, pc)
      && (ev.Iterate? && ev.msg == Some(O.BarrierReply) ==> !Queued(a.d.queue, a.d.s.w.net.inFlight[0]))
    case SwitchProcesses => a.d.queue != []
    case RunSeqno => true
    case LoseConnection => a.d.s.up
  }

  /** The binding module or the main loop calls the manager. */
  method DoManager(r: R.Reconciler, m: Mgr.Manager, ev: M.MgrEvent, ghost a: Whole) returns (ghost a': Whole)
    requires InState(r, m, a) && MayDo(a, OnManager(ev))
    modifies m, m.tracker
    ensures InState(r, m, a') && Follows(a, m.seqType, OnManager(ev), a')
  {
    Mgr.Step(m, ev);
    a' := a.(m := m.State(), d := a.d.(s := Requested(a.d.s, a.m.track, m.State().track)));
    RequestedSame(a.d.s, a.m.track, m.State().track);
  }

  function TablesOf(s: R.Situation): Tables {
    Tables(s.l, s.p, s.lstale, s.pstale)
  }

  /** One of the flow tables changes. */
  method DoTable(r: R.Reconciler, m: Mgr.Manager, logical: bool, op: R.TableOp, virt: Switch, ghost a: Whole)
      returns (ghost a': Whole)
    requires InState(r, m, a) && virt == a.d.virt && MayDo(a, OnTable(logical, op))
    modifies r, r.lflows, r.pflows
    ensures InState(r, m, a') && TableFollows(a, logical, op, a') && a'.m == a.m
  {
    var _, e := R.TryStep(r, R.OnTable(logical, op), virt);
    a' := a.(tables := TablesOf(e.after), dirtyL := a.dirtyL || logical, dirtyP := a.dirtyP || !logical,
             todoL := a.todoL && !(logical && op.Clear?), todoP := a.todoP && !(!logical && op.Clear?));
  }

  /** What an event on the connection has done to the flow tables, and to the
      flows that the switch will hold. */
  ghost predicate FlowsDone(a: Whole, ev: O.Event, lc: bool, pc: bool, mods: seq<FlowMod>, after: R.Situation) {
    var o := a.d.s.w.o;
    match after
    case Situation(virt, _, _, _, _) =>
      if Clears(o, ev) then
        mods == [] && virt == a.d.sw && R.SeenOk(R.ClearFlows(a.d.sw), [], R.Seen(true, Here(a), after))
      else if Effective(o, ev) then
        var op := PutOp(o, lc, pc);
        virt == ApplyAll(a.d.virt, mods) && R.SeenOk(op, mods, R.Seen(R.May(op, Here(a)), Here(a), after))
      else mods == [] && after == Here(a)
  }

  /** The flow tables' part of an event on the connection. */
  method DoFlows(r: R.Reconciler, o: O.Ofctrl, ev: O.Event, lc: bool, pc: bool, virt: Switch, sw: Switch,
                 ghost a: Whole)
      returns (mods: seq<FlowMod>, ghost after: R.Situation)
    requires r.Valid() && r.Believes(virt) && r.Now(virt) == Here(a)
    requires TablesOk(a) && TodoOk(a) && Reported(a, ev, lc, pc) && o == a.d.s.w.o && virt == a.d.virt && sw == a.d.sw
    modifies r, r.lflows, r.pflows
    ensures r.Valid() && r.Believes(after.sw) && r.Now(after.sw) == after
    ensures FlowsDone(a, ev, lc, pc, mods, after)
  {
    mods, after := [], Here(a);
    if Clears(o, ev) {
      var _, e := R.TryStep(r, R.ClearFlows(sw), virt);
      after := e.after;
    } else if Effective(o, ev) {
      PutIssued(a, ev, lc, pc);
      var msgs, e := R.TryStep(r, PutOp(o, lc, pc), virt);
      mods, after := msgs, e.after;
    }
  }

  /** A put with flow-mods has something to send. */
  function WithMods(ev: O.Event, mods: seq<FlowMod>): O.Event {
    if ev.Put? && mods != [] then ev.(otherMsgs := true) else ev
  }

  lemma WithModsPasses(d: Wire, ev: O.Event, mods: seq<FlowMod>)
    requires MayHappen(d.s, Connection(ev))
    requires ev.Iterate? && ev.msg == Some(O.BarrierReply) ==> !Queued(d.queue, d.s.w.net.inFlight[0])
    ensures var ev', o := WithMods(ev, mods), d.s.w.o;
      && MayPass(d, ev', mods) && Clears(o, ev') == Clears(o, ev) && Effective(o, ev') == Effective(o, ev)
      && PutTakesUp(o, ev') == PutTakesUp(o, ev)
  {
  }

  lemma WithModsMay(a: Whole, ev: O.Event, lc: bool, pc: bool, mods: seq<FlowMod>, flows: Switch)
    requires TodoOk(a) && MayDo(a, OnConnection(ev, lc, pc, [], flows))
    ensures var ev', o := WithMods(ev, mods), a.d.s.w.o;
      && MayPass(a.d, ev', mods) && Reported(a, ev', lc, pc)
      && Clears(o, ev') == Clears(o, ev) && Effective(o, ev') == Effective(o, ev)
      && PutTakesUp(o, ev') == PutTakesUp(o, ev)
  {
    AfreshReported(a, ev, lc, pc);
    WithModsPasses(a.d, ev, mods);
  }

  lemma PassedVirt(d: Wire, ev: O.Event, mods: seq<FlowMod>, flows: Switch)
    requires MayPass(d, ev, mods)
    ensures Passed(d, ev, mods, flows).virt ==
      if Clears(d.s.w.o, ev) then d.sw else if Effective(d.s.w.o, ev) then ApplyAll(d.virt, mods) else d.virt
  {
  }

  ghost function Connected(a: Whole, ev: O.Event, mods: seq<FlowMod>, flows: Switch, tables: Tables): Whole
    requires MayPass(a.d, ev, mods)
  {
    Whole(a.m, Passed(a.d, ev, mods, flows), tables, a.dirtyL && !ev.Put?, a.dirtyP && !ev.Put?,
          a.todoL || ev.Reconnect?, a.todoP || ev.Reconnect?,
          if PutTakesUp(a.d.s.w.o, ev) then a.wanted + [tables] else a.wanted)
  }

  lemma ConnectedFlows(a: Whole, ev: O.Event, ev': O.Event, lc: bool, pc: bool, mods: seq<FlowMod>, flows: Switch,
                       after: R.Situation)
    requires MayPass(a.d, ev', mods) && FlowsDone(a, ev, lc, pc, mods, after)
    requires var o := a.d.s.w.o; Clears(o, ev') == Clears(o, ev) && Effective(o, ev') == Effective(o, ev)
    ensures var a' := Connected(a, ev', mods, flows, TablesOf(after));
      Here(a') == after && TablesFollow(a, ev', lc, pc, mods, a')
  {
    PassedVirt(a.d, ev', mods, flows);
  }

  lemma ConnectedFollows(a: Whole, ev: O.Event, ev': O.Event, lc: bool, pc: bool, mods: seq<FlowMod>, flows: Switch,
                         after: R.Situation)
    requires MayPass(a.d, ev', mods) && Reported(a, ev', lc, pc) && FlowsDone(a, ev, lc, pc, mods, after)
    requires var o := a.d.s.w.o; Clears(o, ev') == Clears(o, ev) && Effective(o, ev') == Effective(o, ev)
    ensures var a' := Connected(a, ev', mods, flows, TablesOf(after));
      ConnectionFollows(a, ev', lc, pc, mods, flows, a') && Here(a') == after
  {
    ConnectedFlows(a, ev, ev', lc, pc, mods, flows, after);
  }

  lemma ConnectionStep(a: Whole, ev: O.Event, lc: bool, pc: bool, mods: seq<FlowMod>, flows: Switch,
                       after: R.Situation) returns (a': Whole)
    requires TodoOk(a) && MayDo(a, OnConnection(ev, lc, pc, [], flows)) && FlowsDone(a, ev, lc, pc, mods, after)
    ensures ConnectionFollows(a, WithMods(ev, mods), lc, pc, mods, flows, a')
    ensures a'.m == a.m && Here(a') == after
  {
    var ev' := WithMods(ev, mods);
    WithModsMay(a, ev, lc, pc, mods, flows);
    a' := Connected(a, ev', mods, flows, TablesOf(after));
    ConnectedFollows(a, ev, ev', lc, pc, mods, flows, after);
  }

  /** An event on the connection. What it does to the connection itself is as the
      state machine has it; the flow-mods of a put are sent. */
  method DoConnection(r: R.Reconciler, m: Mgr.Manager, o: O.Ofctrl, ev: O.Event, lc: bool, pc: bool,
                      virt: Switch, sw: Switch, ghost flows: Switch, ghost a: Whole)
      returns (mods: seq<FlowMod>, ghost a': Whole)
    requires InState(r, m, a) && TablesOk(a) && TodoOk(a) && o == a.d.s.w.o && virt == a.d.virt && sw == a.d.sw
    requires MayDo(a, OnConnection(ev, lc, pc, [], flows))
    modifies r, r.lflows, r.pflows
    ensures InState(r, m, a') && ConnectionFollows(a, WithMods(ev, mods), lc, pc, mods, flows, a') && a'.m == a.m
  {
    ghost var after;
    mods, after := DoFlows(r, o, ev, lc, pc, virt, sw, a);
    a' := ConnectionStep(a, ev, lc, pc, mods, flows, after);
  }

  /** `ofctrl_seqno_run` with the current configuration. */
  method DoSeqno(r: R.Reconciler, m: Mgr.Manager, curCfg: nat, ghost a: Whole) returns (ghost a': Whole)
    requires InState(r, m, a) && curCfg == a.d.s.w.o.curCfg
    modifies m, m.tracker
    ensures InState(r, m, a') && Follows(a, m.seqType, RunSeqno, a')
  {
    Mgr.Step(m, M.SeqnoRunEvent(curCfg));
    a' := a.(m := m.State(), d := a.d.(s := Next(a.d.s, SeqnoRun)));
  }

  /** The main loop notices that the connection is lost. */
  method DoLost(r: R.Reconciler, m: Mgr.Manager, ghost a: Whole) returns (ghost a': Whole)
    requires InState(r, m, a) && MayDo(a, LoseConnection)
    modifies m, m.tracker
    ensures InState(r, m, a') && Follows(a, m.seqType, LoseConnection, a')
  {
    Mgr.Step(m, M.ConnectionLostEvent);
    a' := a.(m := m.State(), d := a.d.(s := Next(a.d.s, Lost)), todoL := true, todoP := true);
  }
}
