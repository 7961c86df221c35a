/** ovn-controller as a whole, as far as flows and interfaces go: the interface
    manager, the requests, the connection, both flow tables and the switch. */
module EndToEnd {
  import opened Ints
  import opened FlowModel
  import opened FlowTables
  import opened Seqno
  import opened Acknowledged
  import opened Delivery
  import O = OfctrlState
  import I = IfStatus
  import M = IfStatusModel
  import R = Reconcilers

  datatype Tables = Tables(l: Table, p: Table, lstale: bool, pstale: bool)

  /** `dirtyL` and `dirtyP`: the logical or physical table changed since
      `ofctrl_put` was last called;
      `todoL` and `todoP`: the table is to be computed again, because a connection
      was made or lost;
      `wanted`: the tables at each put that took its configuration up. */
  datatype Whole = Whole(m: M.Mgr, d: Wire, tables: Tables, dirtyL: bool, dirtyP: bool, todoL: bool, todoP: bool,
                         wanted: seq<Tables>)

  datatype Happening =
    | OnManager(mgrEvent: M.MgrEvent)
    | OnTable(logical: bool, op: R.TableOp)
    | OnConnection(ev: O.Event, lflowsChanged: bool, pflowsChanged: bool, mods: seq<FlowMod>, flows: Switch)
    | SwitchProcesses
    | RunSeqno
    | LoseConnection

  /** What the interface manager sees of it. */
  function MgrEventOf(a: Whole, e: Happening): M.MgrEvent {
    match e
    case OnManager(ev) => ev
    case RunSeqno => M.SeqnoRunEvent(a.d.s.w.o.curCfg)
    case LoseConnection => M.ConnectionLostEvent
    case _ => M.IdleEvent
  }

  /** The request, if any, that takes the one list to the other. */
  ghost function Requested(s: Sys, k: Tracking, k': Tracking): Sys {
    if k'.updates == [] || k'.reqSeqno == k.reqSeqno then s
    else
      var u := k'.updates[|k'.updates| - 1];
      Next(s, Request(u.seqnoType, u.reqCfg))
  }

  function Here(a: Whole): R.Situation {
    R.Situation(a.d.virt, a.tables.l, a.tables.p, a.tables.lstale, a.tables.pstale)
  }

  /** A put of the flow tables. A table is left out if it is not reported as
      changed, and the last put was not skipped. */
  function PutOp(o: O.Ofctrl, lflowsChanged: bool, pflowsChanged: bool): R.Op {
    R.Put(lflowsChanged || o.skippedLastTime, pflowsChanged || o.skippedLastTime)
  }

  /** What an event on the connection does to the tables: S_CLEAR_FLOWS and puts
      are as the flow-table part has them, and others do nothing. */
  ghost predicate TablesFollow(a: Whole, ev: O.Event, lc: bool, pc: bool, mods: seq<FlowMod>, a': Whole) {
    var o := a.d.s.w.o;
    if Clears(o, ev) then R.SeenOk(R.ClearFlows(a.d.sw), [], R.Seen(true, Here(a), Here(a')))
    else if Effective(o, ev) then
      var op := PutOp(o, lc, pc);
      R.SeenOk(op, mods, R.Seen(R.May(op, Here(a)), Here(a), Here(a')))
    else a'.tables == a.tables
  }

  /** A changed table is reported to the next put, and there is no put before a
      table that is to be computed again was. */
  predicate Reported(a: Whole, ev: O.Event, lc: bool, pc: bool) {
    ev.Put? ==>
      ev.changed == (lc || pc) && (lc || !a.dirtyL) && (pc || !a.dirtyP) && !a.todoL && !a.todoP
  }

  ghost predicate ConnectionFollows(a: Whole, ev: O.Event, lc: bool, pc: bool, mods: seq<FlowMod>, flows: Switch,
                                    a': Whole) {
    && MayPass(a.d, ev, mods) && Reported(a, ev, lc, pc)
    && a'.d == Passed(a.d, ev, mods, flows) && TablesFollow(a, ev, lc, pc, mods, a')
    && a'.dirtyL == (a.dirtyL && !ev.Put?) && a'.dirtyP == (a.dirtyP && !ev.Put?)
    && a'.todoL == (a.todoL || ev.Reconnect?) && a'.todoP == (a.todoP || ev.Reconnect?)
    && a'.wanted == (if PutTakesUp(a.d.s.w.o, ev) then a.wanted + [a'.tables] else a.wanted)
  }

  /** A table changes. Computing one again starts with clearing it. */
  ghost predicate TableFollows(a: Whole, logical: bool, op: R.TableOp, a': Whole) {
    && R.SeenOk(R.OnTable(logical, op), [], R.Seen(true, Here(a), Here(a')))
    && a' == a.(m := a'.m, tables := a'.tables, dirtyL := a.dirtyL || logical, dirtyP := a.dirtyP || !logical,
                todoL := a.todoL && !(logical && op.Clear?), todoP := a.todoP && !(!logical && op.Clear?))
  }

  /** One step of the whole. */
  ghost predicate Follows(a: Whole, t: nat, e: Happening, a': Whole) {
    && t < |a.m.track.states| && a'.m == M.After(a.m, t, MgrEventOf(a, e))
    && match e
       case OnManager(ev) =>
         && !ev.SeqnoRunEvent? && !ev.ConnectionLostEvent?
         && a' == a.(m := a'.m, d := a.d.(s := Requested(a.d.s, a.m.track, a'.m.track)))
       case OnTable(logical, op) => TableFollows(a, logical, op, a')
       case OnConnection(ev, lc, pc, mods, flows) => ConnectionFollows(a, ev, lc, pc, mods, flows, a')
       case SwitchProcesses => a.d.queue != [] && a' == a.(m := a'.m, d := Processed(a.d))
       case RunSeqno => a' == a.(m := a'.m, d := a.d.(s := Next(a.d.s, SeqnoRun)))
       case LoseConnection =>
         a.d.s.up && a' == a.(m := a'.m, d := a.d.(s := Next(a.d.s, Lost)), todoL := true, todoP := true)
  }

  /** ovn-controller starts; the switch holds anything. */
  ghost predicate Starts(a: Whole, t: nat) {
    && M.Fresh(a.m, t) && a.m.track.updates == [] && a.m.track.reqSeqno == 0
    && SysInit(a.d.s) && a.d == Wire(a.d.s, [], a.d.sw, a.d.sw, [], {})
    && a == Whole(a.m, a.d, Tables(R.NoFlows(), R.NoFlows(), false, false), true, true, false, false, [])
  }

  ghost predicate FollowsAt(ws: seq<Whole>, t: nat, es: seq<Happening>, i: nat)
    requires i < |es| && i + 1 < |ws|
  {
    Follows(ws[i], t, es[i], ws[i + 1])
  }

  ghost predicate IsWholeRun(ws: seq<Whole>, t: nat, es: seq<Happening>) {
    && |ws| == |es| + 1 && Starts(ws[0], t)
    && forall i {:trigger FollowsAt(ws, t, es, i)} | 0 <= i < |es| :: FollowsAt(ws, t, es, i)
  }

  // ------------------------------------------------------------------ what is kept

  /** Manager and connection have the same requests. */
  ghost predicate Together(m: M.Mgr, s: Sys) {
    && m.track.updates == s.flight && m.track.reqSeqno == s.reqSeqno
    && forall c | c in m.made :: c in s.info
  }

  /** The switch has, or will have, what was wanted at each put. */
  ghost predicate WantedOk(a: Whole) {
    && |a.wanted| == |a.d.held|
    && forall i | 0 <= i < |a.wanted| :: R.PutSeen(a.d.held[i], a.wanted[i].l.core, a.wanted[i].p.core)
  }

  ghost predicate TablesOk(a: Whole) {
    var o := a.d.s.w.o;
    && (o.skippedLastTime || a.dirtyL || a.todoL || R.Unchanged(a.tables.l))
    && (o.skippedLastTime || a.dirtyP || a.todoP || R.Unchanged(a.tables.p))
    && (o.skippedLastTime || o.initialClear || a.dirtyL || a.dirtyP ||
        R.PutSeen(a.d.virt, a.tables.l.core, a.tables.p.core))
  }

  /** A stale table is to be computed again, and so is any that will be one when
      flows are cleared. All flows are, or were since the last put, if a connection
      was made or lost. */
  ghost predicate TodoOk(a: Whole) {
    && (a.d.s.afresh ==> a.todoL || a.dirtyL)
    && (a.tables.lstale ==> a.todoL) && (a.tables.pstale ==> a.todoP)
    && (!a.d.s.w.o.phase.SUpdateFlows? ==>
          && (a.tables.l.core.changeTracked ==> a.todoL) && (a.tables.p.core.changeTracked ==> a.todoP))
  }

  ghost predicate WholeInv(a: Whole, t: nat) {
    && M.Ok(a.m, t) && SysInv(a.d.s) && WireInv(a.d)
    && Together(a.m, a.d.s) && WantedOk(a) && TablesOk(a) && TodoOk(a)
  }

  /** Only the requests differ, and whether the connection is taken to be up. */
  ghost predicate SameConnection(s: Sys, s': Sys) {
    s'.w == s.w && s'.puts == s.puts && s'.epoch == s.epoch && s'.settled == s.settled && (s'.up ==> s.up)
  }

  lemma RequestsOnly(d: Wire, s': Sys)
    requires WireInv(d) && SameConnection(d.s, s') && PutsOk(s')
    ensures WireInv(d.(s := s'))
  {
  }

  /** At most one request was made. */
  ghost predicate AtMostOne(m: M.Mgr, m': M.Mgr) {
    var k, k' := m.track, m'.track;
    || (k'.updates == k.updates && k'.reqSeqno == k.reqSeqno && m'.made == m.made)
    || (&& |k'.updates| == |k.updates| + 1 && k'.reqSeqno == k.reqSeqno + 1
        && k'.updates[..|k.updates|] == k.updates && k'.updates[|k.updates|].flowCfg == k.reqSeqno + 1
        && forall c | c in m'.made :: c in m.made || c == k.reqSeqno + 1)
  }

  lemma ManagerRequests(m: M.Mgr, t: nat, ev: M.MgrEvent)
    requires M.RequestsOk(m, t) && !ev.SeqnoRunEvent? && !ev.ConnectionLostEvent?
    ensures AtMostOne(m, M.After(m, t, ev))
  {
    if ev.UpdateEvent? && M.Updates(m, t, ev.env) {
      assert (m.total + 1) % UINT32 != m.track.states[t].reqCfg by { I.NextSeqno(m.total); }
    }
  }

  lemma RequestTogether(m: M.Mgr, m': M.Mgr, s: Sys)
    requires AtMostOne(m, m') && Together(m, s)
    ensures var s' := Requested(s, m.track, m'.track); Together(m', s') && SameConnection(s, s')
  {
    var k, k' := m.track, m'.track;
    if k'.reqSeqno != k.reqSeqno {
      assert k'.updates == k.updates + [k'.updates[|k.updates|]];
    }
  }

  lemma RequestedKeeps(s: Sys, k: Tracking, k': Tracking)
    requires SysInv(s)
    ensures SysInv(Requested(s, k, k'))
  {
    if k'.updates != [] && k'.reqSeqno != k.reqSeqno {
      var u := k'.updates[|k'.updates| - 1];
      NextKeeps(s, Request(u.seqnoType, u.reqCfg));
    }
  }

  lemma SeqnoTogether(m: M.Mgr, t: nat, s: Sys)
    requires t < |m.track.states| && Together(m, s)
    ensures Together(M.After(m, t, M.SeqnoRunEvent(s.w.o.curCfg)), Next(s, SeqnoRun))
  {
  }

  lemma ConnectionRequests(s: Sys, ev: O.Event)
    requires MayHappen(s, Connection(ev))
    ensures var s' := Next(s, Connection(ev)); s'.info == s.info && s'.reqSeqno == s.reqSeqno
  {
  }

  /** Each step keeps manager and connection together. */
  lemma TogetherStays(a: Whole, t: nat, e: Happening, a': Whole)
    requires M.RequestsOk(a.m, t) && Together(a.m, a.d.s) && Follows(a, t, e, a')
    ensures Together(a'.m, a'.d.s)
  {
    match e
    case OnManager(ev) =>
      ManagerRequests(a.m, t, ev);
      RequestTogether(a.m, a'.m, a.d.s);
    case RunSeqno => SeqnoTogether(a.m, t, a.d.s);
    case OnConnection(ev, _, _, _, _) =>
      ConnectionRequests(a.d.s, ev);
      assert M.After(a.m, t, M.IdleEvent) == a.m;
    case _ =>
  }

  lemma SysStays(a: Whole, t: nat, e: Happening, a': Whole)
    requires SysInv(a.d.s) && Follows(a, t, e, a')
    ensures SysInv(a'.d.s)
  {
    match e
    case OnManager(_) => RequestedKeeps(a.d.s, a.m.track, a'.m.track);
    case OnConnection(ev, _, _, _, _) => ConnectionKeeps(a.d.s, ev);
    case RunSeqno => SeqnoRunKeeps(a.d.s);
    case LoseConnection => NextKeeps(a.d.s, Lost);
    case _ =>
  }

  lemma RequestedSame(s: Sys, k: Tracking, k': Tracking)
    ensures SameConnection(s, Requested(s, k, k'))
  {
  }

  lemma WireStays(a: Whole, t: nat, e: Happening, a': Whole)
    requires SysInv(a.d.s) && WireInv(a.d) && PutsOk(a'.d.s) && Follows(a, t, e, a')
    ensures WireInv(a'.d)
  {
    match e
    case OnManager(_) =>
      RequestedSame(a.d.s, a.m.track, a'.m.track);
      RequestsOnly(a.d, a'.d.s);
    case OnConnection(ev, _, _, mods, flows) => PassedKeeps(a.d, ev, mods, flows);
    case SwitchProcesses => ProcessedKeeps(a.d);
    case OnTable(_, _) =>
    case _ => RequestsOnly(a.d, a'.d.s);
  }

  /** What a put does to the flags that puts depend on. */
  lemma PutFlags(w: O.World, ev: O.Event)
    requires O.Enabled(w, ev) && ev.Put?
    ensures var o, o' := w.o, O.Step(w, ev).o;
      if Effective(o, ev) then PutTakesUp(o, ev) && !o'.skippedLastTime && !o'.initialClear
      else if O.NeedPut(o, ev.req, ev.changed).0 then o'.skippedLastTime && !PutTakesUp(o, ev)
      else !ev.changed && !o.skippedLastTime && !o.initialClear && !o'.skippedLastTime && !o'.initialClear
  {
  }

  /** And other events. */
  lemma OtherFlags(w: O.World, ev: O.Event)
    requires O.Enabled(w, ev) && !ev.Put?
    ensures var o, o' := w.o, O.Step(w, ev).o;
      o'.skippedLastTime == o.skippedLastTime && o'.initialClear == (o.initialClear || Clears(o, ev))
  {
    if ev.Iterate? && ev.msg.Some? {
      RecvFlags(O.RunState(w, ev.now), ev.msg.value);
    }
  }

  /** The first put after a connection was made or lost is told that flows changed. */
  lemma AfreshReported(a: Whole, ev: O.Event, lc: bool, pc: bool)
    requires TodoOk(a) && Reported(a, ev, lc, pc) && MayCome(a.d.s, ev)
    ensures MayHappen(a.d.s, Connection(ev))
  {
  }

  /** A put gets to a table that changed since the last one that did. */
  lemma PutIssued(a: Whole, ev: O.Event, lc: bool, pc: bool)
    requires TablesOk(a) && TodoOk(a) && Reported(a, ev, lc, pc) && Effective(a.d.s.w.o, ev)
    ensures R.May(PutOp(a.d.s.w.o, lc, pc), Here(a))
  {
  }

  lemma PutRealises(a: Whole, ev: O.Event, lc: bool, pc: bool, mods: seq<FlowMod>, a': Whole)
    requires TablesOk(a) && TodoOk(a) && Reported(a, ev, lc, pc) && Effective(a.d.s.w.o, ev)
    requires TablesFollow(a, ev, lc, pc, mods, a')
    ensures R.PutSeen(a'.d.virt, a'.tables.l.core, a'.tables.p.core)
    ensures R.Unchanged(a'.tables.l) && R.Unchanged(a'.tables.p) && !a'.tables.lstale && !a'.tables.pstale
  {
    PutIssued(a, ev, lc, pc);
  }

  lemma ConnectionTables(a: Whole, ev: O.Event, lc: bool, pc: bool, mods: seq<FlowMod>, flows: Switch, a': Whole)
    requires WantedOk(a) && TablesOk(a) && TodoOk(a) && ConnectionFollows(a, ev, lc, pc, mods, flows, a')
    ensures WantedOk(a') && TablesOk(a')
  {
    if ev.Put? {
      PutFlags(a.d.s.w, ev);
    } else {
      OtherFlags(a.d.s.w, ev);
    }
    if Clears(a.d.s.w.o, ev) {
      assert R.TablesAfter(R.ClearFlows(a.d.sw), Here(a), Here(a'));
    } else if Effective(a.d.s.w.o, ev) {
      PutRealises(a, ev, lc, pc, mods, a');
    }
  }

  lemma TablesStay(a: Whole, t: nat, e: Happening, a': Whole)
    requires WantedOk(a) && TablesOk(a) && TodoOk(a) && Follows(a, t, e, a')
    ensures WantedOk(a') && TablesOk(a')
  {
    match e
    case OnConnection(ev, lc, pc, mods, flows) => ConnectionTables(a, ev, lc, pc, mods, flows, a');
    case OnManager(_) => RequestedSame(a.d.s, a.m.track, a'.m.track);
    case _ =>
  }

  lemma StillUpdating(w: O.World, ev: O.Event)
    requires O.Enabled(w, ev) && !ev.Reconnect? && w.o.phase.SUpdateFlows?
    ensures O.Step(w, ev).o.phase.SUpdateFlows?
  {
    if ev.Iterate? && ev.msg.Some? {
      RecvFlags(O.RunState(w, ev.now), ev.msg.value);
    }
  }

  /** S_UPDATE_FLOWS is left only by a reconnect, and reached by clearing flows. */
  lemma StillAway(d: Wire, ev: O.Event, mods: seq<FlowMod>, flows: Switch)
    requires MayPass(d, ev, mods)
    ensures var s' := Passed(d, ev, mods, flows).s;
      && s'.afresh == (ev.Reconnect? || (d.s.afresh && !ev.Put?))
      && (s'.w.o.phase.SUpdateFlows? || ev.Reconnect? || (!d.s.w.o.phase.SUpdateFlows? && !Clears(d.s.w.o, ev)))
  {
    var w := d.s.w;
    if !ev.Reconnect? && w.o.phase.SUpdateFlows? {
      StillUpdating(w, ev);
    } else if Clears(w.o, ev) {
      RunStateCalm(w, ev.now);
      assert O.Step(w, ev).o.phase.SUpdateFlows?;
    }
  }

  lemma ConnectionTodo(a: Whole, ev: O.Event, lc: bool, pc: bool, mods: seq<FlowMod>, flows: Switch, a': Whole)
    requires TablesOk(a) && TodoOk(a) && ConnectionFollows(a, ev, lc, pc, mods, flows, a')
    ensures TodoOk(a')
  {
    StillAway(a.d, ev, mods, flows);
    if Effective(a.d.s.w.o, ev) {
      PutRealises(a, ev, lc, pc, mods, a');
    }
  }

  lemma TodoStays(a: Whole, t: nat, e: Happening, a': Whole)
    requires TablesOk(a) && TodoOk(a) && Follows(a, t, e, a')
    ensures TodoOk(a')
  {
    match e
    case OnConnection(ev, lc, pc, mods, flows) => ConnectionTodo(a, ev, lc, pc, mods, flows, a');
    case OnManager(_) => RequestedSame(a.d.s, a.m.track, a'.m.track);
    case _ =>
  }

  /** Every step of the whole keeps all of it. */
  lemma WholeKeeps(a: Whole, t: nat, e: Happening, a': Whole)
    requires WholeInv(a, t) && Follows(a, t, e, a')
    ensures WholeInv(a', t)
  {
    assert M.Ok(a'.m, t) by { M.AfterKeeps(a.m, t, MgrEventOf(a, e)); }
    TogetherStays(a, t, e, a');
    SysStays(a, t, e, a');
    WireStays(a, t, e, a');
    TablesStay(a, t, e, a');
    TodoStays(a, t, e, a');
  }

  lemma StartsOk(a: Whole, t: nat)
    requires Starts(a, t)
    ensures WholeInv(a, t)
  {
  }

  /** Where the invariant holds. */
  ghost function Holds(ws: seq<Whole>, t: nat): (r: seq<bool>)
    ensures |r| == |ws| && forall j | 0 <= j < |r| :: r[j] == WholeInv(ws[j], t)
  {
    seq(|ws|, j requires 0 <= j < |ws| => WholeInv(ws[j], t))
  }

  predicate Inductive(b: seq<bool>) {
    b != [] && b[0] && forall j | 0 < j < |b| && b[j - 1] :: b[j]
  }

  lemma {:induction false} InductiveHolds(b: seq<bool>, n: nat)
    requires Inductive(b) && n < |b|
    ensures b[n]
  {
    if n > 0 {
      InductiveHolds(b, n - 1);
    }
  }

  lemma RunSteps(ws: seq<Whole>, t: nat, es: seq<Happening>)
    requires IsWholeRun(ws, t, es)
    ensures Inductive(Holds(ws, t))
  {
    var b := Holds(ws, t);
    StartsOk(ws[0], t);
    forall j | 0 < j < |b| && b[j - 1] ensures b[j] {
      assert FollowsAt(ws, t, es, j - 1);
      WholeKeeps(ws[j - 1], t, es[j - 1], ws[j]);
    }
  }

  lemma WholeRunKeeps(ws: seq<Whole>, t: nat, es: seq<Happening>, n: nat)
    requires IsWholeRun(ws, t, es) && n <= |es|
    ensures WholeInv(ws[n], t)
  {
    RunSteps(ws, t, es);
    InductiveHolds(Holds(ws, t), n);
  }

  // --------------------------------------------------------------------- whole runs

  /** The run as the interface manager sees it. */
  function Managers(ws: seq<Whole>): (r: seq<M.Mgr>)
    ensures |r| == |ws| && forall j | 0 <= j < |r| :: r[j] == ws[j].m
  {
    seq(|ws|, j requires 0 <= j < |ws| => ws[j].m)
  }

  function ManagerEvents(ws: seq<Whole>, es: seq<Happening>): (r: seq<M.MgrEvent>)
    requires |es| <= |ws|
    ensures |r| == |es| && forall j | 0 <= j < |r| :: r[j] == MgrEventOf(ws[j], es[j])
  {
    seq(|es|, j requires 0 <= j < |es| => MgrEventOf(ws[j], es[j]))
  }

  lemma ManagerRun(ws: seq<Whole>, t: nat, es: seq<Happening>)
    requires IsWholeRun(ws, t, es)
    ensures M.IsMgrRun(Managers(ws), t, ManagerEvents(ws, es))
  {
    var ms, evs := Managers(ws), ManagerEvents(ws, es);
    forall j | 0 <= j < |evs| ensures t < |ms[j].track.states| && ms[j + 1] == M.After(ms[j], t, evs[j]) {
      assert FollowsAt(ws, t, es, j);
    }
  }

  /** The run as the connection sees it. */
  function Connections(ws: seq<Whole>): (r: seq<Sys>)
    ensures |r| == |ws| && forall j | 0 <= j < |r| :: r[j] == ws[j].d.s
  {
    seq(|ws|, j requires 0 <= j < |ws| => ws[j].d.s)
  }

  lemma StepLive(a: Whole, t: nat, e: Happening, a': Whole)
    requires Follows(a, t, e, a')
    ensures LiveStep(a.d.s, a'.d.s)
  {
    match e
    case OnManager(_) => RequestedSame(a.d.s, a.m.track, a'.m.track);
    case OnConnection(ev, _, _, _, _) => NextLive(a.d.s, Connection(ev));
    case _ =>
  }

  lemma ConnectionsLive(ws: seq<Whole>, t: nat, es: seq<Happening>)
    requires IsWholeRun(ws, t, es)
    ensures LiveSteps(Connections(ws))
  {
    var ss := Connections(ws);
    forall j | 0 < j < |ss| ensures LiveStep(ss[j - 1], ss[j]) {
      assert FollowsAt(ws, t, es, j - 1);
      StepLive(ws[j - 1], t, es[j - 1], ws[j]);
    }
  }

  /** The switch has held put `i`'s flows just now. */
  predicate ReachedNow(d: Wire, i: nat) {
    Live(d.s) && d.s.epoch <= i < |d.held| && d.held[i] == d.sw
  }

  ghost predicate ReachedStep(d: Wire, d': Wire) {
    d.held <= d'.held && forall i | i in d'.reached :: i in d.reached || ReachedNow(d', i)
  }

  ghost predicate ReachedSteps(ws: seq<Whole>) {
    && ws != [] && ws[0].d.reached == {}
    && forall n | 0 < n < |ws| :: ReachedStep(ws[n - 1].d, ws[n].d)
  }

  lemma PassedReached(d: Wire, ev: O.Event, mods: seq<FlowMod>, flows: Switch)
    requires MayPass(d, ev, mods)
    ensures ReachedStep(d, Passed(d, ev, mods, flows))
  {
  }

  lemma StepReached(a: Whole, t: nat, e: Happening, a': Whole)
    requires Follows(a, t, e, a')
    ensures ReachedStep(a.d, a'.d)
  {
    match e
    case OnConnection(ev, _, _, mods, flows) => PassedReached(a.d, ev, mods, flows);
    case _ =>
  }

  lemma RunReached(ws: seq<Whole>, t: nat, es: seq<Happening>)
    requires IsWholeRun(ws, t, es)
    ensures ReachedSteps(ws)
  {
    forall n | 0 < n < |ws| ensures ReachedStep(ws[n - 1].d, ws[n].d) {
      assert FollowsAt(ws, t, es, n - 1);
      StepReached(ws[n - 1], t, es[n - 1], ws[n]);
    }
  }

  /** What `reached` means. */
  lemma {:induction false} ReachedMeans(ws: seq<Whole>, n: nat, i: nat) returns (h: nat)
    requires ReachedSteps(ws) && n < |ws| && i in ws[n].d.reached
    ensures h <= n && ReachedNow(ws[h].d, i) && ws[h].d.held <= ws[n].d.held
  {
    h := n;
    if !ReachedNow(ws[n].d, i) {
      h := ReachedMeans(ws, n - 1, i);
    }
  }

  /** Step `g` is a put that takes its configuration up. */
  predicate PutAt(ws: seq<Whole>, es: seq<Happening>, g: nat) {
    g < |es| && g < |ws| && es[g].OnConnection? && PutTakesUp(ws[g].d.s.w.o, es[g].ev)
  }

  /** The tables at each put are recorded. */
  ghost predicate WantedSteps(ws: seq<Whole>, es: seq<Happening>) {
    && |ws| == |es| + 1 && ws[0].wanted == []
    && forall n | 0 <= n < |es| ::
      ws[n + 1].wanted == if PutAt(ws, es, n) then ws[n].wanted + [ws[n + 1].tables] else ws[n].wanted
  }

  lemma WantedRun(ws: seq<Whole>, t: nat, es: seq<Happening>)
    requires IsWholeRun(ws, t, es)
    ensures WantedSteps(ws, es)
  {
    forall n | 0 <= n < |es| ensures
      ws[n + 1].wanted == if PutAt(ws, es, n) then ws[n].wanted + [ws[n + 1].tables] else ws[n].wanted
    {
      assert FollowsAt(ws, t, es, n);
    }
  }

  lemma {:induction false} WantedMeans(ws: seq<Whole>, es: seq<Happening>, n: nat, i: nat) returns (g: nat)
    requires WantedSteps(ws, es) && n <= |es| && i < |ws[n].wanted|
    ensures g < n && PutAt(ws, es, g) && |ws[g].wanted| == i && ws[n].wanted[i] == ws[g + 1].tables
  {
    g := n - 1;
    if i < |ws[g].wanted| {
      g := WantedMeans(ws, es, g, i);
    }
  }

  lemma {:induction false} WantedGrows(ws: seq<Whole>, es: seq<Happening>, m: nat, n: nat)
    requires WantedSteps(ws, es) && m <= n <= |es|
    ensures |ws[m].wanted| <= |ws[n].wanted|
  {
    if m < n {
      WantedGrows(ws, es, m, n - 1);
    }
  }

  /** A request keeps what was known when it was made, on the same connection. */
  lemma InfoAfter(a: Whole, t: nat, e: Happening, a': Whole, c: nat)
    requires Follows(a, t, e, a') && !e.LoseConnection? && c in a.d.s.info && c <= a.d.s.reqSeqno
    ensures c in a'.d.s.info && a'.d.s.info[c] == a.d.s.info[c] && c <= a'.d.s.reqSeqno
  {
    match e
    case OnConnection(ev, _, _, _, _) => ConnectionRequests(a.d.s, ev);
    case _ =>
  }

  lemma InfoMade(a: Whole, t: nat, e: Happening, a': Whole)
    requires Follows(a, t, e, a') && e.OnManager? && a.d.s.reqSeqno < a'.d.s.reqSeqno
    ensures var s, c := a.d.s, a.d.s.reqSeqno + 1;
      a'.d.s.reqSeqno == c && c in a'.d.s.info && a'.d.s.info[c] == Info(c <= s.w.o.curCfg, |s.puts|)
  {
  }

  /** The request that step `k` made is still known, with what held then. */
  ghost predicate StillKnown(a: Whole, c: nat, info: Info) {
    c in a.d.s.info && a.d.s.info[c] == info && c <= a.d.s.reqSeqno
  }

  lemma {:induction false} InfoStays(ws: seq<Whole>, t: nat, es: seq<Happening>, k: nat, n: nat, c: nat, info: Info)
    requires IsWholeRun(ws, t, es) && k < n <= |es| && forall j | k < j < n :: !es[j].LoseConnection?
    requires StillKnown(ws[k + 1], c, info)
    ensures StillKnown(ws[n], c, info)
    decreases n
  {
    if n > k + 1 {
      InfoStays(ws, t, es, k, n - 1, c, info);
      assert FollowsAt(ws, t, es, n - 1);
      InfoAfter(ws[n - 1], t, es[n - 1], ws[n], c);
    }
  }

  /** The switch has held, since put `i` and on the same connection, flows that
      realise what was wanted then. */
  ghost predicate HasHeld(a: Whole, since: nat, i: nat) {
    && since <= i < |a.wanted| == |a.d.held| && i in a.d.reached
    && R.PutSeen(a.d.held[i], a.wanted[i].l.core, a.wanted[i].p.core)
  }

  /** An acknowledged request was early, or the switch has held what was wanted at
      a put made since. */
  lemma AckedHasHeld(a: Whole, t: nat, c: nat) returns (i: nat)
    requires WholeInv(a, t) && c in a.d.s.acked
    ensures c in a.d.s.info && (a.d.s.info[c].early || HasHeld(a, a.d.s.info[c].since, i))
  {
    i := 0;
    if !a.d.s.info[c].early {
      i :| i in a.d.s.settled && a.d.s.info[c].since <= i;
    }
  }

  lemma RequestMade(a: Whole, t: nat, e: Happening, a': Whole, i: I.IfaceId)
    requires M.RequestsOk(a.m, t) && Together(a.m, a.d.s) && Follows(a, t, e, a')
    requires M.RequestsFor(a.m, t, MgrEventOf(a, e), i)
    ensures e.OnManager? && a'.d.s.reqSeqno == a.d.s.reqSeqno + 1
  {
    assert (a.m.total + 1) % UINT32 != a.m.track.states[t].reqCfg by { I.NextSeqno(a.m.total); }
  }

  /** What is known of the request that step `k` makes, if it makes one. */
  function InfoAt(a: Whole): Info {
    Info(a.d.s.reqSeqno + 1 <= a.d.s.w.o.curCfg, |a.d.s.puts|)
  }

  lemma LatestMade(ws: seq<Whole>, t: nat, es: seq<Happening>, i: I.IfaceId, k: nat)
    requires IsWholeRun(ws, t, es) && k < |es| && t < |ws[k].m.track.states|
    requires M.RequestsFor(ws[k].m, t, MgrEventOf(ws[k], es[k]), i)
    ensures es[k].OnManager? && StillKnown(ws[k + 1], ws[k].d.s.reqSeqno + 1, InfoAt(ws[k]))
  {
    assert M.RequestsOk(ws[k].m, t) && Together(ws[k].m, ws[k].d.s) by { WholeRunKeeps(ws, t, es, k); }
    assert FollowsAt(ws, t, es, k);
    RequestMade(ws[k], t, es[k], ws[k + 1], i);
    InfoMade(ws[k], t, es[k], ws[k + 1]);
  }

  lemma LatestNotLost(ws: seq<Whole>, t: nat, es: seq<Happening>, n: nat, i: I.IfaceId, k: nat)
    requires |ws| == |es| + 1 && n <= |es| && M.LatestRequest(Managers(ws), t, ManagerEvents(ws, es), n, i, k)
    ensures t < |ws[k].m.track.states| && M.RequestsFor(ws[k].m, t, MgrEventOf(ws[k], es[k]), i)
    ensures forall j | k < j < n :: !es[j].LoseConnection?
  {
    forall j | k < j < n ensures !es[j].LoseConnection? {
      assert ManagerEvents(ws, es)[j] != M.ConnectionLostEvent;
    }
  }

  /** The latest request for an interface is still known. */
  lemma LatestKnown(ws: seq<Whole>, t: nat, es: seq<Happening>, n: nat, i: I.IfaceId, k: nat)
    requires IsWholeRun(ws, t, es) && n <= |es|
    requires M.LatestRequest(Managers(ws), t, ManagerEvents(ws, es), n, i, k)
    ensures es[k].OnManager? && StillKnown(ws[n], ws[k].d.s.reqSeqno + 1, InfoAt(ws[k]))
  {
    LatestNotLost(ws, t, es, n, i, k);
    LatestMade(ws, t, es, i, k);
    InfoStays(ws, t, es, k, n, ws[k].d.s.reqSeqno + 1, InfoAt(ws[k]));
  }

  /** Put number `j`, which was made after step `k`. */
  lemma PutSince(ws: seq<Whole>, t: nat, es: seq<Happening>, n: nat, k: nat, j: nat) returns (g: nat)
    requires IsWholeRun(ws, t, es) && k < n <= |es| && es[k].OnManager? && |ws[k].wanted| <= j < |ws[n].wanted|
    ensures k < g < n && PutAt(ws, es, g) && |ws[g].wanted| == j && ws[n].wanted[j] == ws[g + 1].tables
  {
    WantedRun(ws, t, es);
    g := WantedMeans(ws, es, n, j);
    if g < k {
      WantedGrows(ws, es, g + 1, k);
    }
  }

  /** The request that step `k` made is not in flight any more. */
  ghost predicate Arrived(ws: seq<Whole>, n: nat, k: nat)
    requires k < |ws| && n < |ws|
  {
    forall u | u in ws[n].m.track.updates :: u.flowCfg != ws[k].m.track.reqSeqno + 1
  }

  lemma ArrivedAcked(ws: seq<Whole>, t: nat, es: seq<Happening>, n: nat, k: nat)
    requires IsWholeRun(ws, t, es) && k < n <= |es| && Arrived(ws, n, k)
    requires ws[k].d.s.reqSeqno + 1 in ws[n].d.s.info
    ensures ws[k].d.s.reqSeqno + 1 in ws[n].d.s.acked
  {
    PutsWanted(ws, t, es, k);
    WholeRunKeeps(ws, t, es, n);
  }

  lemma PutsWanted(ws: seq<Whole>, t: nat, es: seq<Happening>, n: nat)
    requires IsWholeRun(ws, t, es) && n <= |es|
    ensures |ws[n].wanted| == |ws[n].d.held| == |ws[n].d.s.puts| && ws[n].m.track.reqSeqno == ws[n].d.s.reqSeqno
  {
    WholeRunKeeps(ws, t, es, n);
  }

  /** A put that takes its configuration up is made while barriers are processed. */
  lemma PutLive(ws: seq<Whole>, t: nat, es: seq<Happening>, g: nat)
    requires IsWholeRun(ws, t, es) && PutAt(ws, es, g)
    ensures Live(ws[g].d.s) && |ws[g + 1].d.s.puts| == |ws[g].d.s.puts| + 1
  {
    assert PutPending(ws[g].d.s) by { WholeRunKeeps(ws, t, es, g); }
    assert FollowsAt(ws, t, es, g);
    TakesUpLive(ws[g].d.s, es[g].ev);
  }

  /** Between put `g` and step `h`, where the switch has its flows, there is one
      connection. */
  lemma LiveBetween(ws: seq<Whole>, t: nat, es: seq<Happening>, g: nat, h: nat)
    requires IsWholeRun(ws, t, es) && h <= |es| && PutAt(ws, es, g)
    requires |ws[h].d.held| == |ws[h].d.s.puts| && ReachedNow(ws[h].d, |ws[g].d.s.puts|)
    ensures g < h && LiveThrough(Connections(ws), g, h)
  {
    var ss := Connections(ws);
    PutLive(ws, t, es, g);
    ConnectionsLive(ws, t, es);
    if h <= g {
      PutsGrow(ss, h, g);
    } else {
      LiveSince(ss, g + 1, h);
    }
  }

  /** Either the current configuration was not below the request that step `k`
      made, or both tables were put after that, at step `g`, and after the put, at
      step `h`, the switch held flows that realise them as they were then. From
      the put on it was one connection, and flows were not cleared. */
  ghost predicate EarlyOrRealised(ws: seq<Whole>, es: seq<Happening>, n: nat, k: nat, g: nat, h: nat)
    requires k < |ws| == |es| + 1 && n <= |es|
  {
    || ws[k].d.s.reqSeqno < ws[k].d.s.w.o.curCfg
    || (&& k < g < h <= n && PutAt(ws, es, g) && LiveThrough(Connections(ws), g, h)
        && R.PutSeen(ws[h].d.sw, ws[g + 1].tables.l.core, ws[g + 1].tables.p.core))
  }

  lemma HeldSince(ws: seq<Whole>, t: nat, es: seq<Happening>, n: nat, k: nat, j: nat) returns (g: nat, h: nat)
    requires IsWholeRun(ws, t, es) && k < n <= |es| && es[k].OnManager? && HasHeld(ws[n], |ws[k].wanted|, j)
    ensures EarlyOrRealised(ws, es, n, k, g, h)
  {
    g := PutSince(ws, t, es, n, k, j);
    RunReached(ws, t, es);
    h := ReachedMeans(ws, n, j);
    PutsWanted(ws, t, es, g);
    PutsWanted(ws, t, es, h);
    LiveBetween(ws, t, es, g, h);
  }

  lemma RequestRealised(ws: seq<Whole>, t: nat, es: seq<Happening>, n: nat, k: nat) returns (g: nat, h: nat)
    requires IsWholeRun(ws, t, es) && n <= |es| && k < n && es[k].OnManager?
    requires var s, c := ws[n].d.s, ws[k].d.s.reqSeqno + 1; c in s.acked && c in s.info && s.info[c] == InfoAt(ws[k])
    ensures EarlyOrRealised(ws, es, n, k, g, h)
  {
    PutsWanted(ws, t, es, k);
    assert WholeInv(ws[n], t) by { WholeRunKeeps(ws, t, es, n); }
    var j := AckedHasHeld(ws[n], t, ws[k].d.s.reqSeqno + 1);
    g, h := 0, 0;
    if !InfoAt(ws[k]).early {
      g, h := HeldSince(ws, t, es, n, k, j);
    }
  }

  /** Step `k` made request `c`, and the main loop has not lost the connection
      since. */
  predicate MadeAt(ws: seq<Whole>, es: seq<Happening>, n: nat, c: nat, k: nat) {
    && k < n <= |es| < |ws| && es[k].OnManager? && c == ws[k].d.s.reqSeqno + 1
    && forall x | k < x < n :: !es[x].LoseConnection?
  }

  /** What is known of a request is what held when it was made. */
  ghost predicate InfoStep(a: Whole, e: Happening, a': Whole) {
    var info, info' := a.d.s.info, a'.d.s.info;
    forall c | c in info' ::
      if c in info && info'[c] == info[c] then !e.LoseConnection?
      else e.OnManager? && c == a.d.s.reqSeqno + 1 && info'[c] == InfoAt(a)
  }

  ghost predicate InfoSteps(ws: seq<Whole>, es: seq<Happening>) {
    && |ws| == |es| + 1 && ws[0].d.s.info == map[]
    && forall n | 0 <= n < |es| :: InfoStep(ws[n], es[n], ws[n + 1])
  }

  lemma StepInfo(a: Whole, t: nat, e: Happening, a': Whole)
    requires Follows(a, t, e, a')
    ensures InfoStep(a, e, a')
  {
    match e
    case OnConnection(ev, _, _, _, _) => ConnectionRequests(a.d.s, ev);
    case _ =>
  }

  lemma RunInfo(ws: seq<Whole>, t: nat, es: seq<Happening>)
    requires IsWholeRun(ws, t, es)
    ensures InfoSteps(ws, es)
  {
    forall n | 0 <= n < |es| ensures InfoStep(ws[n], es[n], ws[n + 1]) {
      assert FollowsAt(ws, t, es, n);
      StepInfo(ws[n], t, es[n], ws[n + 1]);
    }
  }

  lemma {:induction false} MadeMeans(ws: seq<Whole>, es: seq<Happening>, n: nat, c: nat) returns (k: nat)
    requires InfoSteps(ws, es) && n <= |es| && c in ws[n].d.s.info
    ensures MadeAt(ws, es, n, c, k) && ws[n].d.s.info[c] == InfoAt(ws[k])
  {
    k := n - 1;
    assert InfoStep(ws[k], es[k], ws[n]);
    if c in ws[k].d.s.info && ws[n].d.s.info[c] == ws[k].d.s.info[c] {
      k := MadeMeans(ws, es, n - 1, c);
    }
  }

  /** In every run of the whole: an acknowledged request was early, or there was a
      put after it, and after the put the switch held what was wanted then. */
  lemma AckedIsRealised(ws: seq<Whole>, t: nat, es: seq<Happening>, n: nat, c: nat) returns (k: nat, g: nat, h: nat)
    requires IsWholeRun(ws, t, es) && n <= |es| && c in ws[n].d.s.acked
    ensures MadeAt(ws, es, n, c, k) && EarlyOrRealised(ws, es, n, k, g, h)
  {
    assert c in ws[n].d.s.info by { WholeRunKeeps(ws, t, es, n); }
    RunInfo(ws, t, es);
    k := MadeMeans(ws, es, n, c);
    g, h := RequestRealised(ws, t, es, n, k);
  }

  lemma UpArrived(ws: seq<Whole>, t: nat, es: seq<Happening>, n: nat, i: I.IfaceId) returns (k: nat)
    requires IsWholeRun(ws, t, es) && n <= |es|
    requires M.AlwaysVif(Managers(ws), ManagerEvents(ws, es), n, i)
    requires i in ws[n].m.ifaces && I.IsUp(ws[n].m.ifaces[i])
    ensures M.LatestRequest(Managers(ws), t, ManagerEvents(ws, es), n, i, k) && Arrived(ws, n, k)
  {
    ManagerRun(ws, t, es);
    k := M.UpWasAnswered(Managers(ws), t, ManagerEvents(ws, es), n, i);
  }

  /** In every run of the whole: when an interface that was always claimed as a vif
      is past INSTALL_FLOWS, a request was made for its flows on this connection,
      and it was early, or there was a put after it, and after the put the switch
      held what was wanted then. */
  lemma UpIsRealised(ws: seq<Whole>, t: nat, es: seq<Happening>, n: nat, i: I.IfaceId) returns (k: nat, g: nat, h: nat)
    requires IsWholeRun(ws, t, es) && n <= |es|
    requires M.AlwaysVif(Managers(ws), ManagerEvents(ws, es), n, i)
    requires i in ws[n].m.ifaces && I.IsUp(ws[n].m.ifaces[i])
    ensures M.LatestRequest(Managers(ws), t, ManagerEvents(ws, es), n, i, k) && EarlyOrRealised(ws, es, n, k, g, h)
  {
    k := UpArrived(ws, t, es, n, i);
    LatestKnown(ws, t, es, n, i, k);
    ArrivedAcked(ws, t, es, n, k);
    g, h := RequestRealised(ws, t, es, n, k);
  }
}
