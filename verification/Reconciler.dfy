/** The logical and the physical flow table of ovn-controller against one
    switch, through any run of the operations of controller/ofctrl.c. */
module Reconcilers {
  import opened Options
  import opened FlowModel
  import opened FlowSteps
  import opened FlowSync
  import opened FlowMerge
  import opened SbIndex
  import opened FlowTables

  /** The keys a table has, or has had, something to do with. */
  ghost function KeysOf(c: Core): set<Key> {
    c.installed.Keys + set d | d in c.live && d in c.flows :: c.flows[d].key
  }

  /** An operation on one of the two tables. */
  datatype TableOp =
    | AddFlow(key: Key, content: Content, row: Uuid, addr: Option<AsInfo>)
    | AppendFlow(key: Key, content: Content, row: Uuid, addr: Option<AsInfo>)
    | RemoveFlows(row: Uuid)
    | FloodRemoveFlows(rows: set<Uuid>)
    | RemoveFlowsForAsIp(row: Uuid, info: AsInfo, expected: nat)
    | Clear

  datatype Op =
    | OnTable(logical: bool, op: TableOp)
    | ClearFlows(held: Switch)
    | Put(lflowsChanged: bool, pflowsChanged: bool)

  // ------------------------------------------------ what an operation does to a table

  /** A key that a table has, or has had, a flow for. */
  predicate UsesKey(t: Table, k: Key) {
    k in t.core.installed || exists d | d in t.core.live :: d in t.core.flows && t.core.flows[d].key == k
  }

  /** What a caller of the operation has to respect: conjunctions only come
      through append, a row is appended to a conjunctive flow once, and the
      two tables use different keys. */
  predicate MayApply(t: Table, other: Table, op: TableOp) {
    match op
    case AddFlow(k, x, _, _) => !HasConj(x.actions) && !UsesKey(other, k)
    case AppendFlow(k, x, u, _) =>
      && HasConj(x.actions) && !UsesKey(other, k)
      && (forall d | d in t.core.live :: ConjFlow(t, k, d) ==> d in t.refs && u !in t.refs[d])
    case _ => true
  }

  /** The flow `f` of row `u` is new in `t'`, perhaps indexed under an address. */
  ghost predicate Inserted(t: Table, t': Table, f: Flow, u: Uuid, a: Option<AsInfo>) {
    var d := t.core.nextId;
    && d !in t.core.live && t'.core.live == t.core.live + {d}
    && t'.core.flows == t.core.flows[d := f]
    && t'.refs == t.refs[d := {u}] && t'.byUuid == LinkRow(t.byUuid, u, d, a)
  }

  /** The conjunctions of both. */
  ghost function Combined(have: Content, x: Content): Content {
    have.(actions := have.actions + NewActions(have.actions, x.actions))
  }

  /** Flow `d` has the conjunctions of `x` as well, and one more row. */
  ghost predicate Appended(t: Table, t': Table, d: Id, x: Content, u: Uuid)
    requires d in t.core.flows && d in t.refs
  {
    var have := t.core.flows[d].content;
    && t'.core.live == t.core.live
    && t'.core.flows == t.core.flows[d := t.core.flows[d].(content := Combined(have, x))]
    && t'.refs == t.refs[d := t.refs[d] + {u}] && t'.byUuid == ShareRow(t.byUuid, t.refs[d], u, d)
  }

  ghost predicate RefsKept(t: Table, t': Table) {
    forall f | f in t'.core.live :: f in t.refs && f in t'.refs && t'.refs[f] == t.refs[f]
  }

  ghost function IndexedFlows(t: Table, u: Uuid, a: AsInfo): set<Id> {
    if u in t.byUuid && a in t.byUuid[u].byAddr then t.byUuid[u].byAddr[a] else {}
  }

  ghost predicate Did(op: TableOp, t: Table, t': Table) {
    match op
    case AddFlow(k, x, u, a) =>
      if HasFlow(t, k, u) then t' == t else Inserted(t, t', Flow(k, x), u, a)
    case AppendFlow(k, x, u, a) =>
      && (forall d | ConjFlow(t, k, d) :: d in t.refs && Appended(t, t', d, x, u))
      && ((forall d :: !ConjFlow(t, k, d)) ==> Inserted(t, t', Flow(k, x), u, a))
    case RemoveFlows(u) =>
      && OnlyRemoved(t.core, t'.core, OnlyOf(t.refs, u)) && t'.byUuid == t.byUuid - {u}
      && forall f | f in t'.core.live :: f in t.refs && f in t'.refs && t'.refs[f] == t.refs[f] - {u}
    case FloodRemoveFlows(rows) =>
      && OnlyRemoved(t.core, t'.core, t.core.live - t'.core.live) && t'.byUuid == t.byUuid - Closure(t.refs, rows)
      && (forall f | f in t.core.live ::
            f in t.refs && (f in t'.core.live <==> t.refs[f] * Closure(t.refs, rows) == {}))
      && RefsKept(t, t')
    case RemoveFlowsForAsIp(u, a, _) =>
      && OnlyRemoved(t.core, t'.core, IndexedFlows(t, u, a)) && RefsKept(t, t')
      && t'.byUuid == WithoutAddr(t, u, a)
    case Clear =>
      && t'.core.live == {} && t'.refs == map[] && t'.byUuid == map[]
      && Contents(t'.core.installed) == Contents(t.core.installed)
  }

  /** The rows' lists without the flows of one row and address. */
  ghost function WithoutAddr(t: Table, u: Uuid, a: AsInfo): map<Uuid, Stf> {
    if u in t.byUuid && a in t.byUuid[u].byAddr
    then t.byUuid[u := Unaddressed(DropFlows(t.byUuid[u], t.byUuid[u].byAddr[a]), a)]
    else t.byUuid
  }

  /** What `FlowTable.Valid` says; and of a stale table, whose installed flows were
      forgotten while changes were tracked, what `FlowTable.Clearable` says. */
  ghost predicate TableOk(t: Table, stale: bool) {
    match stale
    case true => CanClear(t.core) && IndexOk(t.core.live, t.refs, t.byUuid, {})
    case false => Inv(t.core) && IndexOk(t.core.live, t.refs, t.byUuid, {})
  }

  /** The desired flows and their indexes are the same. */
  ghost predicate SameTable(t: Table, t': Table) {
    SameDesired(t.core, t'.core) && t'.refs == t.refs && t'.byUuid == t.byUuid
  }

  lemma RemovedKeys(c: Core, c': Core)
    requires c'.live <= c.live <= c.flows.Keys && c'.live <= c'.flows.Keys
    requires forall d | d in c'.live :: c'.flows[d] == c.flows[d]
    requires Contents(c'.installed) == Contents(c.installed)
    ensures KeysOf(c') <= KeysOf(c)
  {
    assert c'.installed.Keys == Contents(c'.installed).Keys;
    assert c.installed.Keys == Contents(c.installed).Keys;
  }

  lemma AddedKeys(c: Core, c': Core, d: Id, k: Key)
    requires c.live <= c.flows.Keys && c'.live <= c'.flows.Keys && c'.live <= c.live + {d}
    requires forall e | e in c'.live && e != d :: c'.flows[e] == c.flows[e]
    requires d in c'.live ==> c'.flows[d].key == k
    requires c'.installed == c.installed
    ensures KeysOf(c') <= KeysOf(c) + {k}
  {
  }

  method Add(t: FlowTable, k: Key, x: Content, u: Uuid, a: Option<AsInfo>)
    requires t.Valid() && !HasConj(x.actions)
    modifies t
    ensures t.Valid() && t.installed == old(t.installed) && t.changeTracked == old(t.changeTracked)
    ensures KeysOf(t.View()) <= old(KeysOf(t.View())) + {k}
    ensures Did(AddFlow(k, x, u, a), old(t.Snap()), t.Snap())
  {
    t.CheckAndAddFlow(k, x, u, a);
    AddedKeys(old(t.View()), t.View(), old(t.nextId), k);
  }

  method Append(t: FlowTable, k: Key, x: Content, u: Uuid, a: Option<AsInfo>)
    requires t.Valid() && HasConj(x.actions) && forall d | ConjFlow(t.Snap(), k, d) :: u !in t.refs[d]
    modifies t
    ensures t.Valid() && t.installed == old(t.installed) && t.changeTracked == old(t.changeTracked)
    ensures KeysOf(t.View()) <= old(KeysOf(t.View())) + {k}
    ensures Did(AppendFlow(k, x, u, a), old(t.Snap()), t.Snap())
  {
    ghost var was := t.Snap();
    t.AddOrAppendFlow(k, x, u, a);
    AppendedKeys(was, t.Snap(), k, x, u, a);
  }

  lemma AppendedKeys(t: Table, t': Table, k: Key, x: Content, u: Uuid, a: Option<AsInfo>)
    requires t.core.live <= t.core.flows.Keys && t'.core.live <= t'.core.flows.Keys
    requires t'.core.installed == t.core.installed && Did(AppendFlow(k, x, u, a), t, t')
    ensures KeysOf(t'.core) <= KeysOf(t.core) + {k}
  {
    if d :| ConjFlow(t, k, d) {
      AddedKeys(t.core, t'.core, d, k);
    } else {
      AddedKeys(t.core, t'.core, t.core.nextId, k);
    }
  }

  method Remove(t: FlowTable, op: TableOp)
    requires if op.Clear? then t.Clearable() else t.Valid() && !op.AddFlow? && !op.AppendFlow?
    modifies t
    ensures t.Valid() && Contents(t.installed) == old(Contents(t.installed))
    ensures t.changeTracked == (old(t.changeTracked) && !op.Clear?)
    ensures KeysOf(t.View()) <= old(KeysOf(t.View()))
    ensures Did(op, old(t.Snap()), t.Snap())
  {
    match op {
      case RemoveFlows(u) =>
        t.RemoveFlows(u);
      case FloodRemoveFlows(rows) =>
        var _ := t.FloodRemoveFlows(rows);
      case RemoveFlowsForAsIp(u, a, n) =>
        RemoveForAsIp(t, u, a, n);
      case Clear =>
        t.Clear();
    }
    RemovedKeys(old(t.View()), t.View());
  }

  method RemoveForAsIp(t: FlowTable, u: Uuid, a: AsInfo, expected: nat)
    requires t.Valid()
    modifies t
    ensures t.Valid() && OnlyRemoved(old(t.View()), t.View(), IndexedFlows(old(t.Snap()), u, a))
    ensures RefsKept(old(t.Snap()), t.Snap()) && t.byUuid == WithoutAddr(old(t.Snap()), u, a)
  {
    var _ := t.RemoveFlowsForAsIp(u, a, expected);
  }

  lemma SameContentsKeys(a: map<Key, Installed>, b: map<Key, Installed>)
    requires Contents(a) == Contents(b)
    ensures a.Keys == b.Keys
  {
    assert a.Keys == Contents(a).Keys && b.Keys == Contents(b).Keys;
  }

  /** The keys an operation may bring in. */
  function NewKeys(op: TableOp): set<Key> {
    match op
    case AddFlow(k, _, _, _) => {k}
    case AppendFlow(k, _, _, _) => {k}
    case _ => {}
  }

  /** An operation on one table ends the tracking of its changes only if it clears
      the table. */
  predicate Tracks(op: TableOp, t: Table, t': Table) {
    t'.core.changeTracked == (t.core.changeTracked && !op.Clear?)
  }

  /** What an operation on one table does to it. */
  ghost predicate Applied(op: TableOp, t: Table, t': Table) {
    match t'
    case Table(core, _, _) =>
      && TableOk(t', false) && Did(op, t, t')
      && Contents(core.installed) == Contents(t.core.installed)
      && Tracks(op, t, t') && KeysOf(core) <= KeysOf(t.core) + NewKeys(op)
  }

  /** Any operation on one table keeps its invariant and its installed contents. */
  method ApplyOp(t: FlowTable, op: TableOp, stale: bool, ghost other: Table)
    requires TableOk(t.Snap(), stale) && (stale ==> op.Clear?) && MayApply(t.Snap(), other, op)
    modifies t
    ensures Applied(op, old(t.Snap()), t.Snap())
  {
    match op
    case AddFlow(k, x, u, a) => Add(t, k, x, u, a);
    case AppendFlow(k, x, u, a) => Append(t, k, x, u, a);
    case _ => Remove(t, op);
  }

  /** The installed flows of a table were forgotten. */
  ghost predicate Forgot(t: Table, stale: bool, t': Table, stale': bool) {
    match t'
    case Table(core, _, _) =>
      && TableOk(t', stale') && SameTable(t, t') && core.installed == map[]
      && core.changeTracked == t.core.changeTracked && stale' == (stale || core.changeTracked)
      && KeysOf(core) <= KeysOf(t.core)
  }

  method ForgetInstalled(t: FlowTable, stale: bool) returns (stale': bool)
    requires TableOk(t.Snap(), stale)
    modifies t
    ensures Forgot(old(t.Snap()), stale, t.Snap(), stale')
  {
    t.ClearInstalled();
    stale' := stale || t.changeTracked;
  }

  /** The flows on the switch: those of both tables. */
  function Both(l: Core, p: Core): Switch {
    Contents(l.installed) + Contents(p.installed)
  }

  lemma PutLogical(l: Core, p: Core, msgs: seq<FlowMod>, l': Core)
    requires l.live <= l.flows.Keys && p.live <= p.flows.Keys
    requires Effect(l, msgs, l') && KeysOf(l) !! KeysOf(p)
    ensures ApplyAll(Both(l, p), msgs) == Both(l', p) && KeysOf(l') !! KeysOf(p)
  {
    assert DesiredKeys(l') == DesiredKeys(l);
    ApplyAllFrame(Contents(l.installed), Contents(p.installed), msgs, KeysOf(l));
  }

  lemma PutPhysical(l: Core, p: Core, msgs: seq<FlowMod>, p': Core)
    requires l.live <= l.flows.Keys && p.live <= p.flows.Keys
    requires Effect(p, msgs, p') && KeysOf(l) !! KeysOf(p)
    ensures ApplyAll(Both(l, p), msgs) == Both(l, p') && KeysOf(l) !! KeysOf(p')
  {
    assert DesiredKeys(p') == DesiredKeys(p);
    ApplyAllFrame(Contents(p.installed), Contents(l.installed), msgs, KeysOf(p));
  }

  lemma PutBoth(l: Core, p: Core, lm: seq<FlowMod>, l': Core, pm: seq<FlowMod>, p': Core)
    requires l.live <= l.flows.Keys && p.live <= p.flows.Keys
    requires Effect(l, lm, l') && Effect(p, pm, p') && KeysOf(l) !! KeysOf(p)
    ensures ApplyAll(Both(l, p), lm + pm) == Both(l', p') && KeysOf(l') !! KeysOf(p')
  {
    PutLogical(l, p, lm, l');
    PutPhysical(l', p, pm, p');
    ApplyAllConcat(Both(l, p), lm, pm);
  }

  /** Nothing about the table is left to be put. */
  predicate Unchanged(t: Table) {
    t.core.changeTracked && t.core.tracked == []
  }

  /** The switch and both tables. */
  datatype Situation = Situation(sw: Switch, l: Table, p: Table, lstale: bool, pstale: bool)

  /** Whether the rest of ovn-controller may issue `op` now: a stale table is
      cleared before anything else, and a put may skip a table only if it did not
      change. */
  predicate May(op: Op, s: Situation) {
    match op
    case OnTable(logical, o) =>
      if logical then MayApply(s.l, s.p, o) && (s.lstale ==>
            o.Clear?) else MayApply(s.p, s.l, o) && (s.pstale ==> o.Clear?)
    case ClearFlows(_) => true
    case Put(lc, pc) => !s.lstale && !s.pstale && (lc || Unchanged(s.l)) && (pc || Unchanged(s.p))
  }

  /** What an operation makes of the switch. S_CLEAR_FLOWS comes after a
      reconnect, perhaps to a restarted switch that holds anything at all. */
  function SwitchAfter(op: Op, sw: Switch, msgs: seq<FlowMod>): Switch {
    if op.ClearFlows? then op.held else ApplyAll(sw, msgs)
  }

  /** What an operation makes of the two tables. */
  ghost predicate TablesAfter(op: Op, s: Situation, s': Situation) {
    match op
    case OnTable(logical, o) =>
      if logical then Did(o, s.l, s'.l) && Tracks(o, s.l, s'.l) && !s'.lstale && s'.p == s.p && s'.pstale == s.pstale
      else Did(o, s.p, s'.p) && Tracks(o, s.p, s'.p) && !s'.pstale && s'.l == s.l && s'.lstale == s.lstale
    case ClearFlows(_) =>
      && SameTable(s.l, s'.l) && s'.lstale == (s.lstale || s.l.core.changeTracked)
      && SameTable(s.p, s'.p) && s'.pstale == (s.pstale || s.p.core.changeTracked)
    case Put(_, _) => SameTable(s.l, s'.l) && SameTable(s.p, s'.p) && !s'.lstale && !s'.pstale
  }

  /** The invariant of both tables. */
  ghost predicate Sound(l: Table, p: Table, lstale: bool, pstale: bool, initialClear: bool) {
    match initialClear
    case true =>
      && TableOk(l, lstale) && TableOk(p, pstale) && KeysOf(l.core) !! KeysOf(p.core)
      && l.core.installed == map[] && p.core.installed == map[]
      && (l.core.changeTracked ==> lstale) && (p.core.changeTracked ==> pstale)
    case false => TableOk(l, lstale) && TableOk(p, pstale) && KeysOf(l.core) !! KeysOf(p.core)
  }

  lemma NewKeyApart(op: TableOp, t: Table, other: Table)
    requires MayApply(t, other, op)
    ensures NewKeys(op) !! KeysOf(other.core)
  {
  }

  lemma AppliedSound(op: TableOp, t: Table, t': Table, other: Table)
    requires Applied(op, t, t') && MayApply(t, other, op) && KeysOf(t.core) !! KeysOf(other.core)
    ensures TableOk(t', false) && KeysOf(t'.core) !! KeysOf(other.core)
    ensures t'.core.changeTracked ==> t.core.changeTracked && !op.Clear?
    ensures t.core.installed == map[] ==> t'.core.installed == map[]
    ensures Contents(t'.core.installed) == Contents(t.core.installed)
  {
    NewKeyApart(op, t, other);
    SameContentsKeys(t.core.installed, t'.core.installed);
  }

  lemma SoundTables(s: Situation, initialClear: bool)
    requires Sound(s.l, s.p, s.lstale, s.pstale, initialClear)
    ensures TableOk(s.l, s.lstale) && TableOk(s.p, s.pstale)
  {
  }

  lemma SoundLogical(l: Table, p: Table, lstale: bool, pstale: bool, initialClear: bool, op: TableOp, l': Table)
    requires Sound(l, p, lstale, pstale, initialClear) && (lstale ==> op.Clear?) && MayApply(l, p, op)
    requires Applied(op, l, l')
    ensures Sound(l', p, false, pstale, initialClear) && Both(l'.core, p.core) == Both(l.core, p.core)
  {
    AppliedSound(op, l, l', p);
  }

  lemma SoundPhysical(l: Table, p: Table, lstale: bool, pstale: bool, initialClear: bool, op: TableOp, p': Table)
    requires Sound(l, p, lstale, pstale, initialClear) && (pstale ==> op.Clear?) && MayApply(p, l, op)
    requires Applied(op, p, p')
    ensures Sound(l, p', lstale, false, initialClear) && Both(l.core, p'.core) == Both(l.core, p.core)
  {
    AppliedSound(op, p, p', l);
  }

  lemma SoundCleared(l: Table, p: Table, lstale: bool, pstale: bool, initialClear: bool,
                     l': Table, p': Table, lstale': bool, pstale': bool)
    requires Sound(l, p, lstale, pstale, initialClear) && Forgot(l, lstale, l', lstale')
    requires Forgot(p, pstale, p', pstale')
    ensures Sound(l', p', lstale', pstale', true)
    ensures SameTable(l, l') && lstale' == (lstale || l.core.changeTracked)
    ensures SameTable(p, p') && pstale' == (pstale || p.core.changeTracked)
  {
  }

  class Reconciler {
    const lflows: FlowTable
    const pflows: FlowTable
    /** `ofctrl_initial_clear`: the next put deletes everything first. */
    var initialClear: bool
    /** A table whose installed flows were forgotten while changes were tracked;
        its caller has to clear it before anything else. */
    var lstale: bool
    var pstale: bool

    ghost predicate Valid()
      reads this, lflows, pflows
    {
      lflows != pflows && Sound(lflows.Snap(), pflows.Snap(), lstale, pstale, initialClear)
    }

    /** Both tables, with a switch. */
    function Now(sw: Switch): Situation
      reads this, lflows, pflows
    {
      Situation(sw, lflows.Snap(), pflows.Snap(), lstale, pstale)
    }

    /** What the controller believes of a switch that has processed all messages
        so far: it shows the installed flows, unless it is about to be cleared. */
    ghost predicate Believes(sw: Switch)
      reads this, lflows, pflows
    {
      !initialClear ==> sw == Both(lflows.View(), pflows.View())
    }

    /** The switch realises the desired flows of both tables. */
    ghost predicate InSync(sw: Switch)
      requires lflows.live <= lflows.flows.Keys && pflows.live <= pflows.flows.Keys
      reads this, lflows, pflows
    {
      && sw == Both(lflows.View(), pflows.View()) && lflows.installed.Keys !! pflows.installed.Keys
      && Realizes(Contents(lflows.installed), lflows.View())
      && Realizes(Contents(pflows.installed), pflows.View())
    }

    /** A controller that has just connected for the first time: whatever the
        switch holds, the first put clears it. */
    constructor ()
      ensures Valid() && initialClear && fresh(lflows) && fresh(pflows)
      ensures forall sw :: Now(sw) == Start(sw)
    {
      lflows := new FlowTable();
      pflows := new FlowTable();
      initialClear, lstale, pstale := true, false, false;
    }

    /** One of the two tables changes; the switch does not. */
    method ChangeLogical(op: TableOp, ghost sw: Switch)
      requires Valid() && Believes(sw) && May(OnTable(true, op), Now(sw))
      modifies this`lstale, lflows
      ensures Valid() && Believes(sw) && TablesAfter(OnTable(true, op), old(Now(sw)), Now(sw))
    {
      SoundTables(Now(sw), initialClear);
      ApplyOp(lflows, op, lstale, pflows.Snap());
      SoundLogical(old(lflows.Snap()), pflows.Snap(), lstale, pstale, initialClear, op, lflows.Snap());
      lstale := false;
    }

    method ChangePhysical(op: TableOp, ghost sw: Switch)
      requires Valid() && Believes(sw) && May(OnTable(false, op), Now(sw))
      modifies this`pstale, pflows
      ensures Valid() && Believes(sw) && TablesAfter(OnTable(false, op), old(Now(sw)), Now(sw))
    {
      SoundTables(Now(sw), initialClear);
      ApplyOp(pflows, op, pstale, lflows.Snap());
      SoundPhysical(lflows.Snap(), old(pflows.Snap()), lstale, pstale, initialClear, op, pflows.Snap());
      pstale := false;
    }

    /** `run_S_CLEAR_FLOWS`: the installed tables are forgotten. A desired table
        that tracks changes is stale then: it has not been cleared to be computed
        again since the last put. */
    method ClearFlows(ghost sw: Switch)
      requires Valid()
      modifies this, lflows, pflows
      ensures Valid() && initialClear && TablesAfter(Op.ClearFlows(sw), old(Now(sw)), Now(sw))
    {
      SoundTables(Now(sw), initialClear);
      lstale := ForgetInstalled(lflows, lstale);
      pstale := ForgetInstalled(pflows, pstale);
      SoundCleared(old(lflows.Snap()), old(pflows.Snap()), old(lstale), old(pstale), initialClear,
                   lflows.Snap(), pflows.Snap(), lstale, pstale);
      initialClear := true;
    }

    /** The flow-table part of `ofctrl_put`. A table is skipped when the caller
        says it did not change, which has to be true. The messages take the
        switch to one that realises both desired tables. */
    method Put(lflowsChanged: bool, pflowsChanged: bool, ghost sw: Switch) returns (msgs: seq<FlowMod>)
      requires Valid() && Believes(sw) && May(Op.Put(lflowsChanged, pflowsChanged), Now(sw))
      modifies this`initialClear, lflows, pflows
      ensures Valid() && !initialClear && InSync(ApplyAll(sw, msgs))
      ensures Unchanged(lflows.Snap()) && Unchanged(pflows.Snap())
      ensures TablesAfter(Op.Put(lflowsChanged, pflowsChanged), old(Now(sw)), Now(sw))
    {
      var first := if initialClear then [DeleteAll] else [];
      StartPut(sw, initialClear, lflows.View(), pflows.View());
      initialClear := false;
      var more := PutTables(lflows, pflows, lflowsChanged, pflowsChanged);
      assert ApplyAll(sw, first + more) == Both(lflows.View(), pflows.View()) by { ApplyAllConcat(sw, first, more); }
      msgs := first + more;
    }
  }

  /** The delete-all flow-mod of the first put after S_CLEAR_FLOWS. */
  lemma StartPut(sw: Switch, initialClear: bool, l: Core, p: Core)
    requires initialClear ==> l.installed == map[] && p.installed == map[]
    requires !initialClear ==> sw == Both(l, p)
    ensures ApplyAll(sw, if initialClear then [DeleteAll] else []) == Both(l, p)
  {
    if initialClear {
      assert ApplyAll(sw, [DeleteAll]) == Apply(ApplyAll(sw, [DeleteAll][..0]), DeleteAll);
    }
  }

  /** One table's turn in `ofctrl_put`. */
  method PutTable(t: FlowTable, changed: bool) returns (msgs: seq<FlowMod>)
    requires TableOk(t.Snap(), false) && (changed || (t.changeTracked && t.tracked == []))
    modifies t
    ensures TableOk(t.Snap(), false) && Synced(t.View()) && Effect(old(t.View()), msgs, t.View())
    ensures Realizes(Contents(t.installed), t.View()) && t.refs == old(t.refs) && t.byUuid == old(t.byUuid)
  {
    if changed {
      msgs := t.PutFlows();
    } else {
      msgs := [];
      EffectNone(t.View(), t.View());
    }
    SyncedRealizes(t.View());
  }

  method PutTables(l: FlowTable, p: FlowTable, lflowsChanged: bool, pflowsChanged: bool) returns (msgs: seq<FlowMod>)
    requires l != p && TableOk(l.Snap(), false) && TableOk(p.Snap(), false) && KeysOf(l.View()) !! KeysOf(p.View())
    requires lflowsChanged || (l.changeTracked && l.tracked == [])
    requires pflowsChanged || (p.changeTracked && p.tracked == [])
    modifies l, p
    ensures TableOk(l.Snap(), false) && TableOk(p.Snap(), false) && KeysOf(l.View()) !! KeysOf(p.View())
    ensures Realizes(Contents(l.installed), l.View()) && Realizes(Contents(p.installed), p.View())
    ensures Unchanged(l.Snap()) && Unchanged(p.Snap())
    ensures SameTable(old(l.Snap()), l.Snap()) && SameTable(old(p.Snap()), p.Snap())
    ensures ApplyAll(old(Both(l.View(), p.View())), msgs) == Both(l.View(), p.View())
  {
    var lm := PutTable(l, lflowsChanged);
    var pm := PutTable(p, pflowsChanged);
    PutBoth(old(l.View()), old(p.View()), lm, l.View(), pm, p.View());
    msgs := lm + pm;
  }

  /** One operation, and the flow-mods it sends. */
  method Step(r: Reconciler, op: Op, ghost sw: Switch) returns (msgs: seq<FlowMod>)
    requires r.Valid() && r.Believes(sw) && May(op, r.Now(sw))
    modifies r, r.lflows, r.pflows
    ensures r.Valid() && r.Believes(SwitchAfter(op, sw, msgs))
    ensures op.Put? ==> r.InSync(ApplyAll(sw, msgs)) && Unchanged(r.lflows.Snap()) && Unchanged(r.pflows.Snap())
    ensures !op.Put? ==> msgs == []
    ensures TablesAfter(op, old(r.Now(sw)), r.Now(sw))
  {
    msgs := [];
    match op
    case OnTable(logical, o) => if logical { r.ChangeLogical(o, sw); } else { r.ChangePhysical(o, sw); }
    case ClearFlows(_) => r.ClearFlows(sw);
    case Put(l, p) => msgs := r.Put(l, p, sw);
  }

  /** An operation as it was seen: whether it was issued, and the situation before
      and after it. */
  datatype Seen = Seen(issued: bool, before: Situation, after: Situation)

  ghost predicate SituationOk(s: Situation) {
    TableOk(s.l, s.lstale) && TableOk(s.p, s.pstale)
  }

  /** Exactly the operations that may be issued are, and they change the tables
      as they should. Only puts send flow-mods, and they make the switch realise
      both tables. */
  ghost predicate SeenOk(op: Op, msgs: seq<FlowMod>, e: Seen) {
    && SituationOk(e.before) && SituationOk(e.after)
    && (e.issued <==> May(op, e.before))
    && (!e.issued ==> e.after == e.before)
    && (e.issued ==> e.after.sw == SwitchAfter(op, e.before.sw, msgs) && TablesAfter(op, e.before, e.after))
    && (e.issued && op.Put? ==>
          PutSeen(e.after.sw, e.after.l.core, e.after.p.core) && Unchanged(e.after.l) && Unchanged(e.after.p))
    && (!(e.issued && op.Put?) ==> msgs == [])
  }

  ghost predicate PutSeen(sw: Switch, l: Core, p: Core) {
    && l.live <= l.flows.Keys && p.live <= p.flows.Keys
    && sw == Both(l, p) && l.installed.Keys !! p.installed.Keys
    && Realizes(Contents(l.installed), l) && Realizes(Contents(p.installed), p)
  }

  /** What the switch holds after a put, in terms of actions alone. */
  lemma PutLeast(sw: Switch, l: Core, p: Core)
    requires PutSeen(sw, l, p)
    ensures LeastRestrictive(sw, l) && LeastRestrictive(sw, p)
  {
    RealizesLeast(Contents(l.installed), l);
    RealizesLeast(Contents(p.installed), p);
  }

  function Last(seen: seq<Seen>, s: Situation): Situation {
    if seen == [] then s else seen[|seen| - 1].after
  }

  /** One operation of a run; one that the rest of ovn-controller may not issue
      is skipped. */
  method TryStep(r: Reconciler, op: Op, sw: Switch) returns (msgs: seq<FlowMod>, e: Seen)
    requires r.Valid() && r.Believes(sw)
    modifies r, r.lflows, r.pflows
    ensures r.Valid() && r.Believes(e.after.sw) && SeenOk(op, msgs, e)
    ensures e.before == old(r.Now(sw)) && e.after == r.Now(e.after.sw)
  {
    var before := r.Now(sw);
    var may := May(op, before);
    msgs := [];
    if may {
      msgs := Step(r, op, sw);
    }
    e := Seen(may, before, r.Now(if may then SwitchAfter(op, sw, msgs) else sw));
  }

  /** The first operations of `ops` were seen, the first one from situation `s`
      on and each other one from where the one before it ended. */
  ghost predicate AllSeen(ops: seq<Op>, sent: seq<seq<FlowMod>>, seen: seq<Seen>, s: Situation)
    decreases |seen|
  {
    && |sent| == |seen| <= |ops|
    && (seen != [] ==>
          var n := |seen| - 1;
          && AllSeen(ops, sent[..n], seen[..n], s)
          && seen[n].before == Last(seen[..n], s) && SeenOk(ops[n], sent[n], seen[n]))
  }

  lemma OneMoreSeen(ops: seq<Op>, sent: seq<seq<FlowMod>>, seen: seq<Seen>, s: Situation, msgs: seq<FlowMod>, e: Seen)
    requires AllSeen(ops, sent, seen, s) && |seen| < |ops|
    requires e.before == Last(seen, s) && SeenOk(ops[|seen|], msgs, e)
    ensures AllSeen(ops, sent + [msgs], seen + [e], s) && Last(seen + [e], s) == e.after
  {
    assert (sent + [msgs])[..|seen|] == sent && (seen + [e])[..|seen|] == seen;
  }

  /** Every operation of a run is as it should be, and starts where the one before
      it ended. */
  lemma {:induction false} SeenAt(ops: seq<Op>, sent: seq<seq<FlowMod>>, seen: seq<Seen>, s: Situation, i: nat)
    requires AllSeen(ops, sent, seen, s) && i < |seen|
    ensures SeenOk(ops[i], sent[i], seen[i]) && seen[i].before == if i == 0 then s else seen[i - 1].after
    decreases |seen|
  {
    if i < |seen| - 1 {
      SeenAt(ops, sent[..|seen| - 1], seen[..|seen| - 1], s, i);
    }
  }

  /** Where a run that started at `s` has got to. */
  ghost predicate At(r: Reconciler, seen: seq<Seen>, s: Situation)
    reads r, r.lflows, r.pflows
  {
    r.Valid() && r.Believes(Last(seen, s).sw) && Last(seen, s) == r.Now(Last(seen, s).sw)
  }

  method OneMore(r: Reconciler, ops: seq<Op>, s: Situation, sent: seq<seq<FlowMod>>, seen: seq<Seen>)
      returns (sent': seq<seq<FlowMod>>, seen': seq<Seen>)
    requires At(r, seen, s) && AllSeen(ops, sent, seen, s) && |seen| < |ops|
    modifies r, r.lflows, r.pflows
    ensures At(r, seen', s) && |seen'| == |seen| + 1 && AllSeen(ops, sent', seen', s)
  {
    var msgs, e := TryStep(r, ops[|seen|], Last(seen, s).sw);
    OneMoreSeen(ops, sent, seen, s, msgs, e);
    sent', seen' := sent + [msgs], seen + [e];
  }

  /** The first `n` operations against a switch of which nothing is believed at
      first. `sent` has the flow-mods of each operation. */
  method RunFrom(r: Reconciler, ops: seq<Op>, n: nat, s: Situation) returns (sent: seq<seq<FlowMod>>, seen: seq<Seen>)
    requires r.Valid() && r.initialClear && n <= |ops| && s == r.Now(s.sw)
    modifies r, r.lflows, r.pflows
    ensures At(r, seen, s) && |seen| == n && AllSeen(ops, sent, seen, s)
  {
    sent, seen := [], [];
    if 0 < n {
      sent, seen := RunFrom(r, ops, n - 1, s);
      sent, seen := OneMore(r, ops, s, sent, seen);
    }
  }

  function NoFlows(): Table {
    Table(Core(map[], {}, {}, [], false, map[], 0), map[], map[])
  }

  function Start(sw: Switch): Situation {
    Situation(sw, NoFlows(), NoFlows(), false, false)
  }

  /** Any run from the first connection on, whatever the switch held: the desired
      tables follow the operations, and after every put the switch realises
      both, with the least restrictive of the flows of each key. */
  method Run(ops: seq<Op>, sw0: Switch) returns (sent: seq<seq<FlowMod>>, seen: seq<Seen>)
    ensures |sent| == |seen| == |ops| && AllSeen(ops, sent, seen, Start(sw0))
    ensures forall i | 0 <= i < |ops| :: SeenOk(ops[i], sent[i], seen[i])
    ensures forall i | 0 <= i < |ops| && ops[i].Put? && seen[i].issued ::
      var s := seen[i].after; LeastRestrictive(s.sw, s.l.core) && LeastRestrictive(s.sw, s.p.core)
  {
    var r := new Reconciler();
    sent, seen := RunFrom(r, ops, |ops|, Start(sw0));
    forall i | 0 <= i < |ops| ensures SeenOk(ops[i], sent[i], seen[i]) {
      SeenAt(ops, sent, seen, Start(sw0), i);
    }
    forall i | 0 <= i < |ops| && ops[i].Put? && seen[i].issued
      ensures var s := seen[i].after; LeastRestrictive(s.sw, s.l.core) && LeastRestrictive(s.sw, s.p.core)
    {
      PutLeast(seen[i].after.sw, seen[i].after.l.core, seen[i].after.p.core);
    }
  }
}
