/** The desired flows of controller/ofctrl.c over whole runs: what is in a table
    is what rows brought, and which rows have which keys. */
module FlowOrigins {
  import opened Options
  import opened FlowModel
  import opened FlowSteps
  import opened SbIndex
  import opened FlowTables
  import opened Reconcilers
  import opened AddressIndex

  // ------------------------------------------------------- what flows were made of

  /** How a flow came about: its key, the cookie it was inserted with, and the
      actions of its insertion and of every append to it since. */
  datatype Origin = Origin(key: Key, cookie: nat, brought: seq<seq<Action>>)

  type Origins = map<Id, Origin>

  ghost predicate Brought(o: Origin, a: Action) {
    exists j :: 0 <= j < |o.brought| && a in o.brought[j]
  }

  /** The flow has exactly the actions that were brought. */
  ghost predicate FlowIs(f: Flow, o: Origin) {
    && f.key == o.key && f.content.cookie == o.cookie
    && forall a :: a in f.content.actions <==> Brought(o, a)
  }

  ghost predicate OriginsOk(c: Core, os: Origins) {
    forall d | d in c.live :: d in c.flows && d in os && FlowIs(c.flows[d], os[d])
  }

  /** The conjunctive flow that an append to key `k` is for. */
  predicate AppendsTo(t: Table, k: Key, d: Id) {
    d in t.core.live && d in t.core.flows && t.core.flows[d].key == k
    && exists a | a in t.core.flows[d].content.actions :: a.Conjunction?
  }

  /** What an operation that was issued brings: flow `d` is inserted, or appended
      to. */
  ghost function OriginsAfter(os: Origins, op: TableOp, t: Table): Origins {
    match op
    case AddFlow(k, x, u, _) =>
      if Serves(t, u, k) then os else os[t.core.nextId := Origin(k, x.cookie, [x.actions])]
    case AppendFlow(k, x, _, _) =>
      if d :| AppendsTo(t, k, d) then
        if d in os then os[d := os[d].(brought := os[d].brought + [x.actions])] else os
      else os[t.core.nextId := Origin(k, x.cookie, [x.actions])]
    case _ => os
  }

  /** Row `u` has a flow of key `k`. */
  ghost predicate Serves(t: Table, u: Uuid, k: Key) {
    exists d | d in t.core.live :: d in t.core.flows && t.core.flows[d].key == k && d in t.refs && u in t.refs[d]
  }

  lemma ServesIsHas(t: Table, u: Uuid, k: Key)
    ensures Serves(t, u, k) <==> HasFlow(t, k, u)
  {
  }

  lemma AppendsIsConj(t: Table, k: Key, d: Id)
    ensures AppendsTo(t, k, d) <==> ConjFlow(t, k, d)
  {
  }

  lemma AppendedIs(f: Flow, o: Origin, x: Content)
    requires FlowIs(f, o)
    ensures FlowIs(f.(content := Combined(f.content, x)), o.(brought := o.brought + [x.actions]))
  {
    var o' := o.(brought := o.brought + [x.actions]);
    NewActionsMeans(f.content.actions, x.actions);
    forall a ensures Brought(o', a) <==> Brought(o, a) || a in x.actions {
      if Brought(o, a) {
        var j :| 0 <= j < |o.brought| && a in o.brought[j];
        assert o'.brought[j] == o.brought[j];
      }
      if a in x.actions {
        assert o'.brought[|o.brought|] == x.actions;
      }
    }
  }

  lemma InsertedIs(k: Key, x: Content)
    ensures FlowIs(Flow(k, x), Origin(k, x.cookie, [x.actions]))
  {
    var o := Origin(k, x.cookie, [x.actions]);
    assert o.brought[0] == x.actions;
  }

  lemma AppendedOrigins(t: Table, t': Table, e: Id, x: Content, u: Uuid, os: Origins)
    requires OriginsOk(t.core, os) && e in t.core.live && e in t.core.flows && e in t.refs && Appended(t, t', e, x, u)
    ensures OriginsOk(t'.core, os[e := os[e].(brought := os[e].brought + [x.actions])])
  {
    AppendedIs(t.core.flows[e], os[e], x);
  }

  lemma InsertedOrigins(t: Table, t': Table, k: Key, x: Content, u: Uuid, a: Option<AsInfo>, os: Origins)
    requires OriginsOk(t.core, os) && Inserted(t, t', Flow(k, x), u, a)
    ensures OriginsOk(t'.core, os[t.core.nextId := Origin(k, x.cookie, [x.actions])])
  {
    InsertedIs(k, x);
  }

  lemma AppendOrigins(t: Table, t': Table, k: Key, x: Content, u: Uuid, a: Option<AsInfo>, os: Origins)
    requires OriginsOk(t.core, os) && Did(AppendFlow(k, x, u, a), t, t')
    ensures OriginsOk(t'.core, OriginsAfter(os, AppendFlow(k, x, u, a), t))
  {
    forall d ensures AppendsTo(t, k, d) <==> ConjFlow(t, k, d) {
      AppendsIsConj(t, k, d);
    }
    if d :| AppendsTo(t, k, d) {
      var e: Id :| AppendsTo(t, k, e) && OriginsAfter(os, AppendFlow(k, x, u, a), t) ==
        os[e := os[e].(brought := os[e].brought + [x.actions])];
      AppendedOrigins(t, t', e, x, u, os);
    } else {
      InsertedOrigins(t, t', k, x, u, a, os);
    }
  }

  /** Every operation on a table keeps its flows made of what was brought. */
  lemma OpOrigins(op: TableOp, t: Table, t': Table, os: Origins)
    requires t.core.live <= t.core.flows.Keys && OriginsOk(t.core, os) && Did(op, t, t')
    ensures OriginsOk(t'.core, OriginsAfter(os, op, t))
  {
    match op
    case AddFlow(k, x, u, a) =>
      ServesIsHas(t, u, k);
      if !HasFlow(t, k, u) {
        InsertedOrigins(t, t', k, x, u, a, os);
      }
    case AppendFlow(k, x, u, a) => AppendOrigins(t, t', k, x, u, a, os);
    case _ =>
  }

  /** The origins of one table's flows after a run. */
  ghost function OriginsOf(ops: seq<Op>, seen: seq<Seen>, logical: bool): Origins
    requires |seen| <= |ops|
    decreases |seen|
  {
    if seen == [] then map[]
    else
      var n := |seen| - 1;
      var os, e := OriginsOf(ops, seen[..n], logical), seen[n];
      if e.issued && ops[n].OnTable? && ops[n].logical == logical
      then OriginsAfter(os, ops[n].op, TableOf(e.before, logical))
      else os
  }

  lemma SeenOrigins(op: Op, msgs: seq<FlowMod>, e: Seen, logical: bool, os: Origins)
    requires SeenOk(op, msgs, e) && OriginsOk(TableOf(e.before, logical).core, os)
    ensures OriginsOk(TableOf(e.after, logical).core,
                      if e.issued && op.OnTable? && op.logical == logical
                      then OriginsAfter(os, op.op, TableOf(e.before, logical))
                      else os)
  {
    if e.issued && op.OnTable? && op.logical == logical {
      OpOrigins(op.op, TableOf(e.before, logical), TableOf(e.after, logical), os);
    }
  }

  /** After any run, every desired flow has the key and cookie it was inserted with
      and exactly the actions that its insertion and later appends brought. */
  lemma {:induction false} RunOrigins(ops: seq<Op>, sent: seq<seq<FlowMod>>, seen: seq<Seen>, sw0: Switch,
                                      logical: bool)
    requires AllSeen(ops, sent, seen, Start(sw0))
    ensures OriginsOk(TableOf(Last(seen, Start(sw0)), logical).core, OriginsOf(ops, seen, logical))
    decreases |seen|
  {
    if seen != [] {
      var n := |seen| - 1;
      RunOrigins(ops, sent[..n], seen[..n], sw0, logical);
      SeenOrigins(ops[n], sent[n], seen[n], logical, OriginsOf(ops, seen[..n], logical));
    }
  }

  // ---------------------------------------------------------- which rows have which keys

  /** As `Serves`, by a flow that is not among `gone`. */
  ghost predicate ServesBut(t: Table, u: Uuid, k: Key, gone: set<Id>) {
    exists d | d in t.core.live ::
      d !in gone && d in t.core.flows && t.core.flows[d].key == k && d in t.refs && u in t.refs[d]
  }

  /** Whether row `u` should have a flow of key `k` after an operation. */
  ghost predicate ServesAfter(op: TableOp, t: Table, u: Uuid, k: Key) {
    match op
    case AddFlow(key, _, row, _) => Serves(t, u, k) || (u == row && k == key)
    case AppendFlow(key, _, row, _) => Serves(t, u, k) || (u == row && k == key)
    case RemoveFlows(row) => Serves(t, u, k) && u != row
    case FloodRemoveFlows(rows) => Serves(t, u, k) && u !in Closure(t.refs, rows)
    case RemoveFlowsForAsIp(row, a, _) => ServesBut(t, u, k, IndexedFlows(t, row, a))
    case Clear => false
  }

  lemma InsertServes(t: Table, t': Table, f: Flow, row: Uuid, a: Option<AsInfo>, u: Uuid, k: Key)
    requires t.refs.Keys == t.core.live && Inserted(t, t', f, row, a)
    ensures Serves(t', u, k) <==> Serves(t, u, k) || (u == row && k == f.key)
  {
    if Serves(t, u, k) {
      var d :| d in t.core.live && d in t.core.flows && t.core.flows[d].key == k && u in t.refs[d];
      assert d in t'.core.live && t'.refs[d] == t.refs[d];
    }
    if u == row && k == f.key {
      assert t.core.nextId in t'.core.live && row in t'.refs[t.core.nextId];
    }
  }

  lemma AppendServes(t: Table, t': Table, d: Id, x: Content, row: Uuid, u: Uuid, k: Key)
    requires t.refs.Keys == t.core.live && d in t.core.live && d in t.core.flows && Appended(t, t', d, x, row)
    ensures Serves(t', u, k) <==> Serves(t, u, k) || (u == row && k == t.core.flows[d].key)
  {
    if Serves(t, u, k) {
      var e :| e in t.core.live && e in t.core.flows && t.core.flows[e].key == k && u in t.refs[e];
      assert e in t'.core.live && u in t'.refs[e];
    }
    if u == row && k == t.core.flows[d].key {
      assert d in t'.core.live && row in t'.refs[d];
    }
  }

  lemma RemoveServes(t: Table, t': Table, row: Uuid, u: Uuid, k: Key)
    requires t.refs.Keys == t.core.live <= t.core.flows.Keys && Did(RemoveFlows(row), t, t')
    ensures Serves(t', u, k) <==> Serves(t, u, k) && u != row
  {
    if Serves(t, u, k) && u != row {
      var d :| d in t.core.live && t.core.flows[d].key == k && u in t.refs[d];
      assert d in t'.core.live && u in t'.refs[d];
    }
  }

  lemma FloodServes(t: Table, t': Table, rows: set<Uuid>, u: Uuid, k: Key)
    requires t.refs.Keys == t.core.live <= t.core.flows.Keys && Did(FloodRemoveFlows(rows), t, t')
    ensures Serves(t', u, k) <==> Serves(t, u, k) && u !in Closure(t.refs, rows)
  {
    var z := Closure(t.refs, rows);
    ClosureLeast(t.refs, rows);
    if Serves(t, u, k) && u !in z {
      var d :| d in t.core.live && t.core.flows[d].key == k && u in t.refs[d];
      assert t.refs[d] * z == {};
      assert d in t'.core.live && u in t'.refs[d];
    }
    if Serves(t', u, k) {
      var d :| d in t'.core.live && t'.core.flows[d].key == k && d in t'.refs && u in t'.refs[d];
      assert t.refs[d] * z == {} && u in t.refs[d] && u !in t.refs[d] * z;
    }
  }

  lemma AddrServes(t: Table, t': Table, row: Uuid, a: AsInfo, u: Uuid, k: Key)
    requires t.refs.Keys == t.core.live <= t.core.flows.Keys
    requires OnlyRemoved(t.core, t'.core, IndexedFlows(t, row, a)) && RefsKept(t, t')
    ensures Serves(t', u, k) <==> ServesBut(t, u, k, IndexedFlows(t, row, a))
  {
    var gone := IndexedFlows(t, row, a);
    if ServesBut(t, u, k, gone) {
      var d :| d in t.core.live && d !in gone && t.core.flows[d].key == k && u in t.refs[d];
      assert d in t'.core.live && u in t'.refs[d];
    }
    if Serves(t', u, k) {
      var d :| d in t'.core.live && t'.core.flows[d].key == k && d in t'.refs && u in t'.refs[d];
      assert d in t.core.live && d !in gone && u in t.refs[d];
    }
  }

  /** Every operation changes exactly which row has a flow of which key as it
      should; and adding a flow that the row has changes nothing. */
  lemma OpServes(op: TableOp, t: Table, t': Table, u: Uuid, k: Key)
    requires t.refs.Keys == t.core.live <= t.core.flows.Keys && Did(op, t, t')
    ensures Serves(t', u, k) <==> ServesAfter(op, t, u, k)
    ensures op.AddFlow? && Serves(t, op.row, op.key) ==> t' == t
  {
    match op
    case AddFlow(key, x, row, a) =>
      ServesIsHas(t, row, key);
      if !HasFlow(t, key, row) {
        InsertServes(t, t', Flow(key, x), row, a, u, k);
      }
    case AppendFlow(key, x, row, a) =>
      if d :| ConjFlow(t, key, d) {
        AppendServes(t, t', d, x, row, u, k);
      } else {
        InsertServes(t, t', Flow(key, x), row, a, u, k);
      }
    case RemoveFlows(row) => RemoveServes(t, t', row, u, k);
    case FloodRemoveFlows(rows) => FloodServes(t, t', rows, u, k);
    case RemoveFlowsForAsIp(row, a, _) => AddrServes(t, t', row, a, u, k);
    case Clear =>
  }

  /** In any run, each operation that is issued on a table does that, and no other
      operation changes it. */
  lemma SeenServes(op: Op, msgs: seq<FlowMod>, e: Seen, logical: bool, u: Uuid, k: Key)
    requires SeenOk(op, msgs, e)
    ensures Serves(TableOf(e.after, logical), u, k) <==>
      if e.issued && op.OnTable? && op.logical == logical then ServesAfter(op.op, TableOf(e.before, logical), u, k)
      else Serves(TableOf(e.before, logical), u, k)
  {
    var t, t' := TableOf(e.before, logical), TableOf(e.after, logical);
    if e.issued && op.OnTable? && op.logical == logical {
      OpServes(op.op, t, t', u, k);
    } else if t' != t {
      assert SameTable(t, t');
    }
  }
}
