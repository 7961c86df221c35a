/** The per-address flow index of controller/ofctrl.c, over whole runs: what it
    lists is a matter of which row inserted a flow, with which address, and
    whether another row has joined since. */
module AddressIndex {
  import opened Options
  import opened FlowModel
  import opened FlowSteps
  import opened SbIndex
  import opened FlowTables
  import opened Reconcilers

  /** The row and the address that a flow was inserted with. */
  datatype Tag = Tag(row: Uuid, info: AsInfo)

  type Tags = map<Id, Tag>

  ghost predicate Indexed(byUuid: map<Uuid, Stf>, g: Tag, d: Id) {
    g.row in byUuid && g.info in byUuid[g.row].byAddr && d in byUuid[g.row].byAddr[g.info]
  }

  /** The index lists exactly the live flows with that tag. */
  ghost predicate TagsOk(live: set<Id>, byUuid: map<Uuid, Stf>, tags: Tags) {
    forall g, d {:trigger Indexed(byUuid, g, d)} :: Indexed(byUuid, g, d) <==> d in live && d in tags && tags[d] == g
  }

  function Tagged(tags: Tags, d: Id, u: Uuid, a: Option<AsInfo>): Tags {
    if a.None? then tags - {d} else tags[d := Tag(u, a.value)]
  }

  /** How an operation on the table tags flows: a new flow gets the address it
      comes with, and one that is appended to belongs to no address from then on. */
  ghost function TagsAfter(tags: Tags, op: TableOp, t: Table): Tags {
    match op
    case AddFlow(k, _, u, a) => if HasFlow(t, k, u) then tags else Tagged(tags, t.core.nextId, u, a)
    case AppendFlow(k, _, u, a) =>
      if d :| ConjFlow(t, k, d) then tags - {d} else Tagged(tags, t.core.nextId, u, a)
    case _ => tags
  }

  /** The tags of one table's flows after a run. */
  ghost function TagsOf(ops: seq<Op>, seen: seq<Seen>, logical: bool): Tags
    requires |seen| <= |ops|
    decreases |seen|
  {
    if seen == [] then map[]
    else
      var n := |seen| - 1;
      var tags, e := TagsOf(ops, seen[..n], logical), seen[n];
      if e.issued && ops[n].OnTable? && ops[n].logical == logical
      then TagsAfter(tags, ops[n].op, TableOf(e.before, logical))
      else tags
  }

  function TableOf(s: Situation, logical: bool): Table {
    if logical then s.l else s.p
  }

  // ------------------------------------------------------- what a step does to the index

  /** A flow in the index is live and has the row as its only reference. */
  lemma IndexedAlone(t: Table, g: Tag, d: Id)
    requires IndexOk(t.core.live, t.refs, t.byUuid, {}) && Indexed(t.byUuid, g, d)
    ensures d in t.core.live && d in t.refs && t.refs[d] == {g.row}
  {
    AddrFlow(t.core.live, t.refs, t.byUuid, g.row, g.info, d);
  }

  lemma InsertTags(t: Table, t': Table, f: Flow, u: Uuid, a: Option<AsInfo>, tags: Tags)
    requires IndexOk(t.core.live, t.refs, t.byUuid, {}) && TagsOk(t.core.live, t.byUuid, tags)
    requires Inserted(t, t', f, u, a)
    ensures TagsOk(t'.core.live, t'.byUuid, Tagged(tags, t.core.nextId, u, a))
  {
    var n := t.core.nextId;
    forall g, d
      ensures Indexed(t'.byUuid, g, d) <==> Indexed(t.byUuid, g, d) || (d == n && a.Some? && g == Tag(u, a.value))
    {
    }
    forall g ensures !Indexed(t.byUuid, g, n) {
    }
  }

  lemma ShareTags(t: Table, t': Table, n: Id, u: Uuid, tags: Tags)
    requires IndexOk(t.core.live, t.refs, t.byUuid, {}) && TagsOk(t.core.live, t.byUuid, tags)
    requires n in t.refs && t'.core.live == t.core.live && t'.byUuid == ShareRow(t.byUuid, t.refs[n], u, n)
    ensures TagsOk(t'.core.live, t'.byUuid, tags - {n})
  {
    forall g, d ensures Indexed(t'.byUuid, g, d) <==> Indexed(t.byUuid, g, d) && d != n {
      if Indexed(t.byUuid, g, n) {
        IndexedAlone(t, g, n);
      }
    }
  }

  lemma RowGone(t: Table, t': Table, u: Uuid, tags: Tags)
    requires IndexOk(t.core.live, t.refs, t.byUuid, {}) && TagsOk(t.core.live, t.byUuid, tags)
    requires t'.core.live == t.core.live - OnlyOf(t.refs, u) && t'.byUuid == t.byUuid - {u}
    ensures TagsOk(t'.core.live, t'.byUuid, tags)
  {
    forall g, d | Indexed(t.byUuid, g, d) ensures d in t'.core.live <==> g.row != u {
      IndexedAlone(t, g, d);
    }
    assert forall g, d :: Indexed(t'.byUuid, g, d) <==> Indexed(t.byUuid, g, d) && g.row != u;
  }

  lemma RowsGone(t: Table, t': Table, z: set<Uuid>, tags: Tags)
    requires IndexOk(t.core.live, t.refs, t.byUuid, {}) && TagsOk(t.core.live, t.byUuid, tags)
    requires t'.core.live <= t.core.live && t'.byUuid == t.byUuid - z
    requires forall f | f in t.core.live :: f in t.refs && (f in t'.core.live <==> t.refs[f] * z == {})
    ensures TagsOk(t'.core.live, t'.byUuid, tags)
  {
    forall g, d | Indexed(t.byUuid, g, d) ensures d in t'.core.live <==> g.row !in z {
      IndexedAlone(t, g, d);
      assert t.refs[d] * z == {} <==> g.row !in t.refs[d] * z;
    }
    assert forall g, d :: Indexed(t'.byUuid, g, d) <==> Indexed(t.byUuid, g, d) && g.row !in z;
  }

  lemma AddrGone(t: Table, t': Table, u: Uuid, a: AsInfo, tags: Tags)
    requires TagsOk(t.core.live, t.byUuid, tags)
    requires t'.core.live == t.core.live - IndexedFlows(t, u, a) && t'.byUuid == WithoutAddr(t, u, a)
    ensures TagsOk(t'.core.live, t'.byUuid, tags)
  {
    assert forall d :: d in IndexedFlows(t, u, a) <==> Indexed(t.byUuid, Tag(u, a), d);
    forall g, d ensures Indexed(t'.byUuid, g, d) <==> Indexed(t.byUuid, g, d) && d !in IndexedFlows(t, u, a) {
    }
  }

  /** Every operation on a table keeps the index in step with the tags. */
  lemma OpTags(op: TableOp, t: Table, t': Table, tags: Tags)
    requires IndexOk(t.core.live, t.refs, t.byUuid, {}) && TagsOk(t.core.live, t.byUuid, tags)
    requires Did(op, t, t')
    ensures TagsOk(t'.core.live, t'.byUuid, TagsAfter(tags, op, t))
  {
    match op
    case AddFlow(k, x, u, a) =>
      if !HasFlow(t, k, u) {
        InsertTags(t, t', Flow(k, x), u, a, tags);
      }
    case AppendFlow(k, x, u, a) =>
      if d :| ConjFlow(t, k, d) {
        var e: Id :| ConjFlow(t, k, e) && TagsAfter(tags, op, t) == tags - {e};
        ShareTags(t, t', e, u, tags);
      } else {
        InsertTags(t, t', Flow(k, x), u, a, tags);
      }
    case RemoveFlows(u) => RowGone(t, t', u, tags);
    case FloodRemoveFlows(rows) => RowsGone(t, t', Closure(t.refs, rows), tags);
    case RemoveFlowsForAsIp(u, a, _) => AddrGone(t, t', u, a, tags);
    case Clear =>
  }

  /** After any run, the flows that the index lists for a row and an address are
      exactly the live ones that the row inserted with that address and that no
      other row has been appended to since. */
  lemma {:induction false} RunIndexed(ops: seq<Op>, sent: seq<seq<FlowMod>>, seen: seq<Seen>, sw0: Switch,
                                      logical: bool, u: Uuid, a: AsInfo)
    requires AllSeen(ops, sent, seen, Start(sw0))
    ensures var t := TableOf(Last(seen, Start(sw0)), logical);
            var tags := TagsOf(ops, seen, logical);
      IndexedFlows(t, u, a) == set d | d in t.core.live && d in tags && tags[d] == Tag(u, a)
  {
    var t := TableOf(Last(seen, Start(sw0)), logical);
    RunTags(ops, sent, seen, sw0, logical);
    assert forall d :: d in IndexedFlows(t, u, a) <==> Indexed(t.byUuid, Tag(u, a), d);
  }

  lemma {:induction false} RunTags(ops: seq<Op>, sent: seq<seq<FlowMod>>, seen: seq<Seen>, sw0: Switch, logical: bool)
    requires AllSeen(ops, sent, seen, Start(sw0))
    ensures var t := TableOf(Last(seen, Start(sw0)), logical);
      TagsOk(t.core.live, t.byUuid, TagsOf(ops, seen, logical))
    decreases |seen|
  {
    if seen != [] {
      var n := |seen| - 1;
      RunTags(ops, sent[..n], seen[..n], sw0, logical);
      SeenTags(ops[n], sent[n], seen[n], logical, TagsOf(ops, seen[..n], logical));
    }
  }

  lemma SeenTags(op: Op, msgs: seq<FlowMod>, e: Seen, logical: bool, tags: Tags)
    requires SeenOk(op, msgs, e)
    requires var t := TableOf(e.before, logical); TagsOk(t.core.live, t.byUuid, tags)
    ensures var t := TableOf(e.after, logical);
      TagsOk(t.core.live, t.byUuid,
             if e.issued && op.OnTable? && op.logical == logical
             then TagsAfter(tags, op.op, TableOf(e.before, logical))
             else tags)
  {
    if e.issued && op.OnTable? && op.logical == logical {
      OpTags(op.op, TableOf(e.before, logical), TableOf(e.after, logical), tags);
    }
  }
}
