/** Which southbound rows own which desired flows: `struct sb_to_flow`,
    `struct sb_flow_ref` and the address-set index of controller/ofctrl.c. */
module SbIndex {
  import opened Options
  import opened FlowModel

  type Uuid = nat

  /** `struct addrset_info` */
  datatype AsInfo = AsInfo(name: string, ip: nat, mask: nat)

  /** `struct sb_to_flow`: the flows a row references and, for each address of
      an address set, the flows indexed under it. List order is never
      observed, so the lists are sets. */
  datatype Stf = Stf(flows: set<Id>, byAddr: map<AsInfo, set<Id>>)

  ghost predicate Attached(byUuid: map<Uuid, Stf>, u: Uuid, f: Id) {
    u in byUuid && f in byUuid[u].flows
  }

  /** The two directions of the reference relation agree, except that flows in
      `detached` have been taken off the per-row lists. */
  ghost predicate RefsAgree(live: set<Id>, refs: map<Id, set<Uuid>>, byUuid: map<Uuid, Stf>, detached: set<Id>) {
    && refs.Keys == live
    && detached <= live
    && (forall f, u {:trigger Attached(byUuid, u, f)} ::
          Attached(byUuid, u, f) <==> f in refs && u in refs[f] && f !in detached)
    && (forall f | f in live && f !in detached :: refs[f] != {})
  }

  /** A flow indexed under an address belongs to that row alone, and is indexed
      once. */
  ghost predicate AddrOk(refs: map<Id, set<Uuid>>, u: Uuid, stf: Stf) {
    && (forall a, f | a in stf.byAddr && f in stf.byAddr[a] :: f in stf.flows && f in refs && refs[f] == {u})
    && (forall a, b, f | a in stf.byAddr && b in stf.byAddr && f in stf.byAddr[a] && f in stf.byAddr[b] :: a == b)
  }

  ghost predicate AddrsOk(refs: map<Id, set<Uuid>>, byUuid: map<Uuid, Stf>) {
    forall u | u in byUuid :: AddrOk(refs, u, byUuid[u])
  }

  ghost predicate IndexOk(live: set<Id>, refs: map<Id, set<Uuid>>, byUuid: map<Uuid, Stf>, detached: set<Id>) {
    RefsAgree(live, refs, byUuid, detached) && AddrsOk(refs, byUuid)
  }

  function StfOf(byUuid: map<Uuid, Stf>, u: Uuid): Stf {
    if u in byUuid then byUuid[u] else Stf({}, map[])
  }

  function AddrFlows(stf: Stf, a: AsInfo): set<Id> {
    if a in stf.byAddr then stf.byAddr[a] else {}
  }

  /** `link_flow_to_sb`, on the per-row lists. */
  function LinkRow(byUuid: map<Uuid, Stf>, u: Uuid, f: Id, a: Option<AsInfo>): map<Uuid, Stf> {
    var stf := StfOf(byUuid, u);
    byUuid[u := Stf(stf.flows + {f},
                    if a.None? then stf.byAddr else stf.byAddr[a.value := AddrFlows(stf, a.value) + {f}])]
  }

  /** The rows of `f` get a reference by `u`. */
  lemma LinkRefs(live: set<Id>, refs: map<Id, set<Uuid>>, byUuid: map<Uuid, Stf>, u: Uuid, f: Id, a: Option<AsInfo>)
    requires RefsAgree(live, refs, byUuid, {})
    ensures RefsAgree(live + {f}, refs[f := (if f in live then refs[f] else {}) + {u}], LinkRow(byUuid, u, f, a), {})
  {
    var refs' := refs[f := (if f in live then refs[f] else {}) + {u}];
    var byUuid' := LinkRow(byUuid, u, f, a);
    forall g, w ensures Attached(byUuid', w, g) <==> g in refs' && w in refs'[g] {
      assert Attached(byUuid, w, g) <==> g in refs && w in refs[g];
    }
  }

  lemma LinkNewAddrs(live: set<Id>, refs: map<Id, set<Uuid>>, byUuid: map<Uuid, Stf>, u: Uuid, f: Id, a: Option<AsInfo>)
    requires IndexOk(live, refs, byUuid, {}) && f !in live
    ensures AddrsOk(refs[f := {u}], LinkRow(byUuid, u, f, a))
  {
    var byUuid' := LinkRow(byUuid, u, f, a);
    forall w | w in byUuid' ensures AddrOk(refs[f := {u}], w, byUuid'[w]) {
      if w in byUuid {
        assert AddrOk(refs, w, byUuid[w]);
        assert f in byUuid[w].flows ==> Attached(byUuid, w, f);
      }
    }
  }

  /** A new flow referenced by one row, perhaps indexed under an address. */
  lemma LinkNewOk(live: set<Id>, refs: map<Id, set<Uuid>>, byUuid: map<Uuid, Stf>, u: Uuid, f: Id, a: Option<AsInfo>)
    requires IndexOk(live, refs, byUuid, {}) && f !in live
    ensures IndexOk(live + {f}, refs[f := {u}], LinkRow(byUuid, u, f, a), {})
  {
    LinkRefs(live, refs, byUuid, u, f, a);
    assert {} + {u} == {u};
    LinkNewAddrs(live, refs, byUuid, u, f, a);
  }

  /** The address index of a row without flow `f`. */
  function Unindex(stf: Stf, f: Id): Stf {
    stf.(byAddr := map a | a in stf.byAddr :: stf.byAddr[a] - {f})
  }

  /** The address indexes of the rows `rows` without flow `f`. */
  function UnindexRows(byUuid: map<Uuid, Stf>, rows: set<Uuid>, f: Id): map<Uuid, Stf> {
    map w | w in byUuid :: if w in rows then Unindex(byUuid[w], f) else byUuid[w]
  }

  /** Flow `f`, which the rows `rows` reference, leaves every address index and
      gets one more row. */
  function ShareRow(byUuid: map<Uuid, Stf>, rows: set<Uuid>, u: Uuid, f: Id): map<Uuid, Stf> {
    LinkRow(UnindexRows(byUuid, rows, f), u, f, None)
  }

  /** A flow that becomes shared leaves every address index first. */
  lemma LinkSharedOk(live: set<Id>, refs: map<Id, set<Uuid>>, byUuid: map<Uuid, Stf>, u: Uuid, f: Id)
    requires IndexOk(live, refs, byUuid, {}) && f in live && u !in refs[f]
    ensures IndexOk(live, refs[f := refs[f] + {u}], ShareRow(byUuid, refs[f], u, f), {})
  {
    var byUuid1 := UnindexRows(byUuid, refs[f], f);
    assert RefsAgree(live, refs, byUuid1, {}) by {
      forall g, w ensures Attached(byUuid1, w, g) <==> g in refs && w in refs[g] {
        assert Attached(byUuid, w, g) <==> g in refs && w in refs[g];
      }
    }
    LinkRefs(live, refs, byUuid1, u, f, None);
    assert live + {f} == live;
    LinkSharedAddrs(refs, byUuid, u, f);
  }

  lemma LinkSharedAddrs(refs: map<Id, set<Uuid>>, byUuid: map<Uuid, Stf>, u: Uuid, f: Id)
    requires AddrsOk(refs, byUuid) && f in refs && u !in refs[f]
    ensures AddrsOk(refs[f := refs[f] + {u}], ShareRow(byUuid, refs[f], u, f))
  {
    var refs' := refs[f := refs[f] + {u}];
    var byUuid' := ShareRow(byUuid, refs[f], u, f);
    forall w | w in byUuid' ensures AddrOk(refs', w, byUuid'[w]) {
      if w in byUuid {
        assert AddrOk(refs, w, byUuid[w]);
      }
    }
  }

  // ---------------------------------------------------------- dropping references

  /** The row's lists without flow `f`. */
  function DropFlow(stf: Stf, f: Id): Stf {
    Unindex(stf, f).(flows := stf.flows - {f})
  }

  /** The row's lists without the flows `fs`. */
  function DropFlows(stf: Stf, fs: set<Id>): Stf {
    Stf(stf.flows - fs, map a | a in stf.byAddr :: stf.byAddr[a] - fs)
  }

  lemma DropFlowsPush(stf: Stf, fs: set<Id>, f: Id)
    ensures DropFlow(DropFlows(stf, fs), f) == DropFlows(stf, fs + {f})
    ensures DropFlows(stf, {}) == stf
  {
    forall a | a in stf.byAddr
      ensures stf.byAddr[a] - fs - {f} == stf.byAddr[a] - (fs + {f}) && stf.byAddr[a] - {} == stf.byAddr[a]
    {
    }
    assert stf.flows - fs - {f} == stf.flows - (fs + {f});
  }

  /** One reference goes; a flow without references goes with it. */
  lemma DropRefOk(live: set<Id>, refs: map<Id, set<Uuid>>, byUuid: map<Uuid, Stf>, detached: set<Id>, u: Uuid, f: Id)
    requires IndexOk(live, refs, byUuid, detached) && Attached(byUuid, u, f)
    ensures f in refs && u in refs[f] && f !in detached
    ensures refs[f] != {u} ==> IndexOk(live, refs[f := refs[f] - {u}], byUuid[u := DropFlow(byUuid[u], f)], detached)
    ensures refs[f] == {u} ==> IndexOk(live - {f}, refs - {f}, byUuid[u := DropFlow(byUuid[u], f)], detached)
  {
    var byUuid' := byUuid[u := DropFlow(byUuid[u], f)];
    var refs' := if refs[f] == {u} then refs - {f} else refs[f := refs[f] - {u}];
    forall g, w ensures Attached(byUuid', w, g) <==> g in refs' && w in refs'[g] && g !in detached {
      assert Attached(byUuid, w, g) <==> g in refs && w in refs[g] && g !in detached;
    }
    forall w | w in byUuid' ensures AddrOk(refs', w, byUuid'[w]) {
      assert AddrOk(refs, w, byUuid[w]);
    }
  }

  /** A row without flows can go. */
  lemma DropRowOk(live: set<Id>, refs: map<Id, set<Uuid>>, byUuid: map<Uuid, Stf>, detached: set<Id>, u: Uuid)
    requires IndexOk(live, refs, byUuid, detached) && u in byUuid && byUuid[u].flows == {}
    ensures IndexOk(live, refs, byUuid - {u}, detached)
    ensures forall a | a in byUuid[u].byAddr :: byUuid[u].byAddr[a] == {}
  {
    forall g, w ensures Attached(byUuid - {u}, w, g) <==> g in refs && w in refs[g] && g !in detached {
      assert Attached(byUuid, w, g) <==> g in refs && w in refs[g] && g !in detached;
    }
    var row := byUuid[u];
    assert AddrOk(refs, u, row);
    forall a | a in row.byAddr ensures row.byAddr[a] == {} {
      forall f ensures f !in row.byAddr[a] {
        assert f !in row.flows;
      }
    }
  }

  /** Flow `f` is taken off the list of every row that references it. */
  lemma DetachOk(live: set<Id>, refs: map<Id, set<Uuid>>, byUuid: map<Uuid, Stf>, byUuid1: map<Uuid, Stf>,
                 detached: set<Id>, f: Id)
    requires IndexOk(live, refs, byUuid, detached) && f in live && f !in detached
    requires byUuid1.Keys == byUuid.Keys
    requires forall w | w in byUuid :: byUuid1[w] == if w in refs[f] then DropFlow(byUuid[w], f) else byUuid[w]
    ensures IndexOk(live, refs, byUuid1, detached + {f})
  {
    forall g, w ensures Attached(byUuid1, w, g) <==> g in refs && w in refs[g] && g !in detached + {f} {
      assert Attached(byUuid, w, g) <==> g in refs && w in refs[g] && g !in detached;
    }
    forall w | w in byUuid1 ensures AddrOk(refs, w, byUuid1[w]) {
      assert AddrOk(refs, w, byUuid[w]);
    }
  }

  /** A detached flow loses a reference, or goes. */
  lemma DetachedDropOk(live: set<Id>, refs: map<Id, set<Uuid>>, byUuid: map<Uuid, Stf>, detached: set<Id>, f: Id,
                       v: Uuid)
    requires IndexOk(live, refs, byUuid, detached) && f in detached
    ensures IndexOk(live, refs[f := refs[f] - {v}], byUuid, detached)
    ensures IndexOk(live - {f}, refs - {f}, byUuid, detached - {f})
  {
    forall g, w ensures Attached(byUuid, w, g) <==> g in refs && w in refs[g] && g !in detached {
    }
    forall w | w in byUuid ensures AddrOk(refs[f := refs[f] - {v}], w, byUuid[w]) && AddrOk(refs - {f}, w, byUuid[w]) {
      assert AddrOk(refs, w, byUuid[w]);
      assert !Attached(byUuid, w, f);
    }
  }

  lemma NoRowsNoFlows(live: set<Id>, refs: map<Id, set<Uuid>>)
    requires RefsAgree(live, refs, map[], {})
    ensures live == {}
  {
    forall f, u | f in live ensures u !in refs[f] {
      assert !Attached(map[], u, f);
    }
    assert forall f | f in live :: refs[f] == {};
  }

  /** A flow indexed under an address has that row as its only reference. */
  lemma AddrFlow(live: set<Id>, refs: map<Id, set<Uuid>>, byUuid: map<Uuid, Stf>, u: Uuid, a: AsInfo, f: Id)
    requires IndexOk(live, refs, byUuid, {}) && u in byUuid && a in byUuid[u].byAddr && f in byUuid[u].byAddr[a]
    ensures Attached(byUuid, u, f) && f in live && f in refs && refs[f] == {u}
  {
    assert AddrOk(refs, u, byUuid[u]);
    assert Attached(byUuid, u, f);
  }

  /** The row's lists without the index of one address. */
  function Unaddressed(stf: Stf, a: AsInfo): Stf {
    stf.(byAddr := stf.byAddr - {a})
  }

  lemma DropAddrOk(live: set<Id>, refs: map<Id, set<Uuid>>, byUuid: map<Uuid, Stf>, u: Uuid, a: AsInfo)
    requires IndexOk(live, refs, byUuid, {}) && u in byUuid
    ensures IndexOk(live, refs, byUuid[u := Unaddressed(byUuid[u], a)], {})
  {
    var byUuid' := byUuid[u := Unaddressed(byUuid[u], a)];
    forall g, w ensures Attached(byUuid', w, g) <==> g in refs && w in refs[g] {
      assert Attached(byUuid, w, g) <==> g in refs && w in refs[g];
    }
    forall w | w in byUuid' ensures AddrOk(refs, w, byUuid'[w]) {
      assert AddrOk(refs, w, byUuid[w]);
    }
  }

  // ------------------------------------------------------------- flood removal

  /** How far a flood removal has come. It started from the given flows,
      references and rows; `pending` are flows it is still taking apart. Every
      flow it removed belongs to rows in `nodes`, every other flow keeps its
      references, and rows added to `nodes` have no flows left. */
  ghost predicate Flooded(live0: set<Id>, refs0: map<Id, set<Uuid>>, nodes0: set<Uuid>, detached0: set<Id>,
                          z: set<Uuid>, live: set<Id>, refs: map<Id, set<Uuid>>, byUuid: map<Uuid, Stf>,
                          nodes: set<Uuid>, pending: set<Id>) {
    && nodes0 <= nodes <= z
    && refs0.Keys == live0 && refs.Keys == live && live <= live0
    && (forall f | f in live0 && f !in live :: f !in detached0 && refs0[f] <= nodes)
    && (forall f | f in live && f !in pending :: refs[f] == refs0[f])
    && (forall f | f in pending ::
          f in live && f !in detached0 && refs[f] <= refs0[f] <= z && refs0[f] <= nodes + refs[f])
    && (forall v | v in nodes && v !in nodes0 :: v !in byUuid)
  }

  /** `z` is closed, as far as the flows that are still attached go. */
  ghost predicate ClosedFor(refs: map<Id, set<Uuid>>, detached: set<Id>, z: set<Uuid>) {
    forall f | f in refs && f !in detached && refs[f] * z != {} :: refs[f] <= z
  }

  /** A nested flood removal of row `v`, which was not in `nodes` before. */
  lemma FloodedNested(live0: set<Id>, refs0: map<Id, set<Uuid>>, nodes0: set<Uuid>, detached0: set<Id>, z: set<Uuid>,
                      live: set<Id>, refs: map<Id, set<Uuid>>, byUuid: map<Uuid, Stf>, nodes: set<Uuid>,
                      pending: set<Id>, v: Uuid,
                      live': set<Id>, refs': map<Id, set<Uuid>>, byUuid': map<Uuid, Stf>, nodes': set<Uuid>)
    requires Flooded(live0, refs0, nodes0, detached0, z, live, refs, byUuid, nodes, pending)
    requires Flooded(live, refs, nodes + {v}, detached0 + pending, z, live', refs', byUuid', nodes', {})
    requires byUuid'.Keys <= byUuid.Keys && v !in byUuid'
    ensures Flooded(live0, refs0, nodes0, detached0, z, live', refs', byUuid', nodes', pending)
    ensures forall f | f in pending :: refs'[f] == refs[f]
  {
  }

  /** Rows that share a desired flow with a row in `z`. */
  ghost function Neighbours(refs: map<Id, set<Uuid>>, z: set<Uuid>): set<Uuid> {
    set f, u | f in refs && u in refs[f] && refs[f] * z != {} :: u
  }

  ghost function AllRows(refs: map<Id, set<Uuid>>): set<Uuid> {
    set f, u | f in refs && u in refs[f] :: u
  }

  /** The closure of `z` under "shares a desired flow with". */
  ghost function Closure(refs: map<Id, set<Uuid>>, z: set<Uuid>): (r: set<Uuid>)
    decreases |AllRows(refs) - z|
  {
    if Neighbours(refs, z) <= z then z
    else
      var z' := z + Neighbours(refs, z);
      assert AllRows(refs) - z' < AllRows(refs) - z by {
        var u :| u in Neighbours(refs, z) && u !in z;
        assert u in AllRows(refs) - z && u !in AllRows(refs) - z';
      }
      SmallerCard(AllRows(refs) - z', AllRows(refs) - z);
      Closure(refs, z')
  }

  lemma SmallerCard<T>(a: set<T>, b: set<T>)
    requires a < b
    ensures |a| < |b|
  {
    assert b == a + (b - a);
    assert |b| == |a| + |b - a|;
    assert b - a != {};
  }

  lemma SubsetCard<T>(a: set<T>, b: set<T>)
    requires a <= b
    ensures |a| <= |b|
  {
    assert b == a + (b - a);
  }

  /** No flow is shared between `z` and the rest. */
  ghost predicate Closed(refs: map<Id, set<Uuid>>, z: set<Uuid>) {
    forall f | f in refs && refs[f] * z != {} :: refs[f] <= z
  }

  /** `Closure(refs, z)` is the least closed superset of `z`. */
  lemma {:induction false} ClosureLeast(refs: map<Id, set<Uuid>>, z: set<Uuid>)
    ensures z <= Closure(refs, z) && Closed(refs, Closure(refs, z))
    ensures forall y | z <= y && Closed(refs, y) :: Closure(refs, z) <= y
    decreases |AllRows(refs) - z|
  {
    var n := Neighbours(refs, z);
    if n <= z {
      forall f | f in refs && refs[f] * z != {} ensures refs[f] <= z {
        forall u | u in refs[f] ensures u in z { assert u in n; }
      }
    } else {
      var z' := z + n;
      assert AllRows(refs) - z' < AllRows(refs) - z by {
        var u :| u in n && u !in z;
        assert u in AllRows(refs) - z && u !in AllRows(refs) - z';
      }
      SmallerCard(AllRows(refs) - z', AllRows(refs) - z);
      ClosureLeast(refs, z');
      forall y | z <= y && Closed(refs, y) ensures Closure(refs, z) <= y {
        forall u | u in n ensures u in y {
          var f :| f in refs && u in refs[f] && refs[f] * z != {};
          var w :| w in refs[f] * z;
          assert w in refs[f] * y;
        }
        assert z' <= y;
      }
    }
  }

  lemma ClosedForRest(live0: set<Id>, refs0: map<Id, set<Uuid>>, nodes0: set<Uuid>, detached0: set<Id>, z: set<Uuid>,
                      live: set<Id>, refs: map<Id, set<Uuid>>, byUuid: map<Uuid, Stf>, nodes: set<Uuid>,
                      pending: set<Id>)
    requires Flooded(live0, refs0, nodes0, detached0, z, live, refs, byUuid, nodes, pending)
    requires ClosedFor(refs0, detached0, z)
    ensures ClosedFor(refs, detached0 + pending, z)
  {
  }

  /** A pending flow loses the reference to a row that is in `nodes`. */
  lemma FloodedDropRef(live0: set<Id>, refs0: map<Id, set<Uuid>>, nodes0: set<Uuid>, detached0: set<Id>, z: set<Uuid>,
                       live: set<Id>, refs: map<Id, set<Uuid>>, byUuid: map<Uuid, Stf>, nodes: set<Uuid>,
                       pending: set<Id>, f: Id, v: Uuid)
    requires Flooded(live0, refs0, nodes0, detached0, z, live, refs, byUuid, nodes, pending)
    requires f in pending && v in nodes
    ensures Flooded(live0, refs0, nodes0, detached0, z, live, refs[f := refs[f] - {v}], byUuid, nodes, pending)
  {
  }

  /** A pending flow without references goes. */
  lemma FloodedDropFlow(live0: set<Id>, refs0: map<Id, set<Uuid>>, nodes0: set<Uuid>, detached0: set<Id>, z: set<Uuid>,
                        live: set<Id>, refs: map<Id, set<Uuid>>, byUuid: map<Uuid, Stf>, nodes: set<Uuid>,
                        pending: set<Id>, f: Id)
    requires Flooded(live0, refs0, nodes0, detached0, z, live, refs, byUuid, nodes, pending)
    requires f in pending && refs[f] == {}
    ensures Flooded(live0, refs0, nodes0, detached0, z, live - {f}, refs - {f}, byUuid, nodes, pending - {f})
  {
  }

  /** When the rows in `nodes` have no flows left, the flood removal has found
      the closure and removed exactly the flows of its rows. */
  lemma FloodedClosure(live0: set<Id>, refs0: map<Id, set<Uuid>>, byUuid0: map<Uuid, Stf>, nodes0: set<Uuid>,
                       live: set<Id>, refs: map<Id, set<Uuid>>, byUuid: map<Uuid, Stf>, nodes: set<Uuid>)
    requires IndexOk(live0, refs0, byUuid0, {}) && IndexOk(live, refs, byUuid, {})
    requires Flooded(live0, refs0, nodes0, {}, Closure(refs0, nodes0), live, refs, byUuid, nodes, {})
    requires forall v | v in nodes :: v !in byUuid
    ensures nodes == Closure(refs0, nodes0)
    ensures forall f | f in live0 :: f in live <==> refs0[f] * nodes == {}
  {
    forall f | f in live0 ensures f in live <==> refs0[f] * nodes == {} {
      if f in live {
        forall u | u in refs0[f] ensures u !in nodes { assert Attached(byUuid, u, f); }
      } else {
        assert refs0[f] != {};
        var u :| u in refs0[f];
        assert u in refs0[f] * nodes;
      }
    }
    ClosureLeast(refs0, nodes0);
    assert Closed(refs0, nodes);
  }
}
