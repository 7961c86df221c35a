/** controller/ofctrl.c: the desired flow table, the installed flow table and
    `ofctrl_put`'s update of one from the other. */
module FlowTables {
  import opened Options
  import opened Lists
  import opened FlowModel
  import opened FlowSteps
  import opened FlowSync
  import opened FlowMerge
  import opened SbIndex

  /** The conjunctions of `more` that `have` does not list yet, and all its
      other actions, in order. */
  function NewActions(have: seq<Action>, more: seq<Action>): seq<Action> {
    if more == [] then []
    else
      var rest := NewActions(have, more[..|more| - 1]);
      var a := more[|more| - 1];
      if !a.Conjunction? || a !in have then rest + [a] else rest
  }

  /** `s` is a part of `more`, from the places `ks`. */
  ghost predicate TakenFrom(more: seq<Action>, s: seq<Action>, ks: seq<nat>) {
    |ks| == |s| && Increasing(ks) && forall i | 0 <= i < |ks| :: ks[i] < |more| && s[i] == more[ks[i]]
  }

  lemma TakeLast(more: seq<Action>, s: seq<Action>, ks: seq<nat>)
    requires more != [] && TakenFrom(more, s, ks) && forall k | k in ks :: k < |more| - 1
    ensures TakenFrom(more, s + [more[|more| - 1]], ks + [|more| - 1])
    ensures forall j: nat :: j in ks + [|more| - 1] <==> j in ks || j == |more| - 1
  {
    PushIncreasing(ks, |more| - 1);
    assert (ks + [|more| - 1])[|ks|] == |more| - 1;
  }

  /** What is taken over, and in which order: `ks` are its places in `more`. */
  lemma {:induction false} NewActionsAre(have: seq<Action>, more: seq<Action>) returns (ks: seq<nat>)
    ensures var taken := NewActions(have, more);
      TakenFrom(more, taken, ks) && forall j | 0 <= j < |more| ::
        j in ks <==> (more[j].Conjunction? ==> more[j] !in have)
  {
    ks := [];
    if more != [] {
      var n := |more| - 1;
      var init := more[..n];
      ks := NewActionsAre(have, init);
      assert forall j | 0 <= j < n :: init[j] == more[j];
      assert TakenFrom(more, NewActions(have, init), ks) && forall k | k in ks :: k < n;
      if !more[n].Conjunction? || more[n] !in have {
        TakeLast(more, NewActions(have, init), ks);
        ks := ks + [n];
      }
    }
  }

  /** `compound` has the actions of `have` first, then those of `more` in their
      order, without the conjunctions that `have` has. */
  ghost predicate Compounds(have: seq<Action>, more: seq<Action>, compound: seq<Action>) {
    && have <= compound
    && (forall a :: a in compound <==> a in have || a in more)
    && (forall a | a in have && a.Conjunction? :: multiset(compound)[a] == multiset(have)[a])
    && exists ks: seq<nat> :: TakenFrom(more, compound[|have|..], ks)
  }

  lemma NewActionsMeans(have: seq<Action>, more: seq<Action>)
    ensures Compounds(have, more, have + NewActions(have, more))
  {
    var taken := NewActions(have, more);
    var ks := NewActionsAre(have, more);
    assert (have + taken)[|have|..] == taken;
    assert TakenFrom(more, (have + taken)[|have|..], ks);
    forall a ensures a in have + taken <==> a in have || a in more {
      if a in more && a !in have {
        var j :| 0 <= j < |more| && more[j] == a;
        var i :| 0 <= i < |ks| && ks[i] == j;
        assert taken[i] == a;
      }
    }
    forall a | a in have && a.Conjunction? ensures multiset(have + taken)[a] == multiset(have)[a] {
      forall i | 0 <= i < |taken| ensures taken[i] != a {
        assert ks[i] in ks;
      }
      assert a !in multiset(taken);
    }
  }

  lemma OtherRows(byUuid: map<Uuid, Stf>, u: Uuid, stf: Stf)
    ensures byUuid[u := stf] - {u} == byUuid - {u}
  {
  }

  /** The flows that row `u` alone references. */
  ghost function OnlyOf(refs: map<Id, set<Uuid>>, u: Uuid): set<Id> {
    set f | f in refs && refs[f] == {u}
  }

  /** Row `u` was taken off the flows `done`: `gone` are those it alone
      referenced, the `shared` ones have lost the reference, the others are as
      they were. */
  ghost predicate RowDropped(refs0: map<Id, set<Uuid>>, u: Uuid, done: set<Id>, gone: seq<Id>, shared: set<Id>,
                             refs: map<Id, set<Uuid>>) {
    && done <= refs0.Keys
    && NoDup(gone)
    && (forall f :: f in shared <==> f in done && refs0[f] != {u})
    && (forall f :: f in gone <==> f in done && refs0[f] == {u})
    && refs.Keys == refs0.Keys - Elems(gone)
    && (forall f | f in refs :: refs[f] == if f in shared then refs0[f] - {u} else refs0[f])
  }

  lemma RowStep(refs0: map<Id, set<Uuid>>, u: Uuid, done: set<Id>, gone: seq<Id>, shared: set<Id>,
                refs: map<Id, set<Uuid>>, f: Id)
    requires RowDropped(refs0, u, done, gone, shared, refs) && f in refs && f !in done
    ensures refs[f] == {u} ==> RowDropped(refs0, u, done + {f}, gone + [f], shared, refs - {f})
    ensures refs[f] != {u} ==> RowDropped(refs0, u, done + {f}, gone, shared + {f}, refs[f := refs[f] - {u}])
  {
  }

  /** The first step of a flood removal: row `u` itself. */
  lemma FloodedRow(live0: set<Id>, refs0: map<Id, set<Uuid>>, nodes: set<Uuid>, detached: set<Id>, z: set<Uuid>,
                   u: Uuid, byUuid0: map<Uuid, Stf>, gone: seq<Id>, shared: set<Id>,
                   live: set<Id>, refs: map<Id, set<Uuid>>, byUuid: map<Uuid, Stf>)
    requires IndexOk(live0, refs0, byUuid0, detached) && u in byUuid0 && u in nodes && nodes <= z
    requires ClosedFor(refs0, detached, z)
    requires RowDropped(refs0, u, byUuid0[u].flows, gone, shared, refs) && refs.Keys == live
    ensures Flooded(live0, refs0, nodes, detached, z, live, refs, byUuid, nodes, shared)
    ensures shared <= live && shared !! detached && DistinctIn(gone, live0)
  {
    forall f | f in byUuid0[u].flows ensures f in refs0 && f !in detached && u in refs0[f] && refs0[f] <= z {
      assert Attached(byUuid0, u, f);
      assert u in refs0[f] * z;
    }
  }

  /** The loop of `link_installed_to_desired`. */
  method FindInsertPos(flows: map<Id, Flow>, refs: seq<Id>, a: seq<Action>) returns (p: nat)
    requires forall d | d in refs :: d in flows
    requires HasConj(a) ==> forall d | d in refs :: !HasConj(flows[d].content.actions)
    ensures p == InsertPos(flows, refs, a)
  {
    p := 0;
    assert refs[0..] == refs;
    while p < |refs|
      invariant 0 <= p <= |refs|
      invariant p + InsertPos(flows, refs[p..], a) == InsertPos(flows, refs, a)
    {
      InsertPosStep(flows, refs, p, a);
      if Preferred(a, flows[refs[p]].content.actions) {
        break;
      }
      p := p + 1;
    }
  }

  /** Of the flows row `u` has indexed under an address, those in `gone` have been
      removed and those in `todo` not yet. */
  ghost predicate AddrDropped(live0: set<Id>, refs0: map<Id, set<Uuid>>, byUuid0: map<Uuid, Stf>, u: Uuid, a: AsInfo,
                              todo: set<Id>, gone: seq<Id>, refs: map<Id, set<Uuid>>, byUuid: map<Uuid, Stf>) {
    && u in byUuid0 && a in byUuid0[u].byAddr
    && todo <= byUuid0[u].byAddr[a] && Elems(gone) == byUuid0[u].byAddr[a] - todo && DistinctIn(gone, live0)
    && refs == refs0 - Elems(gone) && byUuid == byUuid0[u := DropFlows(byUuid0[u], Elems(gone))]
  }

  lemma AddrDropStart(live: set<Id>, refs: map<Id, set<Uuid>>, byUuid: map<Uuid, Stf>, u: Uuid, a: AsInfo)
    requires u in byUuid && a in byUuid[u].byAddr
    ensures AddrDropped(live, refs, byUuid, u, a, byUuid[u].byAddr[a], [], refs, byUuid)
  {
    assert Elems<Id>([]) == {};
    DropFlowsPush(byUuid[u], {}, 0);
    assert byUuid == byUuid[u := byUuid[u]];
  }

  lemma AddrDropStep(live0: set<Id>, refs0: map<Id, set<Uuid>>, byUuid0: map<Uuid, Stf>, u: Uuid, a: AsInfo,
                     todo: set<Id>, gone: seq<Id>, refs: map<Id, set<Uuid>>, byUuid: map<Uuid, Stf>, f: Id)
    requires IndexOk(live0, refs0, byUuid0, {})
    requires AddrDropped(live0, refs0, byUuid0, u, a, todo, gone, refs, byUuid) && f in todo
    ensures u in byUuid && a in byUuid[u].byAddr && f in byUuid[u].byAddr[a]
    ensures AddrDropped(live0, refs0, byUuid0, u, a, todo - {f}, gone + [f], refs - {f},
                        byUuid[u := DropFlow(byUuid[u], f)])
  {
    AddrFlow(live0, refs0, byUuid0, u, a, f);
    assert f !in Elems(gone);
    assert Elems([f]) == {f};
    DistinctConcat(gone, [f], live0);
    DropFlowsPush(byUuid0[u], Elems(gone), f);
  }

  lemma UnlinkNext(rs: seq<Id>, n: nat)
    requires NoDup(rs) && n < |rs|
    ensures rs[n] in rs && rs[n] !in Elems(rs[..n]) && rs[n..] != [] && rs[n..][0] == rs[n]
    ensures Without(rs[n..], rs[n]) == rs[n + 1..]
    ensures Elems(rs[..n + 1]) == Elems(rs[..n]) + {rs[n]}
  {
    assert rs[n..][0] == rs[n];
    assert Without(rs[n..], rs[n]) == rs[n + 1..];
    ElemsPush(rs[..n + 1]);
    assert rs[..n + 1][..n] == rs[..n];
  }

  /** A desired flow table with its indexes. */
  datatype Table = Table(core: Core, refs: map<Id, set<Uuid>>, byUuid: map<Uuid, Stf>)

  /** `desired_flow_lookup_check_uuid` finds a flow. */
  predicate HasFlow(t: Table, k: Key, u: Uuid) {
    exists d | d in t.core.live :: d in t.core.flows && t.core.flows[d].key == k && d in t.refs && u in t.refs[d]
  }

  /** `desired_flow_lookup_conjunctive` finds flow `d`. */
  predicate ConjFlow(t: Table, k: Key, d: Id) {
    d in t.core.live && d in t.core.flows && t.core.flows[d].key == k && Conj(t.core.flows, d)
  }

  class FlowTable {
    // struct ovn_desired_flow_table
    var flows: map<Id, Flow>
    var live: set<Id>
    var refs: map<Id, set<Uuid>>
    var byUuid: map<Uuid, Stf>
    var tracked: seq<Id>
    var changeTracked: bool
    // the installed flow table
    var linked: set<Id>
    var installed: map<Key, Installed>
    var nextId: Id

    function View(): Core
      reads this
    {
      Core(flows, live, linked, tracked, changeTracked, installed, nextId)
    }

    function Snap(): Table
      reads this
    {
      Table(View(), refs, byUuid)
    }

    ghost predicate Valid()
      reads this
    {
      Inv(View()) && IndexOk(live, refs, byUuid, {})
    }

    /** `ovn_desired_flow_table_init` */
    constructor ()
      ensures Valid() && installed == map[] && !changeTracked
      ensures View() == Core(map[], {}, {}, [], false, map[], 0) && refs == map[] && byUuid == map[]
    {
      flows, live, refs, byUuid := map[], {}, map[], map[];
      tracked, changeTracked := [], false;
      linked, installed, nextId := {}, map[], 0;
    }

    // ------------------------------------------------------------------- links

    /** `link_installed_to_desired` */
    method LinkInstalledToDesired(d: Id) returns (active: bool)
      requires CanLink(View(), d)
      modifies this`linked, this`installed
      ensures View() == old(Link(View(), d))
      ensures active <==> installed[flows[d].key].refs[0] == d
    {
      var k := flows[d].key;
      var a := flows[d].content.actions;
      var rs := installed[k].refs;
      var p := FindInsertPos(flows, rs, a);
      installed := installed[k := installed[k].(refs := rs[..p] + [d] + rs[p..])];
      linked := linked + {d};
      active := installed[k].refs[0] == d;
    }

    /** `unlink_installed_to_desired` */
    method UnlinkInstalledToDesired(d: Id) returns (wasActive: bool)
      requires d in linked && d in flows && flows[d].key in installed
      modifies this`linked, this`installed
      ensures View() == old(Unlink(View(), d))
      ensures wasActive <==> old(installed[flows[d].key].refs) != [] && old(installed[flows[d].key].refs[0]) == d
    {
      var k := flows[d].key;
      var rs := installed[k].refs;
      wasActive := rs != [] && rs[0] == d;
      installed := installed[k := installed[k].(refs := Without(rs, d))];
      linked := linked - {d};
    }

    // ---------------------------------------------------------------- tracking

    /** `track_flow_add_or_modify` */
    method TrackFlowAddOrModify(d: Id)
      modifies this`tracked
      ensures View() == old(TrackAdd(View(), d))
    {
      if !changeTracked {
        return;
      }
      tracked := Without(tracked, d);
      tracked := tracked + [d];
    }

    /** `track_or_destroy_for_flow_del` and `track_flow_del`, for a flow that is
        taken out of `match_flow_table`. */
    method TakeOutFlow(d: Id)
      requires LinksIn(View())
      modifies this`live, this`flows, this`linked, this`installed, this`tracked
      ensures View() == old(RemoveFlow(View(), d))
    {
      live := live - {d};
      if changeTracked {
        if d in tracked {
          tracked := Without(tracked, d);
          if d !in linked {
            flows := flows - {d};
            return;
          }
        }
        tracked := tracked + [d];
      } else {
        if d in linked {
          var _ := UnlinkInstalledToDesired(d);
        }
        flows := flows - {d};
      }
    }

    // ---------------------------------------------------- adding desired flows

    /** `link_flow_to_sb` */
    method LinkFlowToSb(f: Id, u: Uuid, a: Option<AsInfo>)
      modifies this`refs, this`byUuid
      ensures refs == old(refs)[f := (if f in old(refs) then old(refs)[f] else {}) + {u}]
      ensures byUuid == old(LinkRow(byUuid, u, f, a))
    {
      refs := refs[f := (if f in refs then refs[f] else {}) + {u}];
      if u !in byUuid {
        byUuid := byUuid[u := Stf({}, map[])];
      }
      byUuid := byUuid[u := byUuid[u].(flows := byUuid[u].flows + {f})];
      if a.None? {
        return;
      }
      var stf := byUuid[u];
      if a.value !in stf.byAddr {
        stf := stf.(byAddr := stf.byAddr[a.value := {}]);
      }
      stf := stf.(byAddr := stf.byAddr[a.value := stf.byAddr[a.value] + {f}]);
      assert stf.byAddr == old(StfOf(byUuid, u)).byAddr[a.value := old(AddrFlows(StfOf(byUuid, u), a.value)) + {f}];
      byUuid := byUuid[u := stf];
    }

    /** A new desired flow enters both indexes and is tracked. */
    method InsertFlow(k: Key, x: Content, u: Uuid, a: Option<AsInfo>)
      requires Valid()
      requires HasConj(x.actions) ==> forall e | e in live && flows[e].key == k :: !Conj(flows, e)
      modifies this
      ensures Valid() && View() == old(AddFlow(View(), Flow(k, x)))
      ensures live == old(live) + {old(nextId)} && old(nextId) !in old(live)
      ensures flows == old(flows)[old(nextId) := Flow(k, x)]
      ensures refs == old(refs)[old(nextId) := {u}] && byUuid == LinkRow(old(byUuid), u, old(nextId), a)
    {
      AddFlowInv(View(), Flow(k, x));
      LinkNewOk(live, refs, byUuid, u, nextId, a);
      NewFlow(k, x, u, a);
    }

    /** A flow is put in the table, and on the list of its row. */
    method NewFlow(k: Key, x: Content, u: Uuid, a: Option<AsInfo>)
      requires nextId !in refs
      modifies this
      ensures View() == old(AddFlow(View(), Flow(k, x)))
      ensures refs == old(refs)[old(nextId) := {u}] && byUuid == LinkRow(old(byUuid), u, old(nextId), a)
    {
      var d := nextId;
      nextId := nextId + 1;
      flows := flows[d := Flow(k, x)];
      live := live + {d};
      LinkFlowToSb(d, u, a);
      assert refs[d] == {u};
      TrackFlowAddOrModify(d);
    }

    /** `ofctrl_check_and_add_flow_metered`: a flow of the same key that the row
        already references makes the new one a duplicate. */
    method CheckAndAddFlow(k: Key, x: Content, u: Uuid, a: Option<AsInfo>)
      requires Valid() && !HasConj(x.actions)
      modifies this
      ensures Valid() && installed == old(installed) && changeTracked == old(changeTracked)
      ensures HasFlow(old(Snap()), k, u) ==> View() == old(View()) && refs == old(refs) && byUuid == old(byUuid)
      ensures !HasFlow(old(Snap()), k, u) ==>
        && live == old(live) + {old(nextId)} && old(nextId) !in old(live)
        && flows == old(flows)[old(nextId) := Flow(k, x)]
        && refs == old(refs)[old(nextId) := {u}] && byUuid == LinkRow(old(byUuid), u, old(nextId), a)
    {
      if !HasFlow(Snap(), k, u) {
        InsertFlow(k, x, u, a);
      }
    }

    /** The actions of `d`, followed by those of `more` it does not have. */
    method Compound(have: seq<Action>, more: seq<Action>) returns (compound: seq<Action>)
      ensures compound == have + NewActions(have, more) && Compounds(have, more, compound)
      ensures HasConj(have) ==> HasConj(compound)
    {
      compound := have;
      var i := 0;
      while i < |more|
        invariant 0 <= i <= |more|
        invariant compound == have + NewActions(have, more[..i])
      {
        assert more[..i + 1][..i] == more[..i];
        if !more[i].Conjunction? || more[i] !in have {
          compound := compound + [more[i]];
        }
        i := i + 1;
      }
      assert more[..i] == more;
      NewActionsMeans(have, more);
      if HasConj(have) {
        var y :| y in have && y.Conjunction?;
        assert y in compound;
      }
    }

    /** A flow stops being any address's flow and gets one more row. */
    method ShareFlow(d: Id, u: Uuid)
      requires IndexOk(live, refs, byUuid, {}) && d in live && u !in refs[d]
      modifies this`refs, this`byUuid
      ensures IndexOk(live, refs, byUuid, {}) && refs == old(refs)[d := old(refs)[d] + {u}]
      ensures byUuid == ShareRow(old(byUuid), old(refs)[d], u, d)
    {
      assert forall w | w in refs[d] :: Attached(byUuid, w, d);
      LinkSharedOk(live, refs, byUuid, u, d);
      UnindexFlow(d);
      LinkFlowToSb(d, u, None);
    }

    method SetFlow(d: Id, x: Content)
      requires d in flows
      modifies this`flows, this`tracked
      ensures View() == old(ModifyFlow(View(), d, x))
    {
      flows := flows[d := flows[d].(content := x)];
      TrackFlowAddOrModify(d);
    }

    /** The existing conjunctive flow `d` gets new actions and a new reference. */
    method AppendToFlow(d: Id, x: Content, u: Uuid)
      requires Valid() && d in live && Conj(flows, d) && HasConj(x.actions) && u !in refs[d]
      modifies this
      ensures Valid() && View() == old(ModifyFlow(View(), d, x))
      ensures live == old(live) && flows == old(flows)[d := old(flows[d]).(content := x)]
      ensures refs == old(refs)[d := old(refs)[d] + {u}] && byUuid == ShareRow(old(byUuid), old(refs)[d], u, d)
    {
      ModifyFlowInv(View(), d, x);
      ShareFlow(d, u);
      SetFlow(d, x);
    }

    /** `ofctrl_add_or_append_flow`: a conjunctive flow of the same key gets the
        new conjunctions, and no longer counts as any address's flow. */
    method AddOrAppendFlow(k: Key, x: Content, u: Uuid, a: Option<AsInfo>)
      requires Valid() && HasConj(x.actions)
      requires forall d | ConjFlow(Snap(), k, d) :: u !in refs[d]
      modifies this
      ensures Valid() && installed == old(installed) && changeTracked == old(changeTracked)
      ensures forall d | ConjFlow(old(Snap()), k, d) ::
        var have := old(flows[d]).content;
        && live == old(live)
        && flows == old(flows)[d := Flow(k, have.(actions := have.actions + NewActions(have.actions, x.actions)))]
        && Compounds(have.actions, x.actions, flows[d].content.actions)
        && refs == old(refs)[d := old(refs)[d] + {u}] && byUuid == ShareRow(old(byUuid), old(refs)[d], u, d)
      ensures (forall d :: !ConjFlow(old(Snap()), k, d)) ==>
        && live == old(live) + {old(nextId)} && old(nextId) !in old(live)
        && flows == old(flows)[old(nextId) := Flow(k, x)]
        && refs == old(refs)[old(nextId) := {u}] && byUuid == LinkRow(old(byUuid), u, old(nextId), a)
    {
      if d :| d in live && ConjFlow(Snap(), k, d) {
        var compound := Compound(flows[d].content.actions, x.actions);
        AppendToFlow(d, flows[d].content.(actions := compound), u);
      } else {
        InsertFlow(k, x, u, a);
      }
    }

    /** The loop over a flow's references that drops its address tracking. */
    method UnindexFlow(f: Id)
      requires f in refs && forall u | u in refs[f] :: u in byUuid
      modifies this`byUuid
      ensures byUuid == UnindexRows(old(byUuid), refs[f], f)
    {
      var todo := refs[f];
      while todo != {}
        invariant todo <= refs[f]
        invariant byUuid.Keys == old(byUuid).Keys
        invariant forall w | w in byUuid ::
          byUuid[w] == if w in refs[f] && w !in todo then Unindex(old(byUuid)[w], f) else old(byUuid)[w]
        decreases todo
      {
        var u :| u in todo;
        byUuid := byUuid[u := Unindex(byUuid[u], f)];
        todo := todo - {u};
      }
    }

    // -------------------------------------------------- removing desired flows

    /** One reference is dropped, and with the last one the flow. */
    method DropRef(u: Uuid, f: Id, ghost detached: set<Id>) returns (last: bool)
      requires LinksIn(View()) && IndexOk(live, refs, byUuid, detached) && Attached(byUuid, u, f)
      modifies this
      ensures IndexOk(live, refs, byUuid, detached)
      ensures byUuid == old(byUuid)[u := DropFlow(old(byUuid)[u], f)]
      ensures f in old(refs) && (last <==> old(refs)[f] == {u})
      ensures refs == if last then old(refs) - {f} else old(refs)[f := old(refs)[f] - {u}]
      ensures View() == if last then old(RemoveFlow(View(), f)) else old(View())
    {
      DropRefOk(live, refs, byUuid, detached, u, f);
      byUuid := byUuid[u := DropFlow(byUuid[u], f)];
      last := refs[f] == {u};
      if last {
        refs := refs - {f};
        TakeOutFlow(f);
      } else {
        refs := refs[f := refs[f] - {u}];
      }
    }

    /** One turn of the first loop of `remove_flows_from_sb_to_flow`. */
    method DropRowFlow(u: Uuid, f: Id, shared: set<Id>, ghost detached: set<Id>, ghost was: Core,
                       ghost refs0: map<Id, set<Uuid>>, ghost done: set<Id>, ghost gone: seq<Id>)
        returns (shared': set<Id>, ghost gone': seq<Id>)
      requires LinksIn(was) && was.linked <= was.flows.Keys && View() == RemoveAll(was, gone)
      requires IndexOk(live, refs, byUuid, detached) && Attached(byUuid, u, f) && f !in done
      requires RowDropped(refs0, u, done, gone, shared, refs)
      modifies this
      ensures IndexOk(live, refs, byUuid, detached) && byUuid == old(byUuid)[u := DropFlow(old(byUuid)[u], f)]
      ensures RowDropped(refs0, u, done + {f}, gone', shared', refs) && View() == RemoveAll(was, gone')
    {
      shared', gone' := shared, gone;
      RowStep(refs0, u, done, gone, shared, refs, f);
      RemoveAllPush(was, gone, f);
      var last := DropRef(u, f, detached);
      if last {
        gone' := gone + [f];
      } else {
        shared' := shared + {f};
      }
    }

    /** The first loop of `remove_flows_from_sb_to_flow`, and the row itself:
        flows no other row references go, `shared` are the others. */
    method DropRow(u: Uuid, ghost detached: set<Id>) returns (shared: set<Id>, ghost gone: seq<Id>)
      requires LinksIn(View()) && linked <= flows.Keys && IndexOk(live, refs, byUuid, detached) && u in byUuid
      modifies this
      ensures IndexOk(live, refs, byUuid, detached)
      ensures byUuid == old(byUuid) - {u}
      ensures RowDropped(old(refs), u, old(byUuid)[u].flows, gone, shared, refs)
      ensures View() == RemoveAll(old(View()), gone)
    {
      var todo := byUuid[u].flows;
      shared, gone := {}, [];
      ghost var all := todo;
      assert all - todo == {};
      assert forall f | f in todo :: Attached(byUuid, u, f);
      while todo != {}
        invariant IndexOk(live, refs, byUuid, detached)
        invariant u in byUuid && byUuid[u].flows == todo && byUuid - {u} == old(byUuid) - {u}
        invariant todo <= all && RowDropped(old(refs), u, all - todo, gone, shared, refs)
        invariant View() == RemoveAll(old(View()), gone)
        decreases todo
      {
        var f :| f in todo;
        OtherRows(byUuid, u, DropFlow(byUuid[u], f));
        shared, gone := DropRowFlow(u, f, shared, detached, old(View()), old(refs), all - todo, gone);
        assert all - todo + {f} == all - (todo - {f});
        todo := todo - {f};
      }
      assert all - todo == all;
      DropRowOk(live, refs, byUuid, detached, u);
      byUuid := byUuid - {u};
    }

    /** `ofctrl_remove_flows`: row `u` lets go of its flows. */
    method RemoveFlows(u: Uuid)
      requires Valid()
      modifies this
      ensures Valid() && byUuid == old(byUuid) - {u}
      ensures OnlyRemoved(old(View()), View(), OnlyOf(old(refs), u))
      ensures forall f | f in live :: refs[f] == old(refs)[f] - {u}
    {
      assert forall f | f in refs && u in refs[f] :: Attached(byUuid, u, f);
      if u in byUuid {
        assert forall f | f in byUuid[u].flows :: Attached(byUuid, u, f);
        var _, gone := DropRow(u, {});
        assert Elems(gone) == OnlyOf(old(refs), u);
        assert Inv(View()) && OnlyRemoved(old(View()), View(), Elems(gone)) by { RemoveAllInv(old(View()), gone); }
      } else {
        assert OnlyOf(refs, u) == {} && byUuid - {u} == byUuid;
      }
    }

    /** The rows of `f` take it off their lists. */
    method DetachFlow(f: Id, ghost detached: set<Id>, ghost z: set<Uuid>)
      requires IndexOk(live, refs, byUuid, detached) && f in live && f !in detached && refs[f] <= z
      modifies this`byUuid
      ensures IndexOk(live, refs, byUuid, detached + {f}) && byUuid.Keys == old(byUuid).Keys
      ensures byUuid - z == old(byUuid) - z
    {
      assert forall w | w in refs[f] :: Attached(byUuid, w, f);
      var todo := refs[f];
      while todo != {}
        invariant todo <= refs[f]
        invariant byUuid.Keys == old(byUuid).Keys
        invariant forall w | w in byUuid ::
          byUuid[w] == if w in refs[f] && w !in todo then DropFlow(old(byUuid)[w], f) else old(byUuid)[w]
        decreases todo
      {
        var w :| w in todo;
        byUuid := byUuid[w := DropFlow(byUuid[w], f)];
        todo := todo - {w};
      }
      DetachOk(live, refs, old(byUuid), byUuid, detached, f);
    }

    /** The loop that detaches every flow waiting to be removed, so that nested
        calls do not meet them. */
    method DetachAll(fs: set<Id>, ghost detached: set<Id>, ghost z: set<Uuid>)
      requires IndexOk(live, refs, byUuid, detached) && fs <= live && fs !! detached
      requires forall f | f in fs :: refs[f] <= z
      modifies this`byUuid
      ensures IndexOk(live, refs, byUuid, detached + fs) && byUuid.Keys == old(byUuid).Keys
      ensures byUuid - z == old(byUuid) - z
    {
      var todo := fs;
      ghost var done := {};
      assert detached + done == detached;
      while todo != {}
        invariant done !! todo && done + todo == fs
        invariant IndexOk(live, refs, byUuid, detached + done) && byUuid.Keys == old(byUuid).Keys
        invariant byUuid - z == old(byUuid) - z
        decreases todo
      {
        var f :| f in todo;
        DetachFlow(f, detached + done, z);
        todo := todo - {f};
        done := done + {f};
        assert detached + done == detached + (done - {f}) + {f};
      }
      assert done == fs;
    }

    /** `flood_remove_flows_for_sb_uuid`, with the flooding half of
        `remove_flows_from_sb_to_flow`: row `u` is taken apart, and so is every
        row it shares a flow with that is not in `nodes` yet. `detached` are
        the flows outer calls are taking apart, `z` any closed set of rows. */
    method FloodRemoveRow(u: Uuid, nodes: set<Uuid>, ghost detached: set<Id>, ghost z: set<Uuid>)
        returns (nodes': set<Uuid>, ghost gone: seq<Id>)
      requires LinksIn(View()) && linked <= flows.Keys && IndexOk(live, refs, byUuid, detached)
      requires u in nodes && nodes <= z && ClosedFor(refs, detached, z)
      modifies this
      ensures IndexOk(live, refs, byUuid, detached)
      ensures Flooded(old(live), old(refs), nodes, detached, z, live, refs, byUuid, nodes', {})
      ensures u !in byUuid && byUuid.Keys <= old(byUuid).Keys && byUuid - z == old(byUuid) - z
      ensures View() == RemoveAll(old(View()), gone) && DistinctIn(gone, old(live))
      decreases |byUuid|, 0
    {
      nodes', gone := nodes, [];
      if u !in byUuid {
        return;
      }
      ghost var live0, refs0, c0 := live, refs, View();
      var pending;
      pending, gone := DropRow(u, detached);
      FloodedRow(live0, refs0, nodes, detached, z, u, old(byUuid), gone, pending, live, refs, byUuid);
      DetachAll(pending, detached, z);
      while pending != {}
        invariant IndexOk(live, refs, byUuid, detached + pending)
        invariant Flooded(live0, refs0, nodes, detached, z, live, refs, byUuid, nodes', pending)
        invariant u !in byUuid && byUuid.Keys < old(byUuid).Keys && byUuid - z == old(byUuid) - z
        invariant View() == RemoveAll(c0, gone) && DistinctIn(gone, live0)
        decreases pending
      {
        var f :| f in pending;
        ghost var more;
        SmallerCard(byUuid.Keys, old(byUuid).Keys);
        nodes', more := FloodFlow(f, nodes', pending, live0, refs0, nodes, detached, z);
        RemoveAllConcat(c0, gone, more);
        DistinctConcat(gone, more, live0);
        gone := gone + more;
        pending := pending - {f};
      }
    }

    /** Another row of a pending flow is flooded, unless it has been already. */
    method FloodRow(v: Uuid, nodes: set<Uuid>, ghost pending: set<Id>,
                    ghost live0: set<Id>, ghost refs0: map<Id, set<Uuid>>, ghost nodes0: set<Uuid>,
                    ghost detached0: set<Id>, ghost z: set<Uuid>)
        returns (nodes': set<Uuid>, ghost gone: seq<Id>)
      requires LinksIn(View()) && linked <= flows.Keys && IndexOk(live, refs, byUuid, detached0 + pending)
      requires ClosedFor(refs0, detached0, z) && v in z
      requires Flooded(live0, refs0, nodes0, detached0, z, live, refs, byUuid, nodes, pending)
      modifies this
      ensures IndexOk(live, refs, byUuid, detached0 + pending)
      ensures Flooded(live0, refs0, nodes0, detached0, z, live, refs, byUuid, nodes', pending)
      ensures forall f | f in pending :: f in old(refs) && refs[f] == old(refs)[f]
      ensures v in nodes' && byUuid.Keys <= old(byUuid).Keys && byUuid - z == old(byUuid) - z
      ensures View() == RemoveAll(old(View()), gone) && DistinctIn(gone, old(live))
      decreases |byUuid|, 1
    {
      nodes', gone := nodes, [];
      if v !in nodes {
        ClosedForRest(live0, refs0, nodes0, detached0, z, live, refs, byUuid, nodes, pending);
        nodes', gone := FloodRemoveRow(v, nodes + {v}, detached0 + pending, z);
        FloodedNested(live0, refs0, nodes0, detached0, z, old(live), old(refs), old(byUuid), nodes, pending, v,
                      live, refs, byUuid, nodes');
      }
    }

    /** The loop over the references of a pending flow. */
    method FloodRefs(f: Id, nodes: set<Uuid>, ghost pending: set<Id>,
                     ghost live0: set<Id>, ghost refs0: map<Id, set<Uuid>>, ghost nodes0: set<Uuid>,
                     ghost detached0: set<Id>, ghost z: set<Uuid>)
        returns (nodes': set<Uuid>, ghost gone: seq<Id>)
      requires LinksIn(View()) && linked <= flows.Keys && IndexOk(live, refs, byUuid, detached0 + pending)
      requires f in pending
      requires ClosedFor(refs0, detached0, z)
      requires Flooded(live0, refs0, nodes0, detached0, z, live, refs, byUuid, nodes, pending)
      modifies this
      ensures IndexOk(live, refs, byUuid, detached0 + pending) && f in refs && refs[f] == {}
      ensures Flooded(live0, refs0, nodes0, detached0, z, live, refs, byUuid, nodes', pending)
      ensures byUuid.Keys <= old(byUuid).Keys && byUuid - z == old(byUuid) - z
      ensures View() == RemoveAll(old(View()), gone) && DistinctIn(gone, old(live))
      decreases |byUuid|, 2
    {
      nodes', gone := nodes, [];
      while refs[f] != {}
        invariant f in refs
        invariant IndexOk(live, refs, byUuid, detached0 + pending)
        invariant Flooded(live0, refs0, nodes0, detached0, z, live, refs, byUuid, nodes', pending)
        invariant byUuid.Keys <= old(byUuid).Keys && byUuid - z == old(byUuid) - z
        invariant View() == RemoveAll(old(View()), gone) && DistinctIn(gone, old(live))
        decreases refs[f]
      {
        var v :| v in refs[f];
        ghost var more;
        SubsetCard(byUuid.Keys, old(byUuid).Keys);
        nodes', more := FloodRow(v, nodes', pending, live0, refs0, nodes0, detached0, z);
        RemoveAllConcat(old(View()), gone, more);
        DistinctConcat(gone, more, old(live));
        gone := gone + more;
        ghost var core := View();
        DetachedDropOk(live, refs, byUuid, detached0 + pending, f, v);
        FloodedDropRef(live0, refs0, nodes0, detached0, z, live, refs, byUuid, nodes', pending, f, v);
        refs := refs[f := refs[f] - {v}];
        assert View() == core;
      }
    }

    /** A flow on the list `to_be_removed`: its other rows are flooded, then it
        goes. */
    method FloodFlow(f: Id, nodes: set<Uuid>, ghost pending: set<Id>,
                     ghost live0: set<Id>, ghost refs0: map<Id, set<Uuid>>, ghost nodes0: set<Uuid>,
                     ghost detached0: set<Id>, ghost z: set<Uuid>)
        returns (nodes': set<Uuid>, ghost gone: seq<Id>)
      requires LinksIn(View()) && linked <= flows.Keys && IndexOk(live, refs, byUuid, detached0 + pending)
      requires f in pending
      requires ClosedFor(refs0, detached0, z)
      requires Flooded(live0, refs0, nodes0, detached0, z, live, refs, byUuid, nodes, pending)
      modifies this
      ensures IndexOk(live, refs, byUuid, detached0 + (pending - {f}))
      ensures Flooded(live0, refs0, nodes0, detached0, z, live, refs, byUuid, nodes', pending - {f})
      ensures byUuid.Keys <= old(byUuid).Keys && byUuid - z == old(byUuid) - z
      ensures View() == RemoveAll(old(View()), gone) && DistinctIn(gone, old(live))
      decreases |byUuid|, 3
    {
      nodes', gone := FloodRefs(f, nodes, pending, live0, refs0, nodes0, detached0, z);
      FloodedDropFlow(live0, refs0, nodes0, detached0, z, live, refs, byUuid, nodes', pending, f);
      RemoveAllPush(old(View()), gone, f);
      DistinctConcat(gone, [f], old(live));
      DropDetached(f, detached0, pending);
      gone := gone + [f];
    }

    /** A detached flow without references goes. */
    method DropDetached(f: Id, ghost detached0: set<Id>, ghost pending: set<Id>)
      requires LinksIn(View()) && IndexOk(live, refs, byUuid, detached0 + pending)
      requires f in pending && f !in detached0 && f in refs && refs[f] == {}
      modifies this`live, this`flows, this`linked, this`installed, this`tracked, this`refs
      ensures IndexOk(live, refs, byUuid, detached0 + (pending - {f}))
      ensures refs == old(refs) - {f} && View() == old(RemoveFlow(View(), f))
    {
      DetachedDropOk(live, refs, byUuid, detached0 + pending, f, 0);
      assert detached0 + pending - {f} == detached0 + (pending - {f});
      refs := refs - {f};
      TakeOutFlow(f);
    }

    /** `ofctrl_flood_remove_flows`: `nodes` grows to its closure under sharing
        a desired flow; the flows of those rows go, nothing else changes. */
    method FloodRemoveFlows(nodes: set<Uuid>) returns (nodes': set<Uuid>)
      requires Valid()
      modifies this
      ensures Valid()
      ensures nodes' == Closure(old(refs), nodes) && byUuid == old(byUuid) - nodes'
      ensures OnlyRemoved(old(View()), View(), old(live) - live)
      ensures forall f | f in old(live) :: f in live <==> old(refs)[f] * nodes' == {}
      ensures forall f | f in live :: refs[f] == old(refs)[f]
    {
      ghost var z := Closure(refs, nodes);
      ghost var gone := [];
      ClosureLeast(refs, nodes);
      nodes' := nodes;
      var todo := nodes;
      while todo != {}
        invariant todo <= nodes
        invariant IndexOk(live, refs, byUuid, {})
        invariant Flooded(old(live), old(refs), nodes, {}, z, live, refs, byUuid, nodes', {})
        invariant forall u | u in nodes && u !in todo :: u !in byUuid
        invariant byUuid - z == old(byUuid) - z
        invariant View() == RemoveAll(old(View()), gone) && DistinctIn(gone, old(live))
        decreases todo
      {
        var u :| u in todo;
        ghost var live1, refs1, byUuid1, nodes1 := live, refs, byUuid, nodes';
        ghost var more;
        nodes', more := FloodRemoveRow(u, nodes', {}, z);
        assert nodes1 + {u} == nodes1;
        FloodedNested(old(live), old(refs), nodes, {}, z, live1, refs1, byUuid1, nodes1, {}, u,
                      live, refs, byUuid, nodes');
        RemoveAllConcat(old(View()), gone, more);
        DistinctConcat(gone, more, old(live));
        gone := gone + more;
        todo := todo - {u};
      }
      FloodedClosure(old(live), old(refs), old(byUuid), nodes, live, refs, byUuid, nodes');
      RemoveAllInv(old(View()), gone);
      assert Elems(gone) == old(live) - live;
      assert byUuid == byUuid - z;
    }

    /** A flow indexed under an address: the row's is its only reference, so
        dropping it removes the flow. */
    method DropAddrFlow(u: Uuid, a: AsInfo, f: Id)
      requires LinksIn(View()) && IndexOk(live, refs, byUuid, {})
      requires u in byUuid && a in byUuid[u].byAddr && f in byUuid[u].byAddr[a]
      modifies this
      ensures IndexOk(live, refs, byUuid, {}) && f in old(live)
      ensures byUuid == old(byUuid)[u := DropFlow(old(byUuid)[u], f)]
      ensures refs == old(refs) - {f} && View() == old(RemoveFlow(View(), f))
    {
      AddrFlow(live, refs, byUuid, u, a, f);
      var last := DropRef(u, f, {});
      assert last;
    }

    /** The loop over the flows indexed under one address. */
    method DropAddr(u: Uuid, a: AsInfo) returns (count: nat, ghost gone: seq<Id>)
      requires LinksIn(View()) && linked <= flows.Keys && IndexOk(live, refs, byUuid, {})
      requires u in byUuid && a in byUuid[u].byAddr
      modifies this
      ensures IndexOk(live, refs, byUuid, {})
      ensures AddrDropped(old(live), old(refs), old(byUuid), u, a, {}, gone, refs, byUuid)
      ensures count == |old(byUuid)[u].byAddr[a]| && View() == RemoveAll(old(View()), gone)
    {
      var todo := byUuid[u].byAddr[a];
      count, gone := 0, [];
      AddrDropStart(live, refs, byUuid, u, a);
      while todo != {}
        invariant IndexOk(live, refs, byUuid, {})
        invariant AddrDropped(old(live), old(refs), old(byUuid), u, a, todo, gone, refs, byUuid)
        invariant |todo| + count == |old(byUuid)[u].byAddr[a]| && View() == RemoveAll(old(View()), gone)
        decreases todo
      {
        var f :| f in todo;
        RemoveAllPush(old(View()), gone, f);
        AddrDropStep(old(live), old(refs), old(byUuid), u, a, todo, gone, refs, byUuid, f);
        DropAddrFlow(u, a, f);
        gone := gone + [f];
        todo := todo - {f};
        count := count + 1;
      }
    }

    /** `ofctrl_remove_flows_for_as_ip`. The row's flows for one address of an
        address set go; a row or address without an index gives `false`, which
        makes the caller reprocess the row. */
    method RemoveFlowsForAsIp(u: Uuid, a: AsInfo, expected: nat) returns (ok: bool)
      requires Valid()
      modifies this
      ensures Valid()
      ensures u !in old(byUuid) ==> ok
      ensures u in old(byUuid) && a !in old(byUuid)[u].byAddr ==> !ok
      ensures u !in old(byUuid) || a !in old(byUuid)[u].byAddr ==>
        View() == old(View()) && refs == old(refs) && byUuid == old(byUuid)
      ensures u in old(byUuid) && a in old(byUuid)[u].byAddr ==>
        var fs := old(byUuid)[u].byAddr[a];
        && (ok <==> |fs| == expected)
        && OnlyRemoved(old(View()), View(), fs)
        && refs == old(refs) - fs
        && byUuid == old(byUuid)[u := Unaddressed(DropFlows(old(byUuid)[u], fs), a)]
    {
      if u !in byUuid {
        return true;
      }
      if a !in byUuid[u].byAddr {
        return false;
      }
      var count := RemoveAddr(u, a);
      ok := count == expected;
    }

    /** The flows row `u` has indexed under an address go, and the index itself. */
    method RemoveAddr(u: Uuid, a: AsInfo) returns (count: nat)
      requires Valid() && u in byUuid && a in byUuid[u].byAddr
      modifies this
      ensures var fs := old(byUuid)[u].byAddr[a];
        && Valid() && OnlyRemoved(old(View()), View(), fs) && count == |fs|
        && refs == old(refs) - fs && byUuid == old(byUuid)[u := Unaddressed(DropFlows(old(byUuid)[u], fs), a)]
    {
      ghost var gone;
      count, gone := DropAddr(u, a);
      assert Elems(gone) == old(byUuid)[u].byAddr[a];
      DropAddrOk(live, refs, byUuid, u, a);
      byUuid := byUuid[u := Unaddressed(byUuid[u], a)];
      RemoveAllInv(old(View()), gone);
    }

    // ---------------------------------------------------------------- clearing

    /** The loop of `ovn_desired_flow_table_clear` over the tracked flows. */
    method DropTracked()
      requires CanClear(View()) && !changeTracked
      modifies this`flows, this`linked, this`installed, this`tracked
      ensures Inv(View()) && OnlyRemoved(old(View()), View(), {})
    {
      while tracked != []
        invariant CanClear(View()) && OnlyRemoved(old(View()), View(), {})
        decreases |tracked|
      {
        var d := tracked[0];
        TailNoDup(tracked);
        tracked := tracked[1..];
        if d !in live {
          if d in linked {
            UnlinkOk(View(), d);
            var _ := UnlinkInstalledToDesired(d);
          }
          DestroyOk(View(), d);
          flows := flows - {d};
        }
      }
    }

    /** What is left of the invariant when installed flows are forgotten while
        changes are tracked: enough to clear the table. */
    ghost predicate Clearable()
      reads this
    {
      CanClear(View()) && IndexOk(live, refs, byUuid, {})
    }

    /** `ovn_desired_flow_table_clear` */
    method Clear()
      requires Clearable()
      modifies this
      ensures Valid() && !changeTracked && live == {} && flows == map[] && linked == {} && refs == map[]
      ensures byUuid == map[]
      ensures Contents(installed) == old(Contents(installed))
    {
      changeTracked := false;
      DropTracked();
      while byUuid != map[]
        invariant Valid() && !changeTracked && Contents(installed) == old(Contents(installed))
        decreases |byUuid|
      {
        var u :| u in byUuid;
        ghost var c1 := View();
        assert byUuid - {u} != byUuid;
        SmallerCard((byUuid - {u}).Keys, byUuid.Keys);
        var _, gone := DropRow(u, {});
        RemoveAllInv(c1, gone);
      }
      NoRowsNoFlows(live, refs);
    }

    /** `ovn_installed_flow_table_clear`, when S_CLEAR_FLOWS starts over. While
        changes are tracked, this breaks the invariant. */
    method ClearInstalled()
      requires Clearable()
      modifies this`linked, this`installed
      ensures Clearable() && installed == map[] && linked == {}
      ensures old(Valid()) && !changeTracked ==> Valid()
    {
      while installed != map[]
        invariant Clearable()
        decreases |installed|
      {
        var k :| k in installed;
        SmallerCard((installed - {k}).Keys, installed.Keys);
        ForgetInstalledFlow(k);
      }
    }

    /** An installed flow is unlinked from all its desired flows, and destroyed. */
    method ForgetInstalledFlow(k: Key)
      requires WellFormed(View()) && k in installed
      modifies this`linked, this`installed
      ensures WellFormed(View()) && installed.Keys == old(installed).Keys - {k}
    {
      UnlinkAllOk(View(), k);
      DropInstalledEffect(UnlinkAll(View(), k), k);
      assert RefsOk(flows, linked, k, installed[k].refs);
      UnlinkAllRefs(k);
      installed := installed - {k};
    }

    /** `unlink_all_refs_for_installed_flow` */
    method UnlinkAllRefs(k: Key)
      requires k in installed && RefsOk(flows, linked, k, installed[k].refs)
      modifies this`linked, this`installed
      ensures View() == old(UnlinkAll(View(), k))
    {
      ghost var n := 0;
      ghost var rs := installed[k].refs;
      assert rs[0..] == rs;
      while installed[k].refs != []
        invariant 0 <= n <= |rs| && k in installed
        invariant installed == old(installed)[k := old(installed[k]).(refs := rs[n..])]
        invariant linked == old(linked) - Elems(rs[..n])
        decreases |rs| - n
      {
        var d := installed[k].refs[0];
        UnlinkNext(rs, n);
        var _ := UnlinkInstalledToDesired(d);
        n := n + 1;
      }
      assert rs[..n] == rs;
    }

    // ------------------------------------------------------- updating installed

    /** `installed_flow_mod` */
    method InstalledFlowMod(k: Key, x: Content) returns (m: FlowMod)
      requires k in installed
      modifies this`installed
      ensures View() == old(SetContent(View(), k, x)) && m == old(ModMsg(k, installed[k].content, x))
    {
      if installed[k].content.cookie != x.cookie {
        m := Add(k, x);
      } else {
        m := ModifyStrict(k, x.actions);
      }
      installed := installed[k := installed[k].(content := x)];
    }

    /** `update_installed_flows_by_track` on a deleted flow. */
    method UpdateDeleted() returns (msgs: seq<FlowMod>)
      requires Pointers(View()) && tracked != []
      modifies this`flows, this`linked, this`installed, this`tracked
      ensures (View(), msgs) == old(HeadDeleted(View())) && |tracked| < |old(tracked)|
    {
      msgs := [];
      var d := tracked[0];
      tracked := tracked[1..];
      if d in linked {
        var k := flows[d].key;
        assert installed[k].refs != [] ==> installed[k].refs[0] in flows;
        ghost var was := installed[k].refs;
        var wasActive := UnlinkInstalledToDesired(d);
        if installed[k].refs == [] {
          msgs := [DeleteStrict(k)];
          installed := installed - {k};
        } else if wasActive {
          assert installed[k].refs[0] == was[OldIndex(was, d, 0)];
          var m := InstalledFlowMod(k, flows[installed[k].refs[0]].content);
          msgs := [m];
        }
      }
      flows := flows - {d};
    }

    /** `update_installed_flows_by_track` on an added or modified flow. */
    method UpdateAdded() returns (msgs: seq<FlowMod>)
      requires Pointers(View()) && tracked != []
      requires tracked[0] !in linked && flows[tracked[0]].key in installed ==> CanLink(View(), tracked[0])
      modifies this`linked, this`installed, this`tracked
      ensures (View(), msgs) == old(HeadAdded(View())) && |tracked| < |old(tracked)|
    {
      msgs := [];
      var d := tracked[0];
      var f := flows[d];
      tracked := tracked[1..];
      if f.key !in installed {
        msgs := [Add(f.key, f.content)];
        installed := installed[f.key := Installed(f.content, [])];
        var _ := LinkInstalledToDesired(d);
      } else if installed[f.key].refs != [] && installed[f.key].refs[0] == d {
        var m := InstalledFlowMod(f.key, f.content);
        msgs := [m];
      } else if d !in linked {
        var active := LinkInstalledToDesired(d);
        if active {
          var m := InstalledFlowMod(f.key, f.content);
          msgs := [m];
        }
      }
    }

    /** One turn of the loop of `update_installed_flows_by_track`. */
    method UpdateHead() returns (msgs: seq<FlowMod>)
      requires Inv(View()) && changeTracked && tracked != []
      modifies this`flows, this`linked, this`installed, this`tracked
      ensures Inv(View()) && Effect(old(View()), msgs, View()) && |tracked| < old(|tracked|)
    {
      if tracked[0] !in live {
        HeadDeletedOk(View());
        msgs := UpdateDeleted();
      } else {
        HeadAddedOk(View());
        msgs := UpdateAdded();
      }
    }

    /** `replace_installed_to_desired`, and both flows leave the tracked list.
        The flow `f` is never linked here, see `MergeLinks`. */
    method MergePair(d: Id, f: Id)
      requires d in flows && f in flows && flows[d].key in installed && d in installed[flows[d].key].refs
      modifies this`flows, this`linked, this`installed, this`tracked
      ensures View() == old(Merged(View(), d, f))
    {
      var k := flows[d].key;
      var rs := installed[k].refs;
      installed := installed[k := installed[k].(refs := rs[IndexOf(rs, d) := f])];
      linked := linked - {d} + {f};
      tracked := Without(tracked, d);
      flows := flows - {d};
      tracked := Without(tracked, f);
    }

    method MergeAt(d: Id, i: nat, ghost deleted: set<Id>)
      requires Inv(View()) && changeTracked && i < |tracked| && Mergeable(View(), d, tracked[i])
      requires Scanned(View(), i, deleted) && d in deleted
      modifies this`flows, this`linked, this`installed, this`tracked
      ensures 1 <= i && Turned(old(View()), i, View(), i - 1, deleted - {d})
    {
      MergeStep(View(), d, i, deleted);
      MergePair(d, tracked[i]);
    }

    /** `deleted_flow_lookup` */
    method FindDeleted(f: Id, deleted: set<Id>) returns (r: Option<Id>)
      requires f in flows && deleted !! live
      ensures r.Some? ==> r.value in deleted && Mergeable(View(), r.value, f)
      ensures r.None? ==> forall d | d in deleted :: !Mergeable(View(), d, f)
    {
      r := None;
      if f in live {
        if d :| d in deleted && d in flows && flows[d] == flows[f] && flows[d].key in installed
                && installed[flows[d].key].content == flows[f].content {
          r := Some(d);
        }
      }
    }

    /** One turn of the loop of `merge_tracked_flows`. */
    method MergeNext(i: nat, deleted: set<Id>) returns (i': nat, deleted': set<Id>)
      requires Inv(View()) && changeTracked && i < |tracked| && Scanned(View(), i, deleted)
      modifies this`flows, this`linked, this`installed, this`tracked
      ensures Turned(old(View()), i, View(), i', deleted')
    {
      var f := tracked[i];
      assert f in tracked;
      var r := FindDeleted(f, deleted);
      if r.Some? {
        MergeAt(r.value, i, deleted);
        i', deleted' := i - 1, deleted - {r.value};
      } else {
        SkipTurn(View(), i, deleted);
        i', deleted' := i + 1, if f in live then deleted else deleted + {f};
      }
    }

    /** `merge_tracked_flows`: every deletion that a later identical addition
        cancels is gone, and nothing a put can see has changed. */
    method MergeTrackedFlows()
      requires Inv(View()) && changeTracked
      modifies this`flows, this`linked, this`installed, this`tracked
      ensures Inv(View()) && SameToPut(old(View()), View()) && NoPair(View(), tracked)
    {
      var deleted: set<Id> := {};
      var i: nat := 0;
      while i < |tracked|
        invariant Scanned(View(), i, deleted)
        invariant Inv(View()) && SameToPut(old(View()), View())
        decreases |tracked| - i
      {
        ghost var c1 := View();
        i, deleted := MergeNext(i, deleted);
        SameToPutTrans(old(View()), c1, View());
      }
      assert tracked[..i] == tracked;
    }

    /** `update_installed_flows_by_track` */
    method UpdateByTrack() returns (msgs: seq<FlowMod>)
      requires Inv(View()) && changeTracked
      modifies this`flows, this`linked, this`installed, this`tracked
      ensures Synced(View()) && Effect(old(View()), msgs, View())
    {
      MergeTrackedFlows();
      EffectNone(old(View()), View());
      msgs := [];
      while tracked != []
        invariant Inv(View()) && Effect(old(View()), msgs, View())
        decreases |tracked|
      {
        ghost var c1 := View();
        var more := UpdateHead();
        EffectTrans(old(View()), msgs, c1, more, View());
        msgs := msgs + more;
      }
    }

    /** The first loop of `update_installed_flows_by_compare`, on an installed
        flow for which `d` is desired. */
    method AdoptFlow(k: Key, d: Id) returns (msgs: seq<FlowMod>)
      requires Comparing(View()) && k in installed && d in live && flows[d].key == k
      modifies this`linked, this`installed
      ensures View() == old(Adopt(View(), k, d))
      ensures msgs == old(if installed[k].content == flows[d].content then []
                          else [ModMsg(k, installed[k].content, flows[d].content)])
    {
      msgs := [];
      UnlinkAllOk(View(), k);
      assert RefsOk(flows, linked, k, installed[k].refs);
      UnlinkAllRefs(k);
      if installed[k].content != flows[d].content {
        var m := InstalledFlowMod(k, flows[d].content);
        msgs := [m];
      }
      var _ := LinkInstalledToDesired(d);
    }

    /** One turn of the first loop of `update_installed_flows_by_compare`: the
        installed flow of `k` takes on any desired flow of its key, or goes. */
    method CompareInstalledFlow(k: Key) returns (msgs: seq<FlowMod>)
      requires Comparing(View()) && k in installed
      modifies this`linked, this`installed
      ensures Comparing(View()) && Effect(old(View()), msgs, View())
      ensures k in installed ==> Settled(View(), k)
      ensures installed.Keys <= old(installed).Keys <= installed.Keys + {k}
      ensures forall k' | k' in installed && k' != k :: installed[k'] == old(installed)[k']
    {
      if d :| d in live && flows[d].key == k {
        AdoptInv(View(), k, d);
        msgs := AdoptFlow(k, d);
      } else {
        DiscardInv(View(), k);
        assert RefsOk(flows, linked, k, installed[k].refs);
        UnlinkAllRefs(k);
        installed := installed - {k};
        msgs := [DeleteStrict(k)];
      }
    }

    method CompareInstalledFlows() returns (msgs: seq<FlowMod>)
      requires Comparing(View())
      modifies this`linked, this`installed
      ensures Comparing(View()) && Effect(old(View()), msgs, View())
      ensures AllSettled(View())
    {
      msgs := [];
      EffectNone(View(), View());
      var todo := installed.Keys;
      while todo != {}
        invariant Comparing(View()) && Effect(old(View()), msgs, View())
        invariant todo <= installed.Keys
        invariant forall k | k in installed && k !in todo :: Settled(View(), k)
        decreases todo
      {
        var k :| k in todo;
        ghost var c1 := View();
        var more := CompareInstalledFlow(k);
        EffectTrans(old(View()), msgs, c1, more, View());
        msgs := msgs + more;
        todo := todo - {k};
        forall k' | k' in installed && k' !in todo ensures Settled(View(), k') {
          if k' != k { assert Settled(c1, k'); }
        }
      }
    }

    /** One turn of the second loop of `update_installed_flows_by_compare`. */
    method CompareDesiredFlow(d: Id) returns (msgs: seq<FlowMod>)
      requires d in flows
      requires if flows[d].key in installed then d in linked || CanLink(View(), d)
               else CanLink(NewInstalled(View(), d), d)
      modifies this`linked, this`installed
      ensures (View(), msgs) == old(Compared(View(), d))
    {
      msgs := [];
      var f := flows[d];
      if f.key !in installed {
        msgs := [Add(f.key, f.content)];
        installed := installed[f.key := Installed(f.content, [])];
        var _ := LinkInstalledToDesired(d);
      } else if d !in linked {
        var active := LinkInstalledToDesired(d);
        if active {
          var m := InstalledFlowMod(f.key, f.content);
          msgs := [m];
        }
      }
    }

    method CompareDesiredFlows() returns (msgs: seq<FlowMod>)
      requires Comparing(View()) && AllSettled(View())
      modifies this`linked, this`installed
      ensures Comparing(View()) && Effect(old(View()), msgs, View())
      ensures live <= linked && AllSettled(View())
    {
      msgs := [];
      EffectNone(View(), View());
      var todo := live;
      while todo != {}
        invariant Comparing(View()) && Effect(old(View()), msgs, View())
        invariant todo <= live <= linked + todo
        invariant AllSettled(View())
        decreases todo
      {
        var d :| d in todo;
        ghost var c1 := View();
        ComparedSettles(c1, d);
        var more := CompareDesiredFlow(d);
        EffectTrans(old(View()), msgs, c1, more, View());
        msgs := msgs + more;
        todo := todo - {d};
      }
    }

    /** `update_installed_flows_by_compare` */
    method UpdateByCompare() returns (msgs: seq<FlowMod>)
      requires Inv(View()) && !changeTracked
      modifies this`linked, this`installed
      ensures Synced(View().(changeTracked := true)) && Effect(old(View()), msgs, View())
    {
      var more;
      msgs := CompareInstalledFlows();
      ghost var c1 := View();
      more := CompareDesiredFlows();
      EffectTrans(old(View()), msgs, c1, more, View());
      msgs := msgs + more;
      ComparedSynced(View());
    }

    /** The part of `ofctrl_put` that updates one flow table: by tracked changes
        or by full comparison. Either way the flow-mods take a switch that
        shows the old installed flows to one that realises the desired flows. */
    method PutFlows() returns (msgs: seq<FlowMod>)
      requires Valid()
      modifies this
      ensures Valid() && Synced(View())
      ensures Effect(old(View()), msgs, View())
      ensures refs == old(refs) && byUuid == old(byUuid)
    {
      if changeTracked {
        msgs := UpdateByTrack();
      } else {
        msgs := UpdateByCompare();
        changeTracked := true;
      }
    }
  }
}
