/** How a put brings the installed table to the desired one: the steps of
    `update_installed_flows_by_track`, `merge_tracked_flows` and
    `update_installed_flows_by_compare` in controller/ofctrl.c. */
module FlowSync {
  import opened Lists
  import opened FlowModel
  import opened FlowSteps

  lemma {:induction false} ApplyAllConcat(sw: Switch, a: seq<FlowMod>, b: seq<FlowMod>)
    ensures ApplyAll(sw, a + b) == ApplyAll(ApplyAll(sw, a), b)
  {
    if b == [] {
      assert a + b == a;
    } else {
      var b' := b[..|b| - 1];
      assert a + b == (a + b') + [b[|b| - 1]];
      ApplyAllPush(sw, a + b', b[|b| - 1]);
      ApplyAllConcat(sw, a, b');
    }
  }

  /** The flow-mods `msgs` take the switch from the old installed contents to
      the new ones, touching only keys that are installed or desired. */
  ghost predicate Effect(c: Core, msgs: seq<FlowMod>, c': Core) {
    && SameDesired(c, c')
    && ApplyAll(Contents(c.installed), msgs) == Contents(c'.installed)
    && c'.installed.Keys <= c.installed.Keys + DesiredKeys(c)
    && forall m | m in msgs :: !m.DeleteAll? && m.key in c.installed.Keys + DesiredKeys(c)
  }

  lemma EffectTrans(a: Core, m: seq<FlowMod>, b: Core, n: seq<FlowMod>, c: Core)
    requires Effect(a, m, b) && Effect(b, n, c)
    ensures Effect(a, m + n, c)
  {
    ApplyAllConcat(Contents(a.installed), m, n);
    assert DesiredKeys(b) == DesiredKeys(a);
  }

  ghost predicate Msg1(c: Core, m: FlowMod, c': Core) {
    && SameDesired(c, c')
    && !m.DeleteAll? && m.key in c.installed.Keys + DesiredKeys(c)
    && c'.installed.Keys <= c.installed.Keys + DesiredKeys(c)
    && Apply(Contents(c.installed), m) == Contents(c'.installed)
  }

  lemma EffectOne(c: Core, m: FlowMod, c': Core)
    requires Msg1(c, m, c')
    ensures Effect(c, [m], c')
  {
    assert [m][..0] == [];
    assert ApplyAll(Contents(c.installed), [m]) == Apply(ApplyAll(Contents(c.installed), []), m);
  }

  lemma EffectNone(c: Core, c': Core)
    requires SameDesired(c, c') && Contents(c'.installed) == Contents(c.installed)
    ensures Effect(c, [], c')
  {
    assert c'.installed.Keys == Contents(c'.installed).Keys;
    assert c.installed.Keys == Contents(c.installed).Keys;
  }

  /** `installed_flow_mod` on the installed table. */
  ghost function SetContent(c: Core, k: Key, x: Content): Core
    requires k in c.installed
  {
    c.(installed := c.installed[k := c.installed[k].(content := x)])
  }

  lemma SetContentEffect(c: Core, k: Key, x: Content)
    requires k in c.installed && WellFormed(c)
    ensures Effect(c, [ModMsg(k, c.installed[k].content, x)], SetContent(c, k, x))
    ensures WellFormed(SetContent(c, k, x))
  {
    var c' := SetContent(c, k, x);
    ModMsgReplaces(Contents(c.installed), k, x);
    assert Contents(c'.installed) == Contents(c.installed)[k := x];
    EffectOne(c, ModMsg(k, c.installed[k].content, x), c');
    forall k' | k' in c'.installed ensures RefsOk(c'.flows, c'.linked, k', c'.installed[k'].refs) {
      assert RefsOk(c.flows, c.linked, k', c.installed[k'].refs);
    }
  }

  /** `installed_flow_del` and `hmap_remove` of an installed flow without refs. */
  ghost function DropInstalled(c: Core, k: Key): Core {
    c.(installed := c.installed - {k})
  }

  lemma DropInstalledEffect(c: Core, k: Key)
    requires WellFormed(c) && k in c.installed && c.installed[k].refs == []
    ensures Effect(c, [DeleteStrict(k)], DropInstalled(c, k))
    ensures WellFormed(DropInstalled(c, k))
  {
    var c' := DropInstalled(c, k);
    assert RefsOk(c.flows, c.linked, k, c.installed[k].refs);
    assert Contents(c'.installed) == Contents(c.installed) - {k};
    EffectOne(c, DeleteStrict(k), c');
    forall k' | k' in c'.installed ensures RefsOk(c'.flows, c'.linked, k', c'.installed[k'].refs) {
      assert RefsOk(c.flows, c.linked, k', c.installed[k'].refs);
    }
  }

  /** `installed_flow_add` and `installed_flow_dup`, before linking. */
  ghost function NewInstalled(c: Core, d: Id): Core
    requires d in c.flows
  {
    c.(installed := c.installed[c.flows[d].key := Installed(c.flows[d].content, [])])
  }

  lemma NewInstalledEffect(c: Core, d: Id)
    requires WellFormed(c) && d in c.live && c.flows[d].key !in c.installed
    ensures Effect(c, [Add(c.flows[d].key, c.flows[d].content)], NewInstalled(c, d))
    ensures WellFormed(NewInstalled(c, d)) && CanLink(NewInstalled(c, d), d)
  {
    var c' := NewInstalled(c, d);
    var k := c.flows[d].key;
    assert Contents(c'.installed) == Contents(c.installed)[k := c.flows[d].content];
    EffectOne(c, Add(k, c.flows[d].content), c');
    forall k' | k' in c'.installed ensures RefsOk(c'.flows, c'.linked, k', c'.installed[k'].refs) {
      if k' != k { assert RefsOk(c.flows, c.linked, k', c.installed[k'].refs); }
    }
  }

  // ------------------------------------------- update_installed_flows_by_track

  /** When its turn comes, no conjunctive flow is in the way of a new
      conjunctive one: `flow_is_preferred` never sees two. */
  lemma TrackedAddCanLink(c: Core)
    requires Inv(c) && c.changeTracked && c.tracked != [] && c.tracked[0] in c.live
    requires c.tracked[0] !in c.linked && c.flows[c.tracked[0]].key in c.installed
    ensures CanLink(c, c.tracked[0])
  {
    var d := c.tracked[0];
    var k := c.flows[d].key;
    assert RefsOk(c.flows, c.linked, k, c.installed[k].refs);
    if Conj(c.flows, d) {
      forall e | e in c.installed[k].refs ensures !Conj(c.flows, e) {
        if e !in c.live {
          var j :| 0 <= j < |c.tracked| && c.tracked[j] == e;
          assert !Overtakes(c, c.tracked[0], c.tracked[j]);
        }
      }
    }
  }

  /** Installed flows stay right when the head of the tracked list is taken
      off, except perhaps the one of `k`. */
  lemma InstalledAfterHead(c: Core, c': Core, k: Key)
    requires WellFormed(c) && AllInstalledOk(c.flows, c.tracked, c.installed)
    requires c.tracked != [] && c.flows[c.tracked[0]].key == k && c'.tracked == c.tracked[1..]
    requires forall d | d in c.linked && c.flows[d].key != k :: d in c'.flows && c'.flows[d] == c.flows[d]
    requires forall k' | k' in c'.installed && k' != k :: k' in c.installed && c'.installed[k'] == c.installed[k']
    requires k in c'.installed ==> InstalledOk(c'.flows, c'.tracked, c'.installed[k])
    ensures AllInstalledOk(c'.flows, c'.tracked, c'.installed)
  {
    forall k' | k' in c'.installed ensures InstalledOk(c'.flows, c'.tracked, c'.installed[k']) {
      if k' != k {
        var i := c.installed[k'];
        assert InstalledOk(c.flows, c.tracked, i) && RefsOk(c.flows, c.linked, k', i.refs);
        TailNoDup(c.tracked);
        forall e | e in i.refs ensures Conj(c'.flows, e) <==> Conj(c.flows, e) {
        }
      }
    }
  }

  lemma HeadOrdered(c: Core, c': Core)
    requires NoDup(c.tracked) && Ordered(c) && c.tracked != [] && c'.tracked == c.tracked[1..]
    requires forall a, b | a in c'.tracked && b in c'.tracked && Overtakes(c', a, b) :: Overtakes(c, a, b)
    ensures Ordered(c')
  {
    forall i, j | 0 <= i < j < |c'.tracked| ensures !Overtakes(c', c'.tracked[i], c'.tracked[j]) {
      assert c'.tracked[i] == c.tracked[i + 1] && c'.tracked[j] == c.tracked[j + 1];
      assert c'.tracked[i] in c'.tracked && c'.tracked[j] in c'.tracked;
    }
  }

  /** The head of the tracked list is taken off. */
  ghost function Popped(c: Core): Core
    requires c.tracked != []
  {
    c.(tracked := c.tracked[1..])
  }

  lemma PoppedOk(c: Core)
    requires WellFormed(c) && c.tracked != []
    ensures WellFormed(Popped(c)) && Effect(c, [], Popped(c)) && c.tracked[0] !in c.tracked[1..]
  {
    TailNoDup(c.tracked);
    EffectNone(c, Popped(c));
  }

  lemma TracksAfterDelete(c: Core, c': Core)
    requires Tracks(c) && NoDup(c.tracked) && c.tracked != [] && c.tracked[0] !in c.live
    requires c'.tracked == c.tracked[1..] && c'.live == c.live && c.live <= c.flows.Keys
    requires c'.linked == c.linked - {c.tracked[0]} && c'.flows == c.flows - {c.tracked[0]}
    ensures Tracks(c')
  {
    TailNoDup(c.tracked);
  }

  /** The invariant after a deleted flow `d` at the head has been dealt with. */
  lemma DeleteStepInv(c: Core, c': Core)
    requires Inv(c) && c.changeTracked && c.tracked != [] && c.tracked[0] !in c.live
    requires WellFormed(c') && c'.changeTracked && c'.tracked == c.tracked[1..] && c'.live == c.live
    requires c'.linked == c.linked - {c.tracked[0]} && c'.flows == c.flows - {c.tracked[0]}
    requires forall k | k in c'.installed && k != c.flows[c.tracked[0]].key ::
      k in c.installed && c'.installed[k] == c.installed[k]
    requires c.flows[c.tracked[0]].key in c'.installed ==>
      InstalledOk(c'.flows, c'.tracked, c'.installed[c.flows[c.tracked[0]].key])
    ensures Inv(c')
  {
    assert Tracks(c') by { TracksAfterDelete(c, c'); }
    assert AllInstalledOk(c'.flows, c'.tracked, c'.installed) by {
      InstalledAfterHead(c, c', c.flows[c.tracked[0]].key);
    }
    assert Ordered(c') by { HeadOrdered(c, c'); }
  }

  /** The invariant after an added or modified flow `d` at the head has been
      dealt with. */
  lemma AddStepInv(c: Core, c': Core)
    requires Inv(c) && c.changeTracked && c.tracked != [] && c.tracked[0] in c.live
    requires WellFormed(c') && c'.changeTracked && c'.tracked == c.tracked[1..] && c'.live == c.live
    requires c'.linked == c.linked + {c.tracked[0]} && c'.flows == c.flows
    requires forall k | k in c'.installed && k != c.flows[c.tracked[0]].key ::
      k in c.installed && c'.installed[k] == c.installed[k]
    requires c.flows[c.tracked[0]].key in c'.installed ==>
      InstalledOk(c'.flows, c'.tracked, c'.installed[c.flows[c.tracked[0]].key])
    ensures Inv(c')
  {
    assert Tracks(c') by { TailNoDup(c.tracked); }
    assert AllInstalledOk(c'.flows, c'.tracked, c'.installed) by {
      InstalledAfterHead(c, c', c.flows[c.tracked[0]].key);
    }
    assert Ordered(c') by { HeadOrdered(c, c'); }
  }

  // A deleted flow at the head of the tracked list.

  lemma UnlinkHead(c: Core) returns (c1: Core)
    requires Inv(c) && c.changeTracked && c.tracked != [] && c.tracked[0] !in c.live
    ensures var d := c.tracked[0];
      var k := c.flows[d].key;
      && d in c.linked && k in c.installed
      && c1 == Unlink(Popped(c), d)
      && WellFormed(c1) && Effect(c, [], c1) && d !in c1.tracked
      && Sorted(c1.flows, c1.installed[k].refs) && AtMostOneConj(c1.flows, c1.installed[k].refs)
      && d !in c1.installed[k].refs
      && c.installed[k].refs != []
      && (c.installed[k].refs[0] != d ==>
            && c1.installed[k].refs != [] && c1.installed[k].refs[0] == c.installed[k].refs[0]
            && (c1.installed[k].refs[0] !in c1.tracked ==>
                  c1.installed[k].content == c.flows[c1.installed[k].refs[0]].content))
  {
    var d := c.tracked[0];
    var k := c.flows[d].key;
    var i := c.installed[k];
    PoppedOk(c);
    TailNoDup(c.tracked);
    UnlinkOk(Popped(c), d);
    c1 := Unlink(Popped(c), d);
    EffectNone(c, c1);
    assert RefsOk(c.flows, c.linked, k, i.refs) && InstalledOk(c.flows, c.tracked, i);
    WithoutSorted(c.flows, i.refs, d);
    WithoutNoDup(i.refs, d);
  }

  lemma InstalledWithout(flows: map<Id, Flow>, tracked: seq<Id>, i: Installed, d: Id)
    requires InstalledOk(flows, tracked, i) && d !in i.refs
    ensures InstalledOk(flows - {d}, tracked, i)
  {
    assert forall e | e in i.refs :: e in flows - {d};
    assert forall e | e in i.refs :: Conj(flows - {d}, e) <==> Conj(flows, e);
  }

  lemma DestroyEffect(c: Core, msgs: seq<FlowMod>, c2: Core, d: Id)
    requires Effect(c, msgs, c2) && WellFormed(c2) && d !in c2.linked && d !in c2.live && d !in c2.tracked
    ensures WellFormed(Destroy(c2, d)) && Effect(c, msgs, Destroy(c2, d))
  {
    DestroyOk(c2, d);
    EffectNone(c2, Destroy(c2, d));
    EffectTrans(c, msgs, c2, [], Destroy(c2, d));
    assert msgs + [] == msgs;
  }

  lemma EffectThen(c: Core, c1: Core, msgs: seq<FlowMod>, c2: Core)
    requires Effect(c, [], c1) && Effect(c1, msgs, c2)
    ensures Effect(c, msgs, c2)
  {
    EffectTrans(c, [], c1, msgs, c2);
    assert [] + msgs == msgs;
  }

  /** The deleted flow at the head, once its installed flow is right. */
  lemma FinishDelete(c: Core, msgs: seq<FlowMod>, c2: Core)
    requires Inv(c) && c.changeTracked && c.tracked != [] && c.tracked[0] !in c.live
    requires WellFormed(c2) && Effect(c, msgs, c2) && c.tracked[0] !in c2.tracked
    requires c2.changeTracked && c2.tracked == c.tracked[1..] && c2.live == c.live && c2.flows == c.flows
    requires c2.linked == c.linked - {c.tracked[0]}
    requires forall k | k in c2.installed && k != c.flows[c.tracked[0]].key ::
      k in c.installed && c2.installed[k] == c.installed[k]
    requires var k := c.flows[c.tracked[0]].key;
      k in c2.installed ==> c.tracked[0] !in c2.installed[k].refs && InstalledOk(c2.flows, c2.tracked, c2.installed[k])
    ensures Inv(Destroy(c2, c.tracked[0])) && Effect(c, msgs, Destroy(c2, c.tracked[0]))
  {
    var d := c.tracked[0];
    var k := c.flows[d].key;
    DestroyEffect(c, msgs, c2, d);
    if k in c2.installed {
      InstalledWithout(c2.flows, c2.tracked, c2.installed[k], d);
    }
    DeleteStepInv(c, Destroy(c2, d));
  }

  /** Its installed flow has no other desired flow: it is deleted. */
  lemma DeleteLast(c: Core)
    requires Inv(c) && c.changeTracked && c.tracked != [] && c.tracked[0] !in c.live
    requires var d := c.tracked[0]; d in c.linked && Unlink(Popped(c), d).installed[c.flows[d].key].refs == []
    ensures var d := c.tracked[0];
      var k := c.flows[d].key;
      var c2 := DropInstalled(Unlink(Popped(c), d), k);
      d !in c2.tracked && Inv(Destroy(c2, d)) && Effect(c, [DeleteStrict(k)], Destroy(c2, d))
  {
    var d := c.tracked[0];
    var k := c.flows[d].key;
    var c1 := UnlinkHead(c);
    var c2 := DropInstalled(c1, k);
    DropInstalledEffect(c1, k);
    EffectThen(c, c1, [DeleteStrict(k)], c2);
    FinishDelete(c, [DeleteStrict(k)], c2);
  }

  /** It was the active flow: the next one takes its place on the switch. */
  lemma DeleteActive(c: Core)
    requires Inv(c) && c.changeTracked && c.tracked != [] && c.tracked[0] !in c.live
    requires var d := c.tracked[0];
      && d in c.linked && c.installed[c.flows[d].key].refs[0] == d
      && var refs := Unlink(Popped(c), d).installed[c.flows[d].key].refs;
         refs != [] && refs[0] in c.flows
    ensures var d := c.tracked[0];
      var k := c.flows[d].key;
      var c1 := Unlink(Popped(c), d);
      var x := c.flows[c1.installed[k].refs[0]].content;
      var c2 := SetContent(c1, k, x);
      && d !in c2.tracked
      && Inv(Destroy(c2, d)) && Effect(c, [ModMsg(k, c.installed[k].content, x)], Destroy(c2, d))
  {
    var d := c.tracked[0];
    var k := c.flows[d].key;
    var c1 := UnlinkHead(c);
    var x := c.flows[c1.installed[k].refs[0]].content;
    var m := ModMsg(k, c.installed[k].content, x);
    var c2 := SetContent(c1, k, x);
    SetContentEffect(c1, k, x);
    EffectThen(c, c1, [m], c2);
    FinishDelete(c, [m], c2);
  }

  /** Another flow is active: the switch is not touched. */
  lemma DeletePassive(c: Core)
    requires Inv(c) && c.changeTracked && c.tracked != [] && c.tracked[0] !in c.live
    requires var d := c.tracked[0]; d in c.linked && c.installed[c.flows[d].key].refs[0] != d
    ensures var d := c.tracked[0];
      var c1 := Unlink(Popped(c), d);
      d !in c1.tracked && Inv(Destroy(c1, d)) && Effect(c, [], Destroy(c1, d))
  {
    var c1 := UnlinkHead(c);
    FinishDelete(c, [], c1);
  }

  // An added or modified flow at the head of the tracked list.

  lemma NewLinked(c: Core, d: Id)
    requires WellFormed(c) && d in c.live && d in c.flows && d !in c.linked && c.flows[d].key !in c.installed
    ensures var c2 := NewInstalled(c, d);
      && CanLink(c2, d) && WellFormed(Link(c2, d))
      && Effect(c, [Add(c.flows[d].key, c.flows[d].content)], Link(c2, d))
  {
    var m := Add(c.flows[d].key, c.flows[d].content);
    NewInstalledEffect(c, d);
    var c2 := NewInstalled(c, d);
    LinkOk(c2, d);
    EffectNone(c2, Link(c2, d));
    EffectTrans(c, [m], c2, [], Link(c2, d));
    assert [m] + [] == [m];
  }

  lemma AddNew(c: Core)
    requires Inv(c) && c.changeTracked && c.tracked != [] && c.tracked[0] in c.live
    requires c.flows[c.tracked[0]].key !in c.installed
    ensures var d := c.tracked[0];
      var c2 := NewInstalled(Popped(c), d);
      && CanLink(c2, d) && Inv(Link(c2, d))
      && Effect(c, [Add(c.flows[d].key, c.flows[d].content)], Link(c2, d))
  {
    var d := c.tracked[0];
    PoppedOk(c);
    NewLinked(Popped(c), d);
    var c' := Link(NewInstalled(Popped(c), d), d);
    EffectThen(c, Popped(c), [Add(c.flows[d].key, c.flows[d].content)], c');
    assert Insert(c.flows, [], d) == [d];
    AddStepInv(c, c');
  }

  /** The installed flow is the one of `d`, so `d` was modified. */
  lemma ModifyActive(c: Core)
    requires Inv(c) && c.changeTracked && c.tracked != [] && c.tracked[0] in c.live
    requires var d := c.tracked[0];
      && c.flows[d].key in c.installed
      && c.installed[c.flows[d].key].refs != [] && c.installed[c.flows[d].key].refs[0] == d
    ensures var d := c.tracked[0];
      var f := c.flows[d];
      var c' := SetContent(Popped(c), f.key, f.content);
      Inv(c') && Effect(c, [ModMsg(f.key, c.installed[f.key].content, f.content)], c')
  {
    var d := c.tracked[0];
    var f := c.flows[d];
    var m := ModMsg(f.key, c.installed[f.key].content, f.content);
    PoppedOk(c);
    var c' := SetContent(Popped(c), f.key, f.content);
    SetContentEffect(Popped(c), f.key, f.content);
    EffectThen(c, Popped(c), [m], c');
    assert RefsOk(c.flows, c.linked, f.key, c.installed[f.key].refs);
    assert InstalledOk(c.flows, c.tracked, c.installed[f.key]);
    AddStepInv(c, c');
  }

  lemma LinkLeaves(c: Core, d: Id)
    requires CanLink(c, d)
    ensures var c' := Link(c, d);
      forall k | k in c'.installed && k != c.flows[d].key :: k in c.installed && c'.installed[k] == c.installed[k]
  {
  }

  lemma LinkHead(c: Core) returns (c2: Core)
    requires Inv(c) && c.changeTracked && c.tracked != [] && c.tracked[0] in c.live && c.tracked[0] !in c.linked
    requires c.flows[c.tracked[0]].key in c.installed
    ensures var d := c.tracked[0];
      var k := c.flows[d].key;
      && CanLink(Popped(c), d) && c2 == Link(Popped(c), d)
      && WellFormed(c2) && Effect(c, [], c2) && d !in c2.tracked
      && var i := c2.installed[k];
      && i.refs != [] && Sorted(c2.flows, i.refs) && AtMostOneConj(c2.flows, i.refs)
      && (i.refs[0] != d ==> InstalledOk(c2.flows, c2.tracked, i))
  {
    var d := c.tracked[0];
    var k := c.flows[d].key;
    PoppedOk(c);
    TailNoDup(c.tracked);
    TrackedAddCanLink(c);
    LinkOk(Popped(c), d);
    c2 := Link(Popped(c), d);
    EffectNone(c, c2);
    assert RefsOk(c.flows, c.linked, k, c.installed[k].refs) && InstalledOk(c.flows, c.tracked, c.installed[k]);
    InsertSorted(c.flows, c.installed[k].refs, d);
  }

  /** A new flow whose key is installed is linked, and takes over because it
      became the active one. */
  lemma AddPreferred(c: Core)
    requires Inv(c) && c.changeTracked && c.tracked != [] && c.tracked[0] in c.live && c.tracked[0] !in c.linked
    requires c.flows[c.tracked[0]].key in c.installed
    requires CanLink(Popped(c), c.tracked[0])
    requires Link(Popped(c), c.tracked[0]).installed[c.flows[c.tracked[0]].key].refs[0] == c.tracked[0]
    ensures var f := c.flows[c.tracked[0]];
      var c3 := SetContent(Link(Popped(c), c.tracked[0]), f.key, f.content);
      Inv(c3) && Effect(c, [ModMsg(f.key, c.installed[f.key].content, f.content)], c3)
  {
    var f := c.flows[c.tracked[0]];
    var c2 := LinkHead(c);
    LinkLeaves(Popped(c), c.tracked[0]);
    var c3 := SetContent(c2, f.key, f.content);
    SetContentEffect(c2, f.key, f.content);
    EffectThen(c, c2, [ModMsg(f.key, c.installed[f.key].content, f.content)], c3);
    AddStepInv(c, c3);
  }

  /** A new flow whose key is installed is linked behind the active one. */
  lemma AddBehind(c: Core)
    requires Inv(c) && c.changeTracked && c.tracked != [] && c.tracked[0] in c.live && c.tracked[0] !in c.linked
    requires c.flows[c.tracked[0]].key in c.installed
    requires CanLink(Popped(c), c.tracked[0])
    requires Link(Popped(c), c.tracked[0]).installed[c.flows[c.tracked[0]].key].refs[0] != c.tracked[0]
    ensures var c2 := Link(Popped(c), c.tracked[0]); Inv(c2) && Effect(c, [], c2)
  {
    var c2 := LinkHead(c);
    LinkLeaves(Popped(c), c.tracked[0]);
    AddStepInv(c, c2);
  }

  /** A modified flow that is linked but not active leaves the switch alone. */
  lemma ModifyPassive(c: Core)
    requires Inv(c) && c.changeTracked && c.tracked != [] && c.tracked[0] in c.live && c.tracked[0] in c.linked
    requires c.installed[c.flows[c.tracked[0]].key].refs[0] != c.tracked[0]
    ensures Inv(Popped(c)) && Effect(c, [], Popped(c))
  {
    PoppedOk(c);
    TailNoDup(c.tracked);
    assert InstalledOk(c.flows, c.tracked, c.installed[c.flows[c.tracked[0]].key]);
    AddStepInv(c, Popped(c));
  }

  // The loop body of update_installed_flows_by_track, on both kinds of flow.

  /** What the loop body needs to follow its pointers. */
  ghost predicate Pointers(c: Core) {
    && LinksIn(c)
    && (forall k, d | k in c.installed && d in c.installed[k].refs :: d in c.flows)
    && (forall d | d in c.tracked :: d in c.flows)
  }

  lemma InvPointers(c: Core)
    requires WellFormed(c)
    ensures Pointers(c)
  {
    forall k, d | k in c.installed && d in c.installed[k].refs ensures d in c.flows {
      assert RefsOk(c.flows, c.linked, k, c.installed[k].refs);
    }
  }

  ghost function HeadDeleted(c: Core): (r: (Core, seq<FlowMod>))
    requires Pointers(c) && c.tracked != []
  {
    var d := c.tracked[0];
    var flows := c.flows - {d};
    if d !in c.linked then (Popped(c).(flows := flows), [])
    else
      var k := c.flows[d].key;
      var i := c.installed[k];
      var c1 := Unlink(Popped(c), d);
      var refs := c1.installed[k].refs;
      if refs == [] then (DropInstalled(c1, k).(flows := flows), [DeleteStrict(k)])
      else if i.refs[0] == d then
        assert refs[0] == i.refs[OldIndex(i.refs, d, 0)];
        var x := c.flows[refs[0]].content;
        (SetContent(c1, k, x).(flows := flows), [ModMsg(k, i.content, x)])
      else (c1.(flows := flows), [])
  }

  lemma HeadDeletedOk(c: Core)
    requires Inv(c) && c.changeTracked && c.tracked != [] && c.tracked[0] !in c.live
    ensures Pointers(c)
    ensures var r := HeadDeleted(c); Inv(r.0) && Effect(c, r.1, r.0)
  {
    InvPointers(c);
    var d := c.tracked[0];
    var k := c.flows[d].key;
    if Unlink(Popped(c), d).installed[k].refs == [] {
      DeleteLast(c);
    } else if c.installed[k].refs[0] == d {
      assert Pointers(c);
      DeleteActive(c);
    } else {
      DeletePassive(c);
    }
  }

  ghost function HeadAdded(c: Core): (r: (Core, seq<FlowMod>))
    requires Pointers(c) && c.tracked != []
    requires var d := c.tracked[0]; d !in c.linked && c.flows[d].key in c.installed ==> CanLink(c, d)
  {
    var d := c.tracked[0];
    var f := c.flows[d];
    var c1 := Popped(c);
    if f.key !in c.installed then
      (Link(NewInstalled(c1, d), d), [Add(f.key, f.content)])
    else
      var i := c.installed[f.key];
      if i.refs != [] && i.refs[0] == d then
        (SetContent(c1, f.key, f.content), [ModMsg(f.key, i.content, f.content)])
      else if d !in c.linked then
        var c2 := Link(c1, d);
        if c2.installed[f.key].refs[0] == d
        then (SetContent(c2, f.key, f.content), [ModMsg(f.key, i.content, f.content)])
        else (c2, [])
      else (c1, [])
  }

  lemma HeadAddedOk(c: Core)
    requires Inv(c) && c.changeTracked && c.tracked != [] && c.tracked[0] in c.live
    ensures Pointers(c)
    ensures var d := c.tracked[0]; d !in c.linked && c.flows[d].key in c.installed ==> CanLink(c, d)
    ensures var r := HeadAdded(c); Inv(r.0) && Effect(c, r.1, r.0)
  {
    InvPointers(c);
    var d := c.tracked[0];
    var k := c.flows[d].key;
    if k !in c.installed {
      AddNew(c);
    } else {
      if d !in c.linked { TrackedAddCanLink(c); }
      if c.installed[k].refs != [] && c.installed[k].refs[0] == d {
        ModifyActive(c);
      } else if d !in c.linked {
        assert CanLink(Popped(c), d);
        if Link(Popped(c), d).installed[k].refs[0] == d {
          AddPreferred(c);
        } else {
          AddBehind(c);
        }
      } else {
        assert InstalledOk(c.flows, c.tracked, c.installed[k]);
        ModifyPassive(c);
      }
    }
  }
}
