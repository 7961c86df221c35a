/** `merge_tracked_flows` and `update_installed_flows_by_compare` in
    controller/ofctrl.c, and what both update paths end in. */
module FlowMerge {
  import opened Lists
  import opened FlowModel
  import opened FlowSteps
  import opened FlowSync

  // --------------------------------------------------------- merge_tracked_flows

  /** `deleted_flow_lookup`: `d` was deleted, `f` is the same flow, and the
      switch shows exactly that flow. */
  predicate Mergeable(c: Core, d: Id, f: Id) {
    && d in c.flows && f in c.flows && d !in c.live && f in c.live
    && c.flows[d] == c.flows[f]
    && c.flows[d].key in c.installed
    && c.installed[c.flows[d].key].content == c.flows[f].content
  }

  /** The assert in `deleted_flow_lookup`: a deleted flow that is tracked is
      linked. And `f` is not: the other branch of `merge_tracked_flows` would
      need two conjunctive flows linked to one installed flow. */
  lemma MergeLinks(c: Core, d: Id, f: Id)
    requires Inv(c) && c.changeTracked && d in c.flows && d !in c.live && f in c.live && f in c.tracked
    requires c.flows[d] == c.flows[f]
    ensures d in c.linked && c.flows[d].key in c.installed && f !in c.linked && d in c.tracked && d != f
  {
    var k := c.flows[d].key;
    assert RefsOk(c.flows, c.linked, k, c.installed[k].refs);
    assert InstalledOk(c.flows, c.tracked, c.installed[k]);
    assert AtMostOneConj(c.flows, c.installed[k].refs);
    if f in c.linked { assert Conj(c.flows, d) && Conj(c.flows, f); }
  }

  /** `replace_installed_to_desired`, and both flows leave the tracked list. */
  ghost function Merged(c: Core, d: Id, f: Id): Core
    requires c.flows.Keys >= {d, f} && c.flows[d].key in c.installed && d in c.installed[c.flows[d].key].refs
  {
    var k := c.flows[d].key;
    var refs := c.installed[k].refs;
    c.(installed := c.installed[k := c.installed[k].(refs := refs[IndexOf(refs, d) := f])],
       linked := c.linked - {d} + {f},
       tracked := Without(Without(c.tracked, d), f),
       flows := c.flows - {d})
  }

  lemma ReplaceMembers(refs: seq<Id>, d: Id, f: Id)
    requires NoDup(refs) && d in refs && f !in refs
    ensures var r := refs[IndexOf(refs, d) := f];
      NoDup(r) && forall e :: e in r <==> e == f || (e in refs && e != d)
  {
    var p := IndexOf(refs, d);
    var r := refs[p := f];
    forall e | e in refs && e != d ensures e in r {
      var i :| 0 <= i < |refs| && refs[i] == e;
      assert r[i] == e;
    }
    assert r[p] == f;
  }

  lemma MergedLinks(c: Core, d: Id, f: Id)
    requires LinksOk(c.flows, c.linked, c.installed)
    requires d in c.linked && f !in c.linked && f in c.flows && c.flows[f].key == c.flows[d].key
    ensures d in c.installed[c.flows[d].key].refs
    ensures var c' := Merged(c, d, f); LinksOk(c'.flows, c'.linked, c'.installed)
  {
    var k := c.flows[d].key;
    var refs := c.installed[k].refs;
    assert RefsOk(c.flows, c.linked, k, refs);
    ReplaceMembers(refs, d, f);
    var c' := Merged(c, d, f);
    RelinkOk(c.flows, c.linked, c.installed, c'.linked, k, c'.installed[k]);
    LinksFrame(c.flows, c'.flows, c'.linked, c'.installed);
  }

  lemma MergedFlows(c: Core, d: Id, f: Id)
    requires WellFormed(c) && d in c.flows && d !in c.live && c.flows[d].key in c.installed
    requires f in c.flows && d in c.installed[c.flows[d].key].refs
    ensures var c' := Merged(c, d, f);
      && OneLiveConj(c'.flows, c'.live) && ListOk(c'.flows, c'.tracked) && Allocated(c'.flows, c'.nextId)
      && SameDesired(c, c') && Contents(c'.installed) == Contents(c.installed)
  {
    WithoutNoDup(c.tracked, d);
    WithoutNoDup(Without(c.tracked, d), f);
    var c' := Merged(c, d, f);
    assert forall e | e in c.live :: Conj(c'.flows, e) <==> Conj(c.flows, e);
  }

  lemma MergedWellFormed(c: Core, d: Id, f: Id)
    requires Inv(c) && c.changeTracked && f in c.tracked && Mergeable(c, d, f)
    ensures d in c.linked && d in c.installed[c.flows[d].key].refs
    ensures WellFormed(Merged(c, d, f)) && Contents(Merged(c, d, f).installed) == Contents(c.installed)
    ensures SameDesired(c, Merged(c, d, f))
  {
    MergeLinks(c, d, f);
    MergedLinks(c, d, f);
    MergedFlows(c, d, f);
  }

  lemma MergedInstalled(c: Core, d: Id, f: Id)
    requires Inv(c) && c.changeTracked && f in c.tracked && Mergeable(c, d, f)
    requires d in c.installed[c.flows[d].key].refs
    ensures var c' := Merged(c, d, f); AllInstalledOk(c'.flows, c'.tracked, c'.installed)
  {
    MergeLinks(c, d, f);
    var k := c.flows[d].key;
    var refs := c.installed[k].refs;
    var c' := Merged(c, d, f);
    WithoutNoDup(c.tracked, d);
    WithoutNoDup(Without(c.tracked, d), f);
    assert RefsOk(c.flows, c.linked, k, refs);
    forall k' | k' in c'.installed ensures InstalledOk(c'.flows, c'.tracked, c'.installed[k']) {
      var i := c.installed[k'];
      assert InstalledOk(c.flows, c.tracked, i) && RefsOk(c.flows, c.linked, k', i.refs);
      if k' == k {
        MergedRefs(c, d, f);
      } else {
        assert d !in i.refs && f !in i.refs;
        InstalledWithout(c.flows, c.tracked, i, d);
        assert i.refs[0] in i.refs;
      }
    }
  }

  /** Replacing a flow by one of the same content keeps an installed flow right. */
  lemma ReplacedOk(flows: map<Id, Flow>, flows': map<Id, Flow>, refs: seq<Id>, d: Id, f: Id)
    requires NoDup(refs) && d in refs && f !in refs && d in flows && f in flows'
    requires flows'[f].content == flows[d].content
    requires Sorted(flows, refs) && AtMostOneConj(flows, refs)
    requires forall e | e in refs && e != d :: e in flows' && flows'[e] == flows[e]
    ensures var r := refs[IndexOf(refs, d) := f]; Sorted(flows', r) && AtMostOneConj(flows', r)
  {
    var p := IndexOf(refs, d);
    var r := refs[p := f];
    ReplaceMembers(refs, d, f);
    forall i | 0 <= i < |r| ensures r[i] in flows' && RankOf(flows', r[i]) == RankOf(flows, refs[i]) {
      assert refs[i] in refs && r[i] in r;
    }
    forall a, b | a in r && b in r && Conj(flows', a) && Conj(flows', b) ensures a == b {
      var a', b' := if a == f then d else a, if b == f then d else b;
      assert a' in refs && b' in refs && Conj(flows, a') && Conj(flows, b');
    }
  }

  lemma MergedTracked(t: seq<Id>, d: Id, f: Id)
    requires NoDup(t)
    ensures forall e :: e in Without(Without(t, d), f) <==> e in t && e != d && e != f
  {
    WithoutNoDup(t, d);
    WithoutNoDup(Without(t, d), f);
  }

  lemma MergedRefs(c: Core, d: Id, f: Id)
    requires NoDup(c.tracked) && Mergeable(c, d, f) && f !in c.linked
    requires var i := c.installed[c.flows[d].key];
      d in i.refs && RefsOk(c.flows, c.linked, c.flows[d].key, i.refs) && InstalledOk(c.flows, c.tracked, i)
    ensures var c' := Merged(c, d, f); InstalledOk(c'.flows, c'.tracked, c'.installed[c.flows[d].key])
  {
    var refs := c.installed[c.flows[d].key].refs;
    MergedTracked(c.tracked, d, f);
    ReplacedOk(c.flows, c.flows - {d}, refs, d, f);
    if IndexOf(refs, d) != 0 { assert refs[0] in refs; }
  }

  lemma MergedOrdered(c: Core, d: Id, f: Id)
    requires NoDup(c.tracked) && Ordered(c) && Mergeable(c, d, f)
    requires d in c.installed[c.flows[d].key].refs
    ensures Ordered(Merged(c, d, f))
  {
    var c' := Merged(c, d, f);
    var mid := c'.(tracked := Without(c.tracked, d));
    WithoutNoDup(c.tracked, d);
    RemovalOrdered(c, mid, d);
    RemovalOrdered(mid, c', f);
  }

  /** No deleted flow of `t` can be cancelled against a later one. */
  ghost predicate NoPair(c: Core, t: seq<Id>) {
    forall i, j | 0 <= i < j < |t| :: !Mergeable(c, t[i], t[j])
  }

  ghost function DeletedIn(t: seq<Id>, live: set<Id>): set<Id> {
    set d | d in t && d !in live
  }

  lemma MergedNoPair(c: Core, d: Id, f: Id, t: seq<Id>)
    requires c.flows.Keys >= {d, f} && c.flows[d].key in c.installed && d in c.installed[c.flows[d].key].refs
    requires NoPair(c, t)
    ensures NoPair(Merged(c, d, f), Without(t, d))
  {
    var c', t' := Merged(c, d, f), Without(t, d);
    forall i, j | 0 <= i < j < |t'| ensures !Mergeable(c', t'[i], t'[j]) {
      OldIndexMonotone(t, d, i, j);
      var i', j' := OldIndex(t, d, i), OldIndex(t, d, j);
      assert !Mergeable(c, t[i'], t[j']);
    }
  }

  /** What is left of the part already looked at, once `d` in it and the flow
      behind it are merged. */
  lemma MergedPrefix(c: Core, d: Id, i: nat)
    requires i < |c.tracked| && NoDup(c.tracked) && d in c.tracked[..i]
    ensures var t := Without(Without(c.tracked, d), c.tracked[i]);
      |t| >= i - 1 && t[..i - 1] == Without(c.tracked[..i], d)
  {
    var f, t1 := c.tracked[i], Without(c.tracked, d);
    assert d in c.tracked && t1[..i - 1] == Without(c.tracked[..i], d) by { WithoutPrefix(c.tracked, d, i); }
    assert f !in t1[..i - 1] by {
      assert forall j | 0 <= j < i :: c.tracked[j] != f;
      WithoutNoDup(c.tracked[..i], d);
    }
    WithoutBehind(t1, f, i - 1);
  }

  lemma DeletedWithout(t: seq<Id>, d: Id, live: set<Id>)
    requires NoDup(t)
    ensures DeletedIn(Without(t, d), live) == DeletedIn(t, live) - {d}
  {
    WithoutNoDup(t, d);
  }

  /** The first `i` tracked flows were looked at: `deleted` are the deleted ones,
      and none can be merged with a later one. */
  ghost predicate Scanned(c: Core, i: nat, deleted: set<Id>) {
    i <= |c.tracked| && deleted == DeletedIn(c.tracked[..i], c.live) && NoPair(c, c.tracked[..i])
  }

  /** What a turn of the loop of `merge_tracked_flows` does: nothing a put can see,
      and less is left to scan. */
  ghost predicate Turned(c: Core, i: nat, c': Core, i': nat, deleted': set<Id>) {
    match c'
    case Core(_, _, _, tracked, _, _, _) =>
      && Inv(c') && SameToPut(c, c') && |tracked| - i' < |c.tracked| - i && Scanned(c', i', deleted')
  }

  lemma OneMoreTracked(c: Core, i: nat, deleted: set<Id>)
    requires Scanned(c, i, deleted) && i < |c.tracked|
    requires forall d | d in deleted :: !Mergeable(c, d, c.tracked[i])
    ensures Scanned(c, i + 1, if c.tracked[i] in c.live then deleted else deleted + {c.tracked[i]})
  {
    var t := c.tracked[..i + 1];
    assert t == c.tracked[..i] + [c.tracked[i]];
    forall j, k | 0 <= j < k < |t| ensures !Mergeable(c, t[j], t[k]) {
      if k < i {
        assert t[j] == c.tracked[..i][j] && t[k] == c.tracked[..i][k];
      } else {
        assert t[j] in c.tracked[..i];
      }
    }
  }

  lemma SkipTurn(c: Core, i: nat, deleted: set<Id>)
    requires Inv(c) && i < |c.tracked| && Scanned(c, i, deleted) && forall d | d in deleted ::
      !Mergeable(c, d, c.tracked[i])
    ensures Turned(c, i, c, i + 1, if c.tracked[i] in c.live then deleted else deleted + {c.tracked[i]})
  {
    OneMoreTracked(c, i, deleted);
  }

  lemma MergeKeepsPrefix(c: Core, d: Id, i: nat)
    requires i < |c.tracked| && NoDup(c.tracked) && NoPair(c, c.tracked[..i]) && d in DeletedIn(c.tracked[..i], c.live)
    requires c.flows.Keys >= {d, c.tracked[i]} && c.flows[d].key in c.installed && d in c.installed[c.flows[d].key].refs
    ensures var c' := Merged(c, d, c.tracked[i]);
      && 1 <= i && |c'.tracked| >= i - 1
      && NoPair(c', c'.tracked[..i - 1])
      && DeletedIn(c'.tracked[..i - 1], c'.live) == DeletedIn(c.tracked[..i], c.live) - {d}
  {
    MergedPrefix(c, d, i);
    MergedNoPair(c, d, c.tracked[i], c.tracked[..i]);
    DeletedWithout(c.tracked[..i], d, c.live);
  }

  /** Cancelling a deletion against a later identical addition changes nothing
      a put can see: the desired flows, the installed contents and the
      invariant stay. */
  lemma MergedInv(c: Core, d: Id, f: Id)
    requires Inv(c) && c.changeTracked && f in c.tracked && Mergeable(c, d, f)
    ensures d in c.installed[c.flows[d].key].refs
    ensures var c' := Merged(c, d, f);
      && Inv(c') && SameDesired(c, c') && Contents(c'.installed) == Contents(c.installed)
      && |c'.tracked| == |c.tracked| - 2
  {
    MergedWellFormed(c, d, f);
    MergedInstalled(c, d, f);
    MergedOrdered(c, d, f);
    MergeLinks(c, d, f);
    WithoutNoDup(c.tracked, d);
    WithoutNoDup(Without(c.tracked, d), f);
  }

  ghost predicate SameToPut(c: Core, c': Core) {
    SameDesired(c, c') && Contents(c'.installed) == Contents(c.installed)
  }

  lemma SameToPutTrans(a: Core, b: Core, c: Core)
    requires SameToPut(a, b) && SameToPut(b, c)
    ensures SameToPut(a, c)
  {
  }

  /** One merge, as the loop of `merge_tracked_flows` makes it at position `i`. */
  lemma MergeStep(c: Core, d: Id, i: nat, deleted: set<Id>)
    requires Inv(c) && c.changeTracked && i < |c.tracked| && Mergeable(c, d, c.tracked[i])
    requires Scanned(c, i, deleted) && d in deleted
    ensures d in c.installed[c.flows[d].key].refs
    ensures var c' := Merged(c, d, c.tracked[i]);
      && Inv(c') && SameToPut(c, c') && |c'.tracked| == |c.tracked| - 2 && 1 <= i
      && Scanned(c', i - 1, deleted - {d})
  {
    assert c.tracked[i] in c.tracked;
    MergedInv(c, d, c.tracked[i]);
    MergeKeepsPrefix(c, d, i);
  }

  // ------------------------------------------- update_installed_flows_by_compare

  /** While comparing, every flow is live and nothing is tracked. */
  ghost predicate Comparing(c: Core) {
    Inv(c) && !c.changeTracked
  }

  ghost predicate Settled(c: Core, k: Key) {
    k in c.installed && InstalledOk(c.flows, [], c.installed[k])
  }

  /** `unlink_all_refs_for_installed_flow` */
  ghost function UnlinkAll(c: Core, k: Key): Core
    requires k in c.installed
  {
    c.(linked := c.linked - (set d | d in c.installed[k].refs),
       installed := c.installed[k := c.installed[k].(refs := [])])
  }

  lemma UnlinkAllOk(c: Core, k: Key)
    requires WellFormed(c) && k in c.installed
    ensures WellFormed(UnlinkAll(c, k)) && Contents(UnlinkAll(c, k).installed) == Contents(c.installed)
    ensures SameDesired(c, UnlinkAll(c, k))
  {
    var c' := UnlinkAll(c, k);
    assert RefsOk(c.flows, c.linked, k, c.installed[k].refs);
    RelinkOk(c.flows, c.linked, c.installed, c'.linked, k, c'.installed[k]);
  }

  /** No conjunctive flow is in the way: at most one of each key is desired. */
  lemma CompareCanLink(c: Core, d: Id)
    requires Comparing(c) && d in c.live && d !in c.linked && c.flows[d].key in c.installed
    ensures CanLink(c, d)
  {
    var k := c.flows[d].key;
    assert RefsOk(c.flows, c.linked, k, c.installed[k].refs);
  }

  /** An installed flow that is still desired takes on one of its desired
      flows; `installed_flow_mod` is skipped when nothing differs. */
  ghost function Adopt(c: Core, k: Key, d: Id): Core
    requires Comparing(c) && k in c.installed && d in c.live && c.flows[d].key == k
  {
    UnlinkAllOk(c, k);
    var c1 := UnlinkAll(c, k);
    var c2 := if c1.installed[k].content == c1.flows[d].content then c1 else SetContent(c1, k, c1.flows[d].content);
    assert d !in c2.linked by { assert RefsOk(c.flows, c.linked, k, c.installed[k].refs); }
    Link(c2, d)
  }

  lemma LinkFrame(c: Core, d: Id)
    requires WellFormed(c) && CanLink(c, d)
    ensures WellFormed(Link(c, d)) && Effect(c, [], Link(c, d))
  {
    LinkOk(c, d);
    EffectNone(c, Link(c, d));
  }

  /** Linking the one desired flow to an installed flow with its content. */
  lemma LinkFirst(c: Core, k: Key, d: Id)
    requires Comparing(c) && d in c.live && d !in c.linked && c.flows[d].key == k
    requires k in c.installed && c.installed[k] == Installed(c.flows[d].content, [])
    ensures CanLink(c, d) && Comparing(Link(c, d)) && Settled(Link(c, d), k) && Effect(c, [], Link(c, d))
  {
    assert Insert(c.flows, [], d) == [d];
    LinkFrame(c, d);
  }

  lemma AdoptStart(c: Core, k: Key, d: Id)
    requires Comparing(c) && k in c.installed && d in c.live && c.flows[d].key == k
    ensures var c1 := UnlinkAll(c, k);
      Comparing(c1) && d !in c1.linked && c1.installed[k].refs == [] && Effect(c, [], c1)
  {
    UnlinkAllOk(c, k);
    EffectNone(c, UnlinkAll(c, k));
    assert RefsOk(c.flows, c.linked, k, c.installed[k].refs);
  }

  lemma AdoptInv(c: Core, k: Key, d: Id)
    requires Comparing(c) && k in c.installed && d in c.live && c.flows[d].key == k
    ensures var c' := Adopt(c, k, d);
      && Comparing(c') && Settled(c', k)
      && c'.installed.Keys == c.installed.Keys
      && (forall k' | k' in c.installed && k' != k :: c'.installed[k'] == c.installed[k'])
      && c'.flows == c.flows
      && Effect(c, if c.installed[k].content == c.flows[d].content then []
                   else [ModMsg(k, c.installed[k].content, c.flows[d].content)], c')
  {
    AdoptStart(c, k, d);
    var c1 := UnlinkAll(c, k);
    var x := c.flows[d].content;
    if c1.installed[k].content == x {
      LinkFirst(c1, k, d);
      EffectThen(c, c1, [], Link(c1, d));
    } else {
      AdoptOther(c1, k, d);
      EffectThen(c, c1, [ModMsg(k, c.installed[k].content, x)], Link(SetContent(c1, k, x), d));
    }
  }

  lemma AdoptOther(c: Core, k: Key, d: Id)
    requires Comparing(c) && d in c.live && d !in c.linked && c.flows[d].key == k && k in c.installed
    requires c.installed[k].refs == []
    ensures var c2 := SetContent(c, k, c.flows[d].content);
      && CanLink(c2, d) && Comparing(Link(c2, d)) && Settled(Link(c2, d), k)
      && Effect(c, [ModMsg(k, c.installed[k].content, c.flows[d].content)], Link(c2, d))
  {
    var x := c.flows[d].content;
    var m := ModMsg(k, c.installed[k].content, x);
    SetContentEffect(c, k, x);
    LinkFirst(SetContent(c, k, x), k, d);
    EffectTrans(c, [m], SetContent(c, k, x), [], Link(SetContent(c, k, x), d));
    assert [m] + [] == [m];
  }

  /** An installed flow that is no longer desired is deleted. */
  lemma DiscardInv(c: Core, k: Key)
    requires Comparing(c) && k in c.installed
    ensures var c' := DropInstalled(UnlinkAll(c, k), k);
      && Comparing(c') && c'.installed.Keys == c.installed.Keys - {k}
      && (forall k' | k' in c'.installed :: c'.installed[k'] == c.installed[k'])
      && c'.flows == c.flows
      && Effect(c, [DeleteStrict(k)], c')
  {
    UnlinkAllOk(c, k);
    var c1 := UnlinkAll(c, k);
    EffectNone(c, c1);
    DropInstalledEffect(c1, k);
    EffectThen(c, c1, [DeleteStrict(k)], DropInstalled(c1, k));
  }

  /** A desired flow that is not installed yet. */
  lemma CompareNewInv(c: Core, d: Id)
    requires Comparing(c) && d in c.live && c.flows[d].key !in c.installed
    ensures var c1 := NewInstalled(c, d);
      && CanLink(c1, d)
      && var c' := Link(c1, d);
      && Comparing(c') && Settled(c', c.flows[d].key) && c'.installed.Keys == c.installed.Keys + {c.flows[d].key}
      && (forall k' | k' in c.installed :: c'.installed[k'] == c.installed[k'])
      && c'.flows == c.flows && c'.linked == c.linked + {d}
      && Effect(c, [Add(c.flows[d].key, c.flows[d].content)], c')
  {
    var c1 := NewInstalled(c, d);
    var m := Add(c.flows[d].key, c.flows[d].content);
    NewInstalledEffect(c, d);
    LinkFrame(c1, d);
    EffectTrans(c, [m], c1, [], Link(c1, d));
    assert [m] + [] == [m];
    assert Insert(c.flows, [], d) == [d];
  }

  /** A desired flow whose key another desired flow already installed. */
  lemma CompareConflictInv(c: Core, d: Id)
    requires Comparing(c) && d in c.live && d !in c.linked && Settled(c, c.flows[d].key)
    ensures CanLink(c, d)
    ensures var f := c.flows[d];
      var c1 := Link(c, d);
      && c1.installed[f.key].refs != []
      && var c' := if c1.installed[f.key].refs[0] == d then SetContent(c1, f.key, f.content) else c1;
      && Comparing(c') && Settled(c', f.key) && c'.installed.Keys == c.installed.Keys
      && (forall k' | k' in c.installed && k' != f.key :: c'.installed[k'] == c.installed[k'])
      && c'.flows == c.flows && c'.linked == c.linked + {d}
      && Effect(c, if c1.installed[f.key].refs[0] == d
                   then [ModMsg(f.key, c.installed[f.key].content, f.content)] else [], c')
  {
    CompareCanLink(c, d);
    var f := c.flows[d];
    var c1 := Link(c, d);
    assert RefsOk(c.flows, c.linked, f.key, c.installed[f.key].refs);
    InsertSorted(c.flows, c.installed[f.key].refs, d);
    LinkFrame(c, d);
    if c1.installed[f.key].refs[0] == d {
      SetContentEffect(c1, f.key, f.content);
      EffectThen(c, c1, [ModMsg(f.key, c.installed[f.key].content, f.content)], SetContent(c1, f.key, f.content));
    }
  }

  /** The second loop of `update_installed_flows_by_compare`, on one flow. */
  ghost function Compared(c: Core, d: Id): (Core, seq<FlowMod>)
    requires d in c.flows
    requires if c.flows[d].key in c.installed then d in c.linked || CanLink(c, d) else CanLink(NewInstalled(c, d), d)
  {
    var f := c.flows[d];
    if f.key !in c.installed then (Link(NewInstalled(c, d), d), [Add(f.key, f.content)])
    else if d !in c.linked then
      var c1 := Link(c, d);
      if c1.installed[f.key].refs[0] == d
      then (SetContent(c1, f.key, f.content), [ModMsg(f.key, c.installed[f.key].content, f.content)])
      else (c1, [])
    else (c, [])
  }

  lemma ComparedOk(c: Core, d: Id)
    requires Comparing(c) && d in c.live
    requires c.flows[d].key in c.installed ==> Settled(c, c.flows[d].key)
    ensures if c.flows[d].key in c.installed then d in c.linked || CanLink(c, d) else CanLink(NewInstalled(c, d), d)
    ensures var (c', msgs) := Compared(c, d);
      && Comparing(c') && Effect(c, msgs, c') && c'.flows == c.flows
      && c'.linked == c.linked + {d} && Settled(c', c.flows[d].key)
      && c'.installed.Keys == c.installed.Keys + {c.flows[d].key}
      && forall k' | k' in c'.installed && k' != c.flows[d].key :: c'.installed[k'] == c.installed[k']
  {
    if c.flows[d].key !in c.installed {
      CompareNewInv(c, d);
    } else if d !in c.linked {
      CompareConflictInv(c, d);
    } else {
      EffectNone(c, c);
    }
  }

  ghost predicate AllSettled(c: Core) {
    forall k | k in c.installed :: Settled(c, k)
  }

  lemma ComparedSettles(c: Core, d: Id)
    requires Comparing(c) && d in c.live && AllSettled(c)
    ensures if c.flows[d].key in c.installed then d in c.linked || CanLink(c, d) else CanLink(NewInstalled(c, d), d)
    ensures var (c', msgs) := Compared(c, d);
      Comparing(c') && Effect(c, msgs, c') && c'.linked == c.linked + {d} && AllSettled(c')
  {
    assert c.flows[d].key in c.installed ==> Settled(c, c.flows[d].key);
    ComparedOk(c, d);
    StillSettled(c, Compared(c, d).0, c.flows[d].key);
  }

  lemma StillSettled(c: Core, c': Core, k: Key)
    requires AllSettled(c) && Settled(c', k) && c'.flows == c.flows && c'.installed.Keys == c.installed.Keys + {k}
    requires forall k' | k' in c'.installed && k' != k :: c'.installed[k'] == c.installed[k']
    ensures AllSettled(c')
  {
    forall k' | k' in c'.installed ensures Settled(c', k') {
      if k' != k { assert Settled(c, k'); }
    }
  }

  // ------------------------------------------------------------ the end of a put

  /** Nothing is left to track. */
  ghost predicate Synced(c: Core) {
    Inv(c) && c.changeTracked && c.tracked == []
  }

  lemma SyncedShows(c: Core, k: Key)
    requires Synced(c) && k in c.installed
    ensures k in DesiredKeys(c) && Shows(c, k, c.installed[k].content)
  {
    var i := c.installed[k];
    assert InstalledOk(c.flows, c.tracked, i) && RefsOk(c.flows, c.linked, k, i.refs);
    var d := i.refs[0];
    assert d in i.refs;
    forall e | e in c.live && c.flows[e].key == k ensures RankOf(c.flows, d) <= RankOf(c.flows, e) {
      var j :| 0 <= j < |i.refs| && i.refs[j] == e;
    }
    assert MostPreferred(c, d);
  }

  /** When nothing is left to track, the installed contents realise the desired
      flows. This is where both update paths end. */
  lemma SyncedRealizes(c: Core)
    requires Synced(c)
    ensures Realizes(Contents(c.installed), c)
  {
    var sw := Contents(c.installed);
    forall k | k in sw ensures k in DesiredKeys(c) && Shows(c, k, sw[k]) {
      SyncedShows(c, k);
    }
    forall k | k in DesiredKeys(c) ensures k in sw {
      var d :| d in c.live && c.flows[d].key == k;
    }
  }

  lemma ComparedSynced(c: Core)
    requires Comparing(c) && c.live <= c.linked && AllSettled(c)
    ensures Synced(c.(changeTracked := true))
  {
    var c' := c.(changeTracked := true);
    assert AllInstalledOk(c'.flows, c'.tracked, c'.installed) by {
      forall k | k in c'.installed ensures InstalledOk(c'.flows, c'.tracked, c'.installed[k]) {
        assert Settled(c, k);
      }
    }
  }
}
