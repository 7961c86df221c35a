/** The list and index manipulations of controller/ofctrl.c as functions on
    `Core`, each with the lemma that it keeps the invariant. */
module FlowSteps {
  import opened Lists
  import opened FlowModel

  // ---------------------------------------------------------- desired_refs

  /** The position `link_installed_to_desired` inserts at: before the first
      flow the new one is preferred over, else at the end. */
  function InsertPos(flows: map<Id, Flow>, refs: seq<Id>, a: seq<Action>): (r: nat)
    requires forall d | d in refs :: d in flows
    requires HasConj(a) ==> forall d | d in refs :: !HasConj(flows[d].content.actions)
    ensures r <= |refs|
    ensures forall i | 0 <= i < r :: RankOf(flows, refs[i]) <= Rank(a)
    ensures r < |refs| ==> Rank(a) < RankOf(flows, refs[r])
  {
    if refs == [] then 0
    else if Preferred(a, flows[refs[0]].content.actions) then 0
    else 1 + InsertPos(flows, refs[1..], a)
  }

  /** The search for the position, one flow further. */
  lemma InsertPosStep(flows: map<Id, Flow>, refs: seq<Id>, p: nat, a: seq<Action>)
    requires p < |refs| && forall d | d in refs :: d in flows
    requires HasConj(a) ==> forall d | d in refs :: !HasConj(flows[d].content.actions)
    ensures refs[p] in refs
    ensures !Preferred(a, flows[refs[p]].content.actions) ==>
      InsertPos(flows, refs[p..], a) == 1 + InsertPos(flows, refs[p + 1..], a)
    ensures Preferred(a, flows[refs[p]].content.actions) ==> InsertPos(flows, refs[p..], a) == 0
  {
    assert refs[p..][1..] == refs[p + 1..];
  }

  ghost predicate CanInsert(flows: map<Id, Flow>, refs: seq<Id>, d: Id) {
    && d in flows && d !in refs
    && (forall e | e in refs :: e in flows)
    && (Conj(flows, d) ==> forall e | e in refs :: !Conj(flows, e))
  }

  ghost function Insert(flows: map<Id, Flow>, refs: seq<Id>, d: Id): (r: seq<Id>)
    requires CanInsert(flows, refs, d)
  {
    var p := InsertPos(flows, refs, flows[d].content.actions);
    refs[..p] + [d] + refs[p..]
  }

  lemma InsertMembers(flows: map<Id, Flow>, refs: seq<Id>, d: Id)
    requires CanInsert(flows, refs, d) && NoDup(refs)
    ensures NoDup(Insert(flows, refs, d))
    ensures forall e :: e in Insert(flows, refs, d) <==> e in refs || e == d
  {
    InsertNoDup(refs, InsertPos(flows, refs, flows[d].content.actions), d);
  }

  /** Linking keeps `desired_refs` sorted; the head is the new flow or the old
      head. */
  lemma InsertSorted(flows: map<Id, Flow>, refs: seq<Id>, d: Id)
    requires CanInsert(flows, refs, d) && NoDup(refs) && Sorted(flows, refs) && AtMostOneConj(flows, refs)
    ensures var r := Insert(flows, refs, d);
      && Sorted(flows, r) && AtMostOneConj(flows, r)
      && (r[0] == d || (refs != [] && r[0] == refs[0]))
  {
    InsertMembers(flows, refs, d);
    var p := InsertPos(flows, refs, flows[d].content.actions);
    InsertedSorted(flows, refs, p, d);
  }

  lemma InsertedSorted(flows: map<Id, Flow>, refs: seq<Id>, p: nat, d: Id)
    requires p <= |refs| && d in flows && Sorted(flows, refs)
    requires forall i | 0 <= i < p :: RankOf(flows, refs[i]) <= RankOf(flows, d)
    requires p < |refs| ==> RankOf(flows, d) < RankOf(flows, refs[p])
    ensures var r := refs[..p] + [d] + refs[p..]; Sorted(flows, r) && (r[0] == d || (refs != [] && r[0] == refs[0]))
  {
    var r := refs[..p] + [d] + refs[p..];
    assert forall i | 0 <= i < |r| :: r[i] == if i < p then refs[i] else if i == p then d else refs[i - 1];
    forall i, j | 0 <= i < j < |r| ensures RankOf(flows, r[i]) <= RankOf(flows, r[j]) {
      if i < p < j { assert RankOf(flows, refs[i]) <= RankOf(flows, refs[j - 1]); }
      if i == p { assert RankOf(flows, refs[p]) <= RankOf(flows, refs[j - 1]); }
    }
  }

  lemma WithoutSorted(flows: map<Id, Flow>, refs: seq<Id>, d: Id)
    requires NoDup(refs) && Sorted(flows, refs) && AtMostOneConj(flows, refs) && d in refs
    ensures var r := Without(refs, d);
      && Sorted(flows, r) && AtMostOneConj(flows, r)
      && (refs[0] != d ==> r != [] && r[0] == refs[0])
  {
    WithoutNoDup(refs, d);
    var r := Without(refs, d);
    forall i, j | 0 <= i < j < |r| ensures RankOf(flows, r[i]) <= RankOf(flows, r[j]) {
      OldIndexMonotone(refs, d, i, j);
    }
    if refs[0] != d { assert refs[0] in r; }
  }

  ghost predicate CanLink(c: Core, d: Id) {
    && d in c.flows && d !in c.linked
    && c.flows[d].key in c.installed
    && CanInsert(c.flows, c.installed[c.flows[d].key].refs, d)
  }

  /** `link_installed_to_desired` */
  ghost function Link(c: Core, d: Id): Core
    requires CanLink(c, d)
  {
    var k := c.flows[d].key;
    c.(linked := c.linked + {d},
       installed := c.installed[k := c.installed[k].(refs := Insert(c.flows, c.installed[k].refs, d))])
  }

  /** `unlink_installed_to_desired` */
  ghost function Unlink(c: Core, d: Id): Core
    requires d in c.flows && c.flows[d].key in c.installed
  {
    var k := c.flows[d].key;
    c.(linked := c.linked - {d},
       installed := c.installed[k := c.installed[k].(refs := Without(c.installed[k].refs, d))])
  }

  /** Links stay consistent when the refs of one key change to match `linked`. */
  lemma RelinkOk(flows: map<Id, Flow>, linked: set<Id>, installed: map<Key, Installed>,
                 linked': set<Id>, k: Key, i: Installed)
    requires LinksOk(flows, linked, installed)
    requires linked' <= flows.Keys
    requires forall d | d in flows && flows[d].key != k :: d in linked' <==> d in linked
    requires RefsOk(flows, linked', k, i.refs)
    ensures LinksOk(flows, linked', installed[k := i])
  {
    var installed' := installed[k := i];
    forall k' | k' in installed' ensures RefsOk(flows, linked', k', installed'[k'].refs) {
      if k' != k { assert RefsOk(flows, linked, k', installed[k'].refs); }
    }
  }

  lemma LinkOk(c: Core, d: Id)
    requires WellFormed(c) && CanLink(c, d)
    ensures WellFormed(Link(c, d))
    ensures Contents(Link(c, d).installed) == Contents(c.installed)
  {
    var k := c.flows[d].key;
    var refs := c.installed[k].refs;
    assert RefsOk(c.flows, c.linked, k, refs);
    InsertMembers(c.flows, refs, d);
    RelinkOk(c.flows, c.linked, c.installed, c.linked + {d}, k, Link(c, d).installed[k]);
  }

  lemma UnlinkOk(c: Core, d: Id)
    requires WellFormed(c) && d in c.linked
    ensures WellFormed(Unlink(c, d))
    ensures Contents(Unlink(c, d).installed) == Contents(c.installed)
  {
    var k := c.flows[d].key;
    assert RefsOk(c.flows, c.linked, k, c.installed[k].refs);
    WithoutNoDup(c.installed[k].refs, d);
    RelinkOk(c.flows, c.linked, c.installed, c.linked - {d}, k, Unlink(c, d).installed[k]);
  }

  /** `desired_flow_destroy`, with the asserts it makes as preconditions. */
  ghost function Destroy(c: Core, d: Id): Core
    requires d !in c.linked && d !in c.live && d !in c.tracked
  {
    c.(flows := c.flows - {d})
  }

  lemma DestroyOk(c: Core, d: Id)
    requires WellFormed(c) && d !in c.linked && d !in c.live && d !in c.tracked
    ensures WellFormed(Destroy(c, d))
  {
    var c' := Destroy(c, d);
    forall k | k in c'.installed ensures RefsOk(c'.flows, c'.linked, k, c'.installed[k].refs) {
      assert RefsOk(c.flows, c.linked, k, c.installed[k].refs);
    }
  }

  // ------------------------------------------------ changes to desired flows

  /** `track_flow_add_or_modify` */
  ghost function TrackAdd(c: Core, d: Id): Core {
    if c.changeTracked then c.(tracked := MoveToBack(c.tracked, d)) else c
  }

  /** A new flow enters the match table. */
  ghost function AddFlow(c: Core, f: Flow): Core {
    TrackAdd(c.(flows := c.flows[c.nextId := f], live := c.live + {c.nextId}, nextId := c.nextId + 1), c.nextId)
  }

  /** The actions of a flow are replaced. */
  ghost function ModifyFlow(c: Core, d: Id, x: Content): Core
    requires d in c.flows
  {
    TrackAdd(c.(flows := c.flows[d := c.flows[d].(content := x)]), d)
  }

  /** `track_flow_del`, for a flow just taken out of the match table. */
  ghost function TrackDel(c: Core, d: Id): Core {
    if d in c.tracked && d !in c.linked
    then c.(tracked := Without(c.tracked, d), flows := c.flows - {d})
    else c.(tracked := MoveToBack(c.tracked, d))
  }

  /** A flow leaves the match table: `track_or_destroy_for_flow_del`. */
  ghost function RemoveFlow(c: Core, d: Id): Core
    requires LinksIn(c)
  {
    var c := c.(live := c.live - {d});
    if c.changeTracked then TrackDel(c, d)
    else
      var c1 := if d in c.linked then Unlink(c, d) else c;
      c1.(flows := c1.flows - {d})
  }

  /** Every linked flow has its installed flow. */
  ghost predicate LinksIn(c: Core) {
    forall d | d in c.linked :: d in c.flows && c.flows[d].key in c.installed
  }

  lemma RemoveFlowLinksIn(c: Core, d: Id)
    requires LinksIn(c) && c.linked <= c.flows.Keys
    ensures LinksIn(RemoveFlow(c, d)) && RemoveFlow(c, d).live == c.live - {d}
    ensures RemoveFlow(c, d).linked <= RemoveFlow(c, d).flows.Keys
  {
  }

  /** Exactly the flows in `gone` left the match table, and the installed
      contents did not move: that waits for the next put. */
  ghost predicate OnlyRemoved(c: Core, c': Core, gone: set<Id>) {
    && c'.live == c.live - gone
    && c'.changeTracked == c.changeTracked
    && c'.nextId == c.nextId
    && c.live <= c.flows.Keys && c'.live <= c'.flows.Keys
    && (forall d | d in c'.live :: c'.flows[d] == c.flows[d])
    && Contents(c'.installed) == Contents(c.installed)
  }

  lemma OnlyRemovedTrans(a: Core, b: Core, c: Core, g: set<Id>, h: set<Id>)
    requires OnlyRemoved(a, b, g) && OnlyRemoved(b, c, h)
    ensures OnlyRemoved(a, c, g + h)
  {
  }

  /** Moving `d` to the back keeps the order of deletions before additions,
      unless `d` itself now overtakes or is overtaken. */
  lemma MoveToBackOrdered(c: Core, c': Core, d: Id)
    requires NoDup(c.tracked) && Ordered(c)
    requires c'.tracked == MoveToBack(c.tracked, d)
    requires forall a | a in c.tracked && a != d :: !Overtakes(c', a, d)
    requires forall a, b | a in c.tracked && b in c.tracked && a != d && b != d && Overtakes(c', a, b) ::
      Overtakes(c, a, b)
    ensures Ordered(c')
  {
    WithoutNoDup(c.tracked, d);
    var t := Without(c.tracked, d);
    forall i, j | 0 <= i < j < |c'.tracked| ensures !Overtakes(c', c'.tracked[i], c'.tracked[j]) {
      assert c'.tracked[i] in t;
      if j < |t| {
        OldIndexMonotone(c.tracked, d, i, j);
        assert c'.tracked[j] in t;
        var i', j' := OldIndex(c.tracked, d, i), OldIndex(c.tracked, d, j);
        assert c'.tracked[i] == c.tracked[i'] && c'.tracked[j] == c.tracked[j'];
      }
    }
  }

  lemma RemovalOrdered(c: Core, c': Core, d: Id)
    requires NoDup(c.tracked) && Ordered(c)
    requires c'.tracked == Without(c.tracked, d)
    requires forall a, b | a in c.tracked && b in c.tracked && a != d && b != d && Overtakes(c', a, b) ::
      Overtakes(c, a, b)
    ensures Ordered(c')
  {
    WithoutNoDup(c.tracked, d);
    forall i, j | 0 <= i < j < |c'.tracked| ensures !Overtakes(c', c'.tracked[i], c'.tracked[j]) {
      OldIndexMonotone(c.tracked, d, i, j);
      assert c'.tracked[i] in c'.tracked && c'.tracked[j] in c'.tracked;
      var i', j' := OldIndex(c.tracked, d, i), OldIndex(c.tracked, d, j);
      assert c'.tracked[i] == c.tracked[i'] && c'.tracked[j] == c.tracked[j'];
    }
  }

  /** Installed flows stay right when the flows outside their refs change and
      only tracked flows change inside them. */
  lemma InstalledFrame(c: Core, c': Core)
    requires WellFormed(c) && AllInstalledOk(c.flows, c.tracked, c.installed)
    requires c'.installed == c.installed
    requires forall d | d in c.linked ::
      d in c'.flows && Rank(c'.flows[d].content.actions) == Rank(c.flows[d].content.actions)
    requires forall d | d in c.linked && d !in c'.tracked :: c'.flows[d] == c.flows[d] && d !in c.tracked
    ensures AllInstalledOk(c'.flows, c'.tracked, c'.installed)
  {
    forall k | k in c'.installed ensures InstalledOk(c'.flows, c'.tracked, c'.installed[k]) {
      var i := c.installed[k];
      assert InstalledOk(c.flows, c.tracked, i) && RefsOk(c.flows, c.linked, k, i.refs);
      forall e | e in i.refs ensures Conj(c'.flows, e) <==> Conj(c.flows, e) {
      }
    }
  }

  lemma LinksFrame(flows: map<Id, Flow>, flows': map<Id, Flow>, linked: set<Id>, installed: map<Key, Installed>)
    requires LinksOk(flows, linked, installed)
    requires forall d | d in linked :: d in flows' && flows'[d].key == flows[d].key
    ensures LinksOk(flows', linked, installed)
  {
    forall k | k in installed ensures RefsOk(flows', linked, k, installed[k].refs) {
      assert RefsOk(flows, linked, k, installed[k].refs);
    }
  }

  lemma AddFlowWellFormed(c: Core, f: Flow)
    requires WellFormed(c)
    requires HasConj(f.content.actions) ==> forall e | e in c.live && c.flows[e].key == f.key :: !Conj(c.flows, e)
    ensures WellFormed(AddFlow(c, f)) && c.nextId !in c.flows && c.nextId !in c.linked && c.nextId !in c.tracked
  {
    var c' := AddFlow(c, f);
    LinksFrame(c.flows, c'.flows, c'.linked, c'.installed);
    MoveToBackNoDup(c.tracked, c.nextId);
  }

  lemma AddFlowInv(c: Core, f: Flow)
    requires Inv(c)
    requires HasConj(f.content.actions) ==> forall e | e in c.live && c.flows[e].key == f.key :: !Conj(c.flows, e)
    ensures var c' := AddFlow(c, f);
      && Inv(c') && c'.changeTracked == c.changeTracked && c'.installed == c.installed
      && c'.live == c.live + {c.nextId} && c.nextId !in c.flows
      && c'.flows == c.flows[c.nextId := f]
  {
    AddFlowWellFormed(c, f);
    if c.changeTracked {
      AddTrackedInv(c, f);
    }
  }

  lemma AddTrackedInv(c: Core, f: Flow)
    requires Inv(c) && c.changeTracked
    requires HasConj(f.content.actions) ==> forall e | e in c.live && c.flows[e].key == f.key :: !Conj(c.flows, e)
    ensures var c' := AddFlow(c, f);
      Tracks(c') && AllInstalledOk(c'.flows, c'.tracked, c'.installed) && Ordered(c')
  {
    var c' := AddFlow(c, f);
    AddTracks(c, f);
    assert AllInstalledOk(c'.flows, c'.tracked, c'.installed) by { InstalledFrame(c, c'); }
    assert Ordered(c') by { MoveToBackOrdered(c, c', c.nextId); }
  }

  lemma AddTracks(c: Core, f: Flow)
    requires WellFormed(c) && Tracks(c) && c.changeTracked
    ensures Tracks(AddFlow(c, f)) && c.nextId !in c.linked && c.nextId !in c.tracked
    ensures forall d :: d in AddFlow(c, f).tracked <==> d in c.tracked || d == c.nextId
  {
    MoveToBackNoDup(c.tracked, c.nextId);
  }

  lemma ModifyFlowWellFormed(c: Core, d: Id, x: Content)
    requires WellFormed(c) && d in c.live && Conj(c.flows, d) && HasConj(x.actions)
    ensures var c' := ModifyFlow(c, d, x);
      WellFormed(c') && forall e | e in c.flows :: Conj(c'.flows, e) <==> Conj(c.flows, e)
  {
    var c' := ModifyFlow(c, d, x);
    LinksFrame(c.flows, c'.flows, c'.linked, c'.installed);
    MoveToBackNoDup(c.tracked, d);
  }

  lemma ModifyTracks(c: Core, d: Id, x: Content)
    requires WellFormed(c) && Tracks(c) && c.changeTracked && d in c.live && d in c.flows && HasConj(x.actions)
    ensures var c' := ModifyFlow(c, d, x);
      Tracks(c') && forall e :: e in c'.tracked <==> e in c.tracked || e == d
  {
    MoveToBackNoDup(c.tracked, d);
  }

  lemma ModifyInstalled(c: Core, d: Id, x: Content)
    requires WellFormed(c) && AllInstalledOk(c.flows, c.tracked, c.installed) && c.changeTracked
    requires d in c.flows && Conj(c.flows, d) && HasConj(x.actions)
    ensures var c' := ModifyFlow(c, d, x); AllInstalledOk(c'.flows, c'.tracked, c'.installed)
  {
    MoveToBackNoDup(c.tracked, d);
    InstalledFrame(c, ModifyFlow(c, d, x));
  }

  lemma ModifyOrdered(c: Core, d: Id, x: Content)
    requires NoDup(c.tracked) && Ordered(c) && c.changeTracked && d in c.flows && d in c.live
    ensures Ordered(ModifyFlow(c, d, x))
  {
    MoveToBackNoDup(c.tracked, d);
    MoveToBackOrdered(c, ModifyFlow(c, d, x), d);
  }

  lemma ModifyFlowInv(c: Core, d: Id, x: Content)
    requires Inv(c) && d in c.live && Conj(c.flows, d) && HasConj(x.actions)
    ensures var c' := ModifyFlow(c, d, x);
      && Inv(c') && c'.changeTracked == c.changeTracked && c'.live == c.live && c'.installed == c.installed
      && c'.flows == c.flows[d := c.flows[d].(content := x)]
  {
    ModifyFlowWellFormed(c, d, x);
    if c.changeTracked {
      ModifyTracks(c, d, x);
      ModifyInstalled(c, d, x);
      ModifyOrdered(c, d, x);
    }
  }

  /** A flow that the switch never got is dropped without a trace. */
  ghost function Forgotten(c: Core, d: Id): Core {
    c.(live := c.live - {d}, tracked := Without(c.tracked, d), flows := c.flows - {d})
  }

  /** Any other flow is queued for deletion. */
  ghost function QueuedForDeletion(c: Core, d: Id): Core {
    c.(live := c.live - {d}, tracked := MoveToBack(c.tracked, d))
  }

  lemma RemoveTrackedCases(c: Core, d: Id)
    requires LinksIn(c) && c.changeTracked
    ensures RemoveFlow(c, d) == if d in c.tracked && d !in c.linked then Forgotten(c, d) else QueuedForDeletion(c, d)
  {
  }

  lemma ForgottenWellFormed(c: Core, d: Id)
    requires WellFormed(c) && d in c.live && d !in c.linked
    ensures WellFormed(Forgotten(c, d)) && OnlyRemoved(c, Forgotten(c, d), {d})
  {
    WithoutNoDup(c.tracked, d);
    LinksFrame(c.flows, c.flows - {d}, c.linked, c.installed);
  }

  lemma QueuedWellFormed(c: Core, d: Id)
    requires WellFormed(c) && d in c.live
    ensures WellFormed(QueuedForDeletion(c, d)) && OnlyRemoved(c, QueuedForDeletion(c, d), {d})
  {
    MoveToBackNoDup(c.tracked, d);
  }

  lemma ForgottenTracks(c: Core, d: Id)
    requires Tracks(c) && NoDup(c.tracked) && c.live <= c.flows.Keys && d !in c.linked
    ensures Tracks(Forgotten(c, d))
  {
    WithoutNoDup(c.tracked, d);
  }

  lemma ForgottenInstalled(c: Core, d: Id)
    requires WellFormed(c) && AllInstalledOk(c.flows, c.tracked, c.installed) && d !in c.linked
    ensures var c' := Forgotten(c, d); AllInstalledOk(c'.flows, c'.tracked, c'.installed)
  {
    WithoutNoDup(c.tracked, d);
    InstalledFrame(c, Forgotten(c, d));
  }

  lemma ForgottenOrdered(c: Core, d: Id)
    requires NoDup(c.tracked) && Ordered(c) && d in c.tracked
    ensures Ordered(Forgotten(c, d))
  {
    WithoutNoDup(c.tracked, d);
    RemovalOrdered(c, Forgotten(c, d), d);
  }

  lemma ForgottenInv(c: Core, d: Id)
    requires Inv(c) && c.changeTracked && d in c.live && d in c.tracked && d !in c.linked
    ensures Inv(Forgotten(c, d))
  {
    ForgottenWellFormed(c, d);
    ForgottenTracks(c, d);
    ForgottenInstalled(c, d);
    ForgottenOrdered(c, d);
  }

  lemma QueuedInv(c: Core, d: Id)
    requires Inv(c) && c.changeTracked && d in c.live && (d !in c.tracked || d in c.linked)
    ensures Inv(QueuedForDeletion(c, d))
  {
    var c' := QueuedForDeletion(c, d);
    assert WellFormed(c') by { QueuedWellFormed(c, d); }
    MoveToBackNoDup(c.tracked, d);
    assert Tracks(c');
    assert AllInstalledOk(c'.flows, c'.tracked, c'.installed) by { InstalledFrame(c, c'); }
    assert Ordered(c') by { MoveToBackOrdered(c, c', d); }
  }

  lemma RemoveTrackedInv(c: Core, d: Id)
    requires Inv(c) && c.changeTracked && d in c.live
    ensures Inv(RemoveFlow(c, d)) && OnlyRemoved(c, RemoveFlow(c, d), {d})
  {
    RemoveTrackedCases(c, d);
    if d in c.tracked && d !in c.linked {
      ForgottenInv(c, d);
      ForgottenWellFormed(c, d);
    } else {
      QueuedInv(c, d);
      QueuedWellFormed(c, d);
    }
  }

  lemma RemoveFlowInv(c: Core, d: Id)
    requires Inv(c) && d in c.live
    ensures Inv(RemoveFlow(c, d)) && OnlyRemoved(c, RemoveFlow(c, d), {d})
  {
    if c.changeTracked {
      RemoveTrackedInv(c, d);
    } else {
      var c1 := c.(live := c.live - {d});
      if d in c1.linked {
        UnlinkOk(c1, d);
        DestroyOk(Unlink(c1, d), d);
      } else {
        DestroyOk(c1, d);
      }
    }
  }

  lemma ElemsPush(ds: seq<Id>)
    requires ds != []
    ensures Elems(ds) == Elems(ds[..|ds| - 1]) + {ds[|ds| - 1]}
    ensures NoDup(ds) ==> NoDup(ds[..|ds| - 1]) && ds[|ds| - 1] !in ds[..|ds| - 1]
  {
    assert ds == ds[..|ds| - 1] + [ds[|ds| - 1]];
  }

  /** The flows `ds` leave the match table one after the other. */
  ghost function RemoveAll(c: Core, ds: seq<Id>): (r: Core)
    requires LinksIn(c) && c.linked <= c.flows.Keys
    ensures LinksIn(r) && r.linked <= r.flows.Keys
    ensures r.live == c.live - Elems(ds)
  {
    if ds == [] then c
    else
      var c1 := RemoveAll(c, ds[..|ds| - 1]);
      RemoveFlowLinksIn(c1, ds[|ds| - 1]);
      ElemsPush(ds);
      RemoveFlow(c1, ds[|ds| - 1])
  }

  lemma RemoveAllPush(c: Core, ds: seq<Id>, d: Id)
    requires LinksIn(c) && c.linked <= c.flows.Keys
    ensures RemoveAll(c, ds + [d]) == RemoveFlow(RemoveAll(c, ds), d)
  {
    assert (ds + [d])[..|ds|] == ds;
  }

  /** Removing flows keeps the invariant, and leaves every other flow and all
      installed contents alone. */
  lemma {:induction false} RemoveAllInv(c: Core, ds: seq<Id>)
    requires Inv(c) && NoDup(ds) && Elems(ds) <= c.live
    ensures LinksIn(c) && Inv(RemoveAll(c, ds)) && OnlyRemoved(c, RemoveAll(c, ds), Elems(ds))
  {
    if ds != [] {
      var init, d := ds[..|ds| - 1], ds[|ds| - 1];
      ElemsPush(ds);
      RemoveAllInv(c, init);
      var c1 := RemoveAll(c, init);
      RemoveFlowInv(c1, d);
      OnlyRemovedTrans(c, c1, RemoveAll(c, ds), Elems(init), {d});
    }
  }

  lemma {:induction false} RemoveAllConcat(c: Core, a: seq<Id>, b: seq<Id>)
    requires LinksIn(c) && c.linked <= c.flows.Keys
    ensures RemoveAll(c, a + b) == RemoveAll(RemoveAll(c, a), b)
  {
    if b == [] {
      assert a + b == a;
    } else {
      var b' := b[..|b| - 1];
      assert a + b == (a + b') + [b[|b| - 1]];
      RemoveAllPush(c, a + b', b[|b| - 1]);
      RemoveAllConcat(c, a, b');
    }
  }

  /** `gone` lists distinct flows that were live. */
  ghost predicate DistinctIn(gone: seq<Id>, live: set<Id>) {
    NoDup(gone) && Elems(gone) <= live
  }

  lemma DistinctConcat(a: seq<Id>, b: seq<Id>, live: set<Id>)
    requires DistinctIn(a, live) && DistinctIn(b, live - Elems(a))
    ensures DistinctIn(a + b, live) && Elems(a + b) == Elems(a) + Elems(b)
  {
    var r := a + b;
    forall i, j | 0 <= i < j < |r| ensures r[i] != r[j] {
      if i < |a| <= j { assert r[i] in Elems(a) && r[j] in Elems(b); }
    }
    assert Elems(r) == Elems(a) + Elems(b);
  }
}
