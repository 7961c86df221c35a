/** Values behind controller/ofctrl.c: flows, the switch, the desired and
    installed flow tables, and the invariant that ties them together. */
module FlowModel {
  import opened Lists

  // ---------------------------------------------------------------- flows

  datatype Action = Conjunction(id: nat, clause: nat, nClauses: nat) | Other(tag: nat)

  /** Table, priority and match. A match is only compared for equality, so it
      is an opaque number. */
  datatype Key = Key(table: nat, priority: nat, match_: nat)

  datatype Content = Content(actions: seq<Action>, cookie: nat)

  predicate HasDrop(a: seq<Action>) {
    a == []
  }

  predicate HasConj(a: seq<Action>) {
    exists x | x in a :: x.Conjunction?
  }

  predicate HasAllow(a: seq<Action>) {
    !HasDrop(a) && !HasConj(a)
  }

  /** Least restrictive first: allow, then drop, then conjunction. */
  function Rank(a: seq<Action>): (r: nat) {
    if HasAllow(a) then 0 else if HasDrop(a) then 1 else 2
  }

  /** The actions let packets through by themselves. */
  predicate Allows(a: seq<Action>) {
    a != [] && forall x | x in a :: !x.Conjunction?
  }

  /** `flow_is_preferred`: allow before anything else, then drop before
      conjunctions. The precondition is the `OVS_NOT_REACHED` at its end: two
      conjunctive flows are never compared. */
  predicate Preferred(a: seq<Action>, b: seq<Action>): (r: bool)
    requires !(HasConj(a) && HasConj(b))
    ensures r <==> (Allows(a) && !Allows(b)) || (a == [] && exists x | x in b :: x.Conjunction?)
    ensures r <==> Rank(a) < Rank(b)
  {
    if HasAllow(b) then false
    else if HasAllow(a) then true
    else if HasDrop(b) then false
    else HasDrop(a)
  }

  // --------------------------------------------------------------- switch

  type Switch = map<Key, Content>

  /** OpenFlow flow-mods, section 6.4 of the OpenFlow Switch Specification 1.5.1. */
  datatype FlowMod =
    | Add(key: Key, content: Content)
    | ModifyStrict(key: Key, actions: seq<Action>)
    | DeleteStrict(key: Key)
    | DeleteAll

  function Apply(sw: Switch, m: FlowMod): Switch {
    match m
    case Add(k, c) => sw[k := c]
    case ModifyStrict(k, a) => if k in sw then sw[k := sw[k].(actions := a)] else sw
    case DeleteStrict(k) => sw - {k}
    case DeleteAll => map[]
  }

  function ApplyAll(sw: Switch, msgs: seq<FlowMod>): Switch {
    if msgs == [] then sw
    else Apply(ApplyAll(sw, msgs[..|msgs| - 1]), msgs[|msgs| - 1])
  }

  lemma ApplyAllPush(sw: Switch, msgs: seq<FlowMod>, m: FlowMod)
    ensures ApplyAll(sw, msgs + [m]) == Apply(ApplyAll(sw, msgs), m)
  {
    assert (msgs + [m])[..|msgs|] == msgs;
  }

  lemma ApplyFrame(sw: Switch, rest: Switch, m: FlowMod)
    requires !m.DeleteAll? && m.key !in rest
    ensures Apply(sw + rest, m) == Apply(sw, m) + rest
    ensures Apply(rest + sw, m) == rest + Apply(sw, m)
  {
  }

  /** Flow-mods for keys in `keys` act on that part of the switch and leave the
      rest alone. */
  lemma {:induction false} ApplyAllFrame(sw: Switch, rest: Switch, msgs: seq<FlowMod>, keys: set<Key>)
    requires sw.Keys <= keys && rest.Keys !! keys
    requires forall m | m in msgs :: !m.DeleteAll? && m.key in keys
    ensures ApplyAll(sw, msgs).Keys <= keys
    ensures ApplyAll(sw + rest, msgs) == ApplyAll(sw, msgs) + rest
    ensures ApplyAll(rest + sw, msgs) == rest + ApplyAll(sw, msgs)
  {
    if msgs != [] {
      var init, m := msgs[..|msgs| - 1], msgs[|msgs| - 1];
      ApplyAllFrame(sw, rest, init, keys);
      assert m in msgs;
      ApplyFrame(ApplyAll(sw, init), rest, m);
    }
  }

  /** `installed_flow_mod`: MODIFY_STRICT cannot change a cookie, so ADD is
      used when the cookie differs. */
  function ModMsg(k: Key, was: Content, now: Content): FlowMod {
    if was.cookie != now.cookie then Add(k, now) else ModifyStrict(k, now.actions)
  }

  lemma ModMsgReplaces(sw: Switch, k: Key, now: Content)
    requires k in sw
    ensures Apply(sw, ModMsg(k, sw[k], now)) == sw[k := now]
  {
  }

  // ----------------------------------------------------------- the tables

  type Id = nat

  datatype Flow = Flow(key: Key, content: Content)

  datatype Installed = Installed(content: Content, refs: seq<Id>)

  /** A desired flow table together with the installed table it feeds.

      flows      every `struct desired_flow` that has not been destroyed
      live       those in `match_flow_table`; a flow outside it is `is_deleted`
      linked     those whose `installed_flow` is not NULL
      tracked    `tracked_flows`, oldest change first
      installed  the installed flow of each key, with its `desired_refs` */
  datatype Core = Core(
    flows: map<Id, Flow>,
    live: set<Id>,
    linked: set<Id>,
    tracked: seq<Id>,
    changeTracked: bool,
    installed: map<Key, Installed>,
    nextId: Id)

  function RankOf(flows: map<Id, Flow>, d: Id): nat
    requires d in flows
  {
    Rank(flows[d].content.actions)
  }

  predicate Conj(flows: map<Id, Flow>, d: Id) {
    d in flows && HasConj(flows[d].content.actions)
  }

  function Contents(installed: map<Key, Installed>): Switch {
    map k | k in installed :: installed[k].content
  }

  ghost predicate Sorted(flows: map<Id, Flow>, refs: seq<Id>) {
    && (forall d | d in refs :: d in flows)
    && forall i, j | 0 <= i < j < |refs| :: RankOf(flows, refs[i]) <= RankOf(flows, refs[j])
  }

  ghost predicate AtMostOneConj(flows: map<Id, Flow>, ds: seq<Id>) {
    forall a, b | a in ds && b in ds && Conj(flows, a) && Conj(flows, b) :: a == b
  }

  /** `desired_refs` of an installed flow is exactly the flows linked to it. */
  ghost predicate RefsOk(flows: map<Id, Flow>, linked: set<Id>, k: Key, refs: seq<Id>) {
    && NoDup(refs)
    && (forall d :: d in refs <==> d in linked && d in flows && flows[d].key == k)
  }

  ghost predicate LinksOk(flows: map<Id, Flow>, linked: set<Id>, installed: map<Key, Installed>) {
    && linked <= flows.Keys
    && (forall d | d in linked :: flows[d].key in installed)
    && (forall k | k in installed :: RefsOk(flows, linked, k, installed[k].refs))
  }

  /** At most one conjunctive flow of each key is in the match table. */
  ghost predicate OneLiveConj(flows: map<Id, Flow>, live: set<Id>) {
    && live <= flows.Keys
    && forall a, b | a in live && b in live && Conj(flows, a) && Conj(flows, b) && flows[a].key == flows[b].key ::
      a == b
  }

  ghost predicate ListOk(flows: map<Id, Flow>, tracked: seq<Id>) {
    NoDup(tracked) && forall d | d in tracked :: d in flows
  }

  ghost predicate Allocated(flows: map<Id, Flow>, nextId: Id) {
    forall d | d in flows :: d < nextId
  }

  /** What holds whether or not changes are being tracked. */
  ghost predicate WellFormed(c: Core) {
    && Allocated(c.flows, c.nextId)
    && OneLiveConj(c.flows, c.live)
    && LinksOk(c.flows, c.linked, c.installed)
    && ListOk(c.flows, c.tracked)
  }

  /** An installed flow shows its active flow, the first of its refs, unless
      that one still has a tracked change. */
  ghost predicate InstalledOk(flows: map<Id, Flow>, tracked: seq<Id>, i: Installed) {
    && i.refs != []
    && Sorted(flows, i.refs)
    && AtMostOneConj(flows, i.refs)
    && (i.refs[0] !in tracked ==> i.content == flows[i.refs[0]].content)
  }

  /** A live conjunctive flow waiting to be linked, queued ahead of a deleted
      conjunctive flow of the same key, would be linked beside it. */
  ghost predicate Overtakes(c: Core, a: Id, b: Id) {
    && a in c.live && a !in c.linked && Conj(c.flows, a)
    && b !in c.live && Conj(c.flows, b)
    && c.flows[a].key == c.flows[b].key
  }

  ghost predicate Ordered(c: Core) {
    forall i, j | 0 <= i < j < |c.tracked| :: !Overtakes(c, c.tracked[i], c.tracked[j])
  }

  /** Which flows are tracked: a deleted flow is tracked and still linked, a
      flow not linked yet is tracked, and only a conjunctive flow is tracked
      while linked. */
  ghost predicate Tracks(c: Core) {
    && (forall d | d in c.flows && d !in c.live :: d in c.tracked && d in c.linked)
    && (forall d | d in c.live && d !in c.linked :: d in c.tracked)
    && (forall d | d in c.live && d in c.linked && d in c.tracked :: Conj(c.flows, d))
  }

  ghost predicate AllInstalledOk(flows: map<Id, Flow>, tracked: seq<Id>, installed: map<Key, Installed>) {
    forall k | k in installed :: InstalledOk(flows, tracked, installed[k])
  }

  ghost predicate Inv(c: Core) {
    && WellFormed(c)
    && if c.changeTracked
       then Tracks(c) && AllInstalledOk(c.flows, c.tracked, c.installed) && Ordered(c)
       else c.tracked == [] && c.flows.Keys == c.live
  }

  /** What clearing a table needs: every deleted flow is still tracked. */
  ghost predicate CanClear(c: Core) {
    WellFormed(c) && forall d | d in c.flows && d !in c.live :: d in c.tracked
  }

  // ------------------------------------------------- what a put must reach

  ghost predicate MostPreferred(c: Core, d: Id)
    requires c.live <= c.flows.Keys
  {
    && d in c.live
    && forall e | e in c.live && c.flows[e].key == c.flows[d].key :: RankOf(c.flows, d) <= RankOf(c.flows, e)
  }

  ghost predicate Shows(c: Core, k: Key, x: Content)
    requires c.live <= c.flows.Keys
  {
    exists d :: d in c.live && c.flows[d] == Flow(k, x) && MostPreferred(c, d)
  }

  ghost function DesiredKeys(c: Core): set<Key>
    requires c.live <= c.flows.Keys
  {
    set d | d in c.live :: c.flows[d].key
  }

  /** `sw` holds exactly the desired keys, each with the actions and cookie of
      a desired flow of that key of the most preferred class. */
  ghost predicate Realizes(sw: Switch, c: Core)
    requires c.live <= c.flows.Keys
  {
    && sw.Keys == DesiredKeys(c)
    && forall k | k in sw :: Shows(c, k, sw[k])
  }

  /** A live flow of the key that allows. */
  ghost predicate SomeAllows(c: Core, k: Key) {
    exists d | d in c.live :: d in c.flows && c.flows[d].key == k && Allows(c.flows[d].content.actions)
  }

  ghost predicate SomeDrops(c: Core, k: Key) {
    exists d | d in c.live :: d in c.flows && c.flows[d].key == k && c.flows[d].content.actions == []
  }

  /** Every desired key has an entry, and it is the least restrictive that a flow
      of the key asks for: it allows if one allows, otherwise drops if one drops,
      and otherwise has the conjunctions. */
  ghost predicate LeastRestrictive(sw: Switch, c: Core) {
    forall d | d in c.live && d in c.flows ::
      var k := c.flows[d].key;
      && k in sw
      && if SomeAllows(c, k) then Allows(sw[k].actions)
         else if SomeDrops(c, k) then sw[k].actions == []
         else exists x | x in sw[k].actions :: x.Conjunction?
  }

  lemma RealizesLeast(sw: Switch, c: Core)
    requires c.live <= c.flows.Keys && Realizes(sw, c)
    ensures LeastRestrictive(sw, c)
  {
    forall d | d in c.live ensures var k := c.flows[d].key;
      && k in sw
      && if SomeAllows(c, k) then Allows(sw[k].actions)
         else if SomeDrops(c, k) then sw[k].actions == []
         else exists x | x in sw[k].actions :: x.Conjunction?
    {
      var k := c.flows[d].key;
      assert k in DesiredKeys(c) && Shows(c, k, sw[k]);
      var e :| e in c.live && c.flows[e] == Flow(k, sw[k]) && MostPreferred(c, e);
      RankMeans(sw[k].actions);
      if SomeAllows(c, k) {
        var f :| f in c.live && c.flows[f].key == k && Allows(c.flows[f].content.actions);
        RankMeans(c.flows[f].content.actions);
      } else if SomeDrops(c, k) {
        var f :| f in c.live && c.flows[f].key == k && c.flows[f].content.actions == [];
        RankMeans(c.flows[f].content.actions);
      }
    }
  }

  lemma RankMeans(a: seq<Action>)
    ensures Rank(a) == 0 <==> Allows(a)
    ensures Rank(a) == 1 <==> a == []
    ensures Rank(a) <= 2
    ensures Rank(a) == 2 <==> exists x | x in a :: x.Conjunction?
  {
  }

  /** The desired flows of `c` and `c'` are the same. */
  ghost predicate SameDesired(c: Core, c': Core) {
    && c'.live == c.live
    && c.live <= c.flows.Keys
    && c'.live <= c'.flows.Keys
    && forall d | d in c.live :: c'.flows[d] == c.flows[d]
  }
}
