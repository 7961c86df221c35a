/** controller/if-status.c: when a logical port may be reported up. */
module IfStatus {
  import opened Options
  import opened Ints
  import opened Seqno

  type IfaceId = string

  datatype IfState = Claimed | InstallFlows | RemOldOvnInst | MarkUp | Installed | MarkDown | UpdatePort

  /** `struct ovs_iface`, as far as the state machine goes. */
  datatype Iface = Iface(state: IfState, installSeqno: nat, isVif: bool)

  /** What the binding module and the databases answer during one call. */
  datatype Env = Env(
    hasBindings: bool,
    sbReadonly: bool,
    ovnInstalled: set<IfaceId>,
    chassisSet: set<IfaceId>,
    postponed: set<IfaceId>,
    up: set<IfaceId>,
    bound: set<IfaceId>,
    down: set<IfaceId>)

  // ------------------------------------------------- one interface at a time

  /** `ovs_iface_set_state` also forgets the sequence number. */
  function Moved(f: Iface, s: IfState): Iface {
    f.(state := s, installSeqno := 0)
  }

  /** The up state is confirmed by the binding module. */
  predicate Confirmed(env: Env, i: IfaceId, f: Iface) {
    && (i in env.chassisSet || (!env.sbReadonly && !(f.isVif && i in env.postponed)))
    && i in env.up
  }

  // The passes of if_status_mgr_update over the interfaces of one state.

  function PassRemOld(env: Env, i: IfaceId, f: Iface): Option<Iface> {
    if f.state.RemOldOvnInst? && i !in env.ovnInstalled then Some(Moved(f, MarkUp)) else Some(f)
  }

  function PassMarkUp(env: Env, i: IfaceId, f: Iface): Option<Iface> {
    if f.state.MarkUp? && Confirmed(env, i, f) then Some(Moved(f, Installed)) else Some(f)
  }

  function PassMarkDown(env: Env, i: IfaceId, f: Iface): Option<Iface> {
    if !f.state.MarkDown? then Some(f)
    else if i !in env.bound then Some(Moved(f, UpdatePort))
    else if i in env.down then None
    else Some(f)
  }

  function PassClaimed(env: Env, seqno: nat, f: Iface): Option<Iface> {
    if !f.state.Claimed? || env.sbReadonly then Some(f)
    else if f.isVif then Some(Moved(f, InstallFlows).(installSeqno := seqno))
    else Some(Moved(f, MarkUp))
  }

  function PassUpdatePort(env: Env, f: Iface): Option<Iface> {
    if f.state.UpdatePort? && !env.sbReadonly then None else Some(f)
  }

  datatype Pass = RemOldPass | MarkUpPass | MarkDownPass | ClaimedPass | UpdatePortPass

  function PassState(p: Pass): IfState {
    match p
    case RemOldPass => RemOldOvnInst
    case MarkUpPass => MarkUp
    case MarkDownPass => MarkDown
    case ClaimedPass => Claimed
    case UpdatePortPass => UpdatePort
  }

  function Apply(p: Pass, env: Env, seqno: nat, i: IfaceId, f: Iface): Option<Iface> {
    match p
    case RemOldPass => PassRemOld(env, i, f)
    case MarkUpPass => PassMarkUp(env, i, f)
    case MarkDownPass => PassMarkDown(env, i, f)
    case ClaimedPass => PassClaimed(env, seqno, f)
    case UpdatePortPass => PassUpdatePort(env, f)
  }

  function ApplyAll(p: Pass, env: Env, seqno: nat, ifaces: map<IfaceId, Iface>): map<IfaceId, Iface> {
    map i | i in ifaces && Apply(p, env, seqno, i, ifaces[i]).Some? :: Apply(p, env, seqno, i, ifaces[i]).value
  }

  /** `if_status_mgr_update` on the interfaces: the passes in turn. */
  function AfterUpdate(env: Env, seqno: nat, ifaces: map<IfaceId, Iface>): map<IfaceId, Iface> {
    var a := ApplyAll(RemOldPass, env, seqno, ifaces);
    var b := ApplyAll(MarkUpPass, env, seqno, a);
    var c := ApplyAll(MarkDownPass, env, seqno, b);
    var d := ApplyAll(ClaimedPass, env, seqno, c);
    ApplyAll(UpdatePortPass, env, seqno, d)
  }

  /** Interfaces whose flows the next request is about. */
  function NewlyClaimed(env: Env, ifaces: map<IfaceId, Iface>): set<IfaceId> {
    if env.sbReadonly then {} else set i | i in ifaces && ifaces[i].state.Claimed? && ifaces[i].isVif
  }

  /** The loop of `if_status_mgr_run`: interfaces whose request was acked. */
  function AfterAck(env: Env, acked: seq<nat>, ifaces: map<IfaceId, Iface>): map<IfaceId, Iface> {
    map i | i in ifaces :: AckOne(env, acked, i, ifaces[i])
  }

  function AckOne(env: Env, acked: seq<nat>, i: IfaceId, f: Iface): Iface {
    if !f.state.InstallFlows? || f.installSeqno !in acked then f
    else if !env.hasBindings || i in env.ovnInstalled then Moved(f, RemOldOvnInst)
    else Moved(f, MarkUp)
  }

  /** What the passes, in that order, decide about one interface. */
  function Decide(env: Env, seqno: nat, i: IfaceId, f: Iface): Option<Iface> {
    match f.state
    case Claimed =>
      if env.sbReadonly then Some(f)
      else if f.isVif then Some(Iface(InstallFlows, seqno, true))
      else Some(Moved(f, MarkUp))
    case InstallFlows => Some(f)
    case RemOldOvnInst =>
      if i in env.ovnInstalled then Some(f)
      else if Confirmed(env, i, f) then Some(Moved(f, Installed))
      else Some(Moved(f, MarkUp))
    case MarkUp => if Confirmed(env, i, f) then Some(Moved(f, Installed)) else Some(f)
    case Installed => Some(f)
    case MarkDown =>
      if i in env.bound && i in env.down then None
      else if i in env.bound then Some(f)
      else if env.sbReadonly then Some(Moved(f, UpdatePort))
      else None
    case UpdatePort => if env.sbReadonly then Some(f) else None
  }

  function Decided(env: Env, seqno: nat, ifaces: map<IfaceId, Iface>): map<IfaceId, Iface> {
    map i | i in ifaces && Decide(env, seqno, i, ifaces[i]).Some? :: Decide(env, seqno, i, ifaces[i]).value
  }

  function Then(p: Pass, env: Env, seqno: nat, i: IfaceId, o: Option<Iface>): Option<Iface> {
    if o.None? then None else Apply(p, env, seqno, i, o.value)
  }

  function At(ifaces: map<IfaceId, Iface>, i: IfaceId): Option<Iface> {
    if i in ifaces then Some(ifaces[i]) else None
  }

  lemma ThenAt(p: Pass, env: Env, seqno: nat, ifaces: map<IfaceId, Iface>, i: IfaceId)
    ensures At(ApplyAll(p, env, seqno, ifaces), i) == Then(p, env, seqno, i, At(ifaces, i))
  {
  }

  lemma ThenDecide(env: Env, seqno: nat, i: IfaceId, f: Iface)
    ensures var a := Then(RemOldPass, env, seqno, i, Some(f));
      var b := Then(MarkUpPass, env, seqno, i, a);
      var c := Then(MarkDownPass, env, seqno, i, b);
      var d := Then(ClaimedPass, env, seqno, i, c);
      Then(UpdatePortPass, env, seqno, i, d) == Decide(env, seqno, i, f)
  {
  }

  lemma PassesDecideAt(env: Env, seqno: nat, ifaces: map<IfaceId, Iface>, i: IfaceId)
    ensures At(AfterUpdate(env, seqno, ifaces), i) == if i in ifaces then Decide(env, seqno, i, ifaces[i]) else None
  {
    var a := ApplyAll(RemOldPass, env, seqno, ifaces);
    var b := ApplyAll(MarkUpPass, env, seqno, a);
    var c := ApplyAll(MarkDownPass, env, seqno, b);
    var d := ApplyAll(ClaimedPass, env, seqno, c);
    ThenAt(RemOldPass, env, seqno, ifaces, i);
    ThenAt(MarkUpPass, env, seqno, a, i);
    ThenAt(MarkDownPass, env, seqno, b, i);
    ThenAt(ClaimedPass, env, seqno, c, i);
    ThenAt(UpdatePortPass, env, seqno, d, i);
    if i in ifaces {
      ThenDecide(env, seqno, i, ifaces[i]);
    }
  }

  /** The five passes together make one decision per interface. */
  lemma PassesDecide(env: Env, seqno: nat, ifaces: map<IfaceId, Iface>)
    ensures AfterUpdate(env, seqno, ifaces) == Decided(env, seqno, ifaces)
  {
    var e, d := AfterUpdate(env, seqno, ifaces), Decided(env, seqno, ifaces);
    forall i
      ensures At(e, i) == At(d, i)
    {
      PassesDecideAt(env, seqno, ifaces, i);
    }
    assert forall i :: i in e <==> At(e, i).Some?;
    assert forall i :: i in d <==> At(d, i).Some?;
    assert forall i | i in e :: At(e, i).value == e[i];
  }

  /** Only an acked request takes an interface out of INSTALL_FLOWS: to MARK_UP if
      its `ovn-installed` is known to be absent, and otherwise to have it removed. */
  lemma AfterAckOne(env: Env, acked: seq<nat>, ifaces: map<IfaceId, Iface>, i: IfaceId)
    requires i in ifaces
    ensures var f, f' := ifaces[i], AfterAck(env, acked, ifaces)[i];
      && f'.isVif == f.isVif
      && (f'.state.InstallFlows? <==> f.state.InstallFlows? && f.installSeqno !in acked)
      && (!(f.state.InstallFlows? && f.installSeqno in acked) ==> f' == f)
      && (f.state.InstallFlows? && f.installSeqno in acked ==>
            f'.state == if env.hasBindings && i !in env.ovnInstalled then MarkUp else RemOldOvnInst)
  {
  }

  // --------------------------------------------- requests and interfaces together

  /** Requests of the manager are numbered from 1; the code keeps the number in
      32 bits. Those not handed out yet are the last ones, in order. */
  ghost predicate Window(pending: seq<nat>, total: nat) {
    && |pending| <= total && |pending| <= UINT32
    && forall i | 0 <= i < |pending| :: pending[i] == (total - (|pending| - 1 - i)) % UINT32
  }

  lemma SameResidue(a: nat, b: nat)
    requires a % UINT32 == b % UINT32 && a < b + UINT32 && b < a + UINT32
    ensures a == b
  {
  }

  /** Request `e` is not in flight any more: the switch has caught up with it. */
  ghost predicate Answered(e: nat, inFlight: nat, total: nat) {
    e + inFlight <= total
  }

  ghost predicate IsUp(f: Iface) {
    f.state.RemOldOvnInst? || f.state.MarkUp? || f.state.Installed?
  }

  /** `entry`: the request of an interface's latest entry into INSTALL_FLOWS.
      `vifOnly`: interfaces that were always claimed as a vif.

      No wake-up is lost: an interface in INSTALL_FLOWS has its request pending,
      that is in flight or acked and not handed out. And an interface that was
      always claimed as a vif gets past INSTALL_FLOWS only by its request. */
  ghost predicate WakeUps(ifaces: map<IfaceId, Iface>, vifOnly: set<IfaceId>, entry: map<IfaceId, nat>,
                          pending: nat, inFlight: nat, total: nat) {
    && (forall i | i in ifaces && ifaces[i].state.InstallFlows? ::
          i in entry && total < entry[i] + pending && entry[i] <= total && ifaces[i].installSeqno == entry[i] % UINT32)
    && (forall i | i in vifOnly :: i in ifaces && ifaces[i].isVif)
    && (forall i | i in vifOnly && i in ifaces && IsUp(ifaces[i]) :: i in entry && Answered(entry[i], inFlight, total))
  }

  /** Handing out the acked requests wakes exactly the interfaces whose own
      request was acked. */
  lemma AckWakeUps(env: Env, ifaces: map<IfaceId, Iface>, vifOnly: set<IfaceId>, entry: map<IfaceId, nat>,
                   acked: seq<nat>, flight: seq<nat>, total: nat)
    requires Window(acked + flight, total) && WakeUps(ifaces, vifOnly, entry, |acked| + |flight|, |flight|, total)
    ensures Window(flight, total)
    ensures WakeUps(AfterAck(env, acked, ifaces), vifOnly, entry, |flight|, |flight|, total)
    ensures forall i | i in ifaces && ifaces[i].state.InstallFlows? ::
      ifaces[i].installSeqno in acked <==> Answered(entry[i], |flight|, total)
  {
    var n, m := |acked| + |flight|, |flight|;
    var pending := acked + flight;
    forall i | 0 <= i < m ensures flight[i] == (total - (m - 1 - i)) % UINT32 {
      assert pending[|acked| + i] == flight[i];
    }
    forall i | i in ifaces && ifaces[i].state.InstallFlows?
      ensures ifaces[i].installSeqno in acked <==> Answered(entry[i], m, total)
    {
      OwnRequest(entry[i], acked, flight, total);
    }
    forall i | i in ifaces ensures var f' := AfterAck(env, acked, ifaces)[i];
      f'.isVif == ifaces[i].isVif && (f'.state.InstallFlows? ==> f' == ifaces[i] && ifaces[i].installSeqno !in acked)
    {
      AfterAckOne(env, acked, ifaces, i);
    }
  }

  lemma OwnRequest(e: nat, acked: seq<nat>, flight: seq<nat>, total: nat)
    requires Window(acked + flight, total) && total < e + |acked| + |flight| && e <= total
    ensures e % UINT32 in acked <==> Answered(e, |flight|, total)
  {
    var n := |acked| + |flight|;
    var pending := acked + flight;
    if e % UINT32 in acked {
      var j :| 0 <= j < |acked| && acked[j] == e % UINT32;
      assert pending[j] == acked[j];
      SameResidue(e, total - (n - 1 - j));
    }
    if Answered(e, |flight|, total) {
      var j := e + n - 1 - total;
      assert pending[j] == acked[j] == e % UINT32;
    }
  }

  function EntryAfter(env: Env, ifaces: map<IfaceId, Iface>, entry: map<IfaceId, nat>, e: nat): map<IfaceId, nat> {
    map i | i in entry.Keys + NewlyClaimed(env, ifaces) :: if i in NewlyClaimed(env, ifaces) then e else entry[i]
  }

  /** An update that finds no newly claimed interface makes no request. */
  lemma QuietWakeUps(env: Env, ifaces: map<IfaceId, Iface>, vifOnly: set<IfaceId>, entry: map<IfaceId, nat>,
                     pending: nat, inFlight: nat, total: nat, seqno: nat)
    requires WakeUps(ifaces, vifOnly, entry, pending, inFlight, total) && NewlyClaimed(env, ifaces) == {}
    ensures var ifaces' := Decided(env, seqno, ifaces);
      WakeUps(ifaces', vifOnly * ifaces'.Keys, entry, pending, inFlight, total)
  {
    var ifaces' := Decided(env, seqno, ifaces);
    forall i | i in ifaces' && ifaces'[i].state.InstallFlows? ensures ifaces'[i] == ifaces[i] {
      assert i !in NewlyClaimed(env, ifaces);
    }
  }

  /** A request for the newly claimed interfaces is made. */
  lemma RequestWakeUps(env: Env, ifaces: map<IfaceId, Iface>, vifOnly: set<IfaceId>, entry: map<IfaceId, nat>,
                       pending: nat, inFlight: nat, total: nat)
    requires WakeUps(ifaces, vifOnly, entry, pending, inFlight, total)
    ensures var ifaces' := Decided(env, (total + 1) % UINT32, ifaces);
      WakeUps(ifaces', vifOnly * ifaces'.Keys, EntryAfter(env, ifaces, entry, total + 1),
              pending + 1, inFlight + 1, total + 1)
  {
  }

  lemma NextSeqno(total: nat)
    ensures (total % UINT32 + 1) % UINT32 == (total + 1) % UINT32 != total % UINT32
  {
  }

  lemma WindowPush(pending: seq<nat>, total: nat)
    requires Window(pending, total) && |pending| < UINT32
    ensures Window(pending + [(total + 1) % UINT32], total + 1)
  {
  }

  /** The state of requests and interfaces between calls. */
  ghost predicate Ready(ifaces: map<IfaceId, Iface>, vifOnly: set<IfaceId>, entry: map<IfaceId, nat>,
                        pending: seq<Update>, inFlight: nat, total: nat) {
    && Window(Reqs(pending), total)
    && WakeUps(ifaces, vifOnly, entry, |pending|, inFlight, total)
  }

  lemma QuietReady(env: Env, ifaces: map<IfaceId, Iface>, vifOnly: set<IfaceId>, entry: map<IfaceId, nat>,
                   pending: seq<Update>, inFlight: nat, total: nat, seqno: nat)
    requires Ready(ifaces, vifOnly, entry, pending, inFlight, total) && NewlyClaimed(env, ifaces) == {}
    ensures var ifaces' := Decided(env, seqno, ifaces);
      Ready(ifaces', vifOnly * ifaces'.Keys, entry, pending, inFlight, total)
  {
    QuietWakeUps(env, ifaces, vifOnly, entry, |pending|, inFlight, total, seqno);
  }

  lemma RequestReady(env: Env, ifaces: map<IfaceId, Iface>, vifOnly: set<IfaceId>, entry: map<IfaceId, nat>,
                     pending: seq<Update>, u: Update, inFlight: nat, total: nat)
    requires Ready(ifaces, vifOnly, entry, pending, inFlight, total) && |pending| < UINT32
    requires u.reqCfg == (total + 1) % UINT32
    ensures var ifaces' := Decided(env, u.reqCfg, ifaces);
      Ready(ifaces', vifOnly * ifaces'.Keys, EntryAfter(env, ifaces, entry, total + 1),
            pending + [u], inFlight + 1, total + 1)
  {
    RequestWakeUps(env, ifaces, vifOnly, entry, |pending|, inFlight, total);
    WindowPush(Reqs(pending), total);
    ReqsConcat(pending, [u]);
  }
}
