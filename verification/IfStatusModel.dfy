/** The interface manager of controller/if-status.c together with its requests to
    controller/ofctrl-seqno.c, as a state machine over values. */
module IfStatusModel {
  import opened Options
  import opened Ints
  import opened Lists
  import opened Seqno
  import opened IfStatus

  /** The manager's interfaces and the static data of ofctrl-seqno.c; and for the
      claims, of this manager:
      `total`: how many requests it has made;
      `made`: the configurations of those since the last flush;
      `entry`: the number of the request of an interface's latest entry into
      INSTALL_FLOWS;
      `vifOnly`: the interfaces that were always claimed as a vif. */
  datatype Mgr = Mgr(
    ifaces: map<IfaceId, Iface>,
    track: Tracking,
    total: nat,
    made: seq<nat>,
    entry: map<IfaceId, nat>,
    vifOnly: set<IfaceId>)

  datatype MgrEvent =
    | ClaimEvent(iface: IfaceId, isVif: bool)
    | ReleaseEvent(iface: IfaceId)
    | UpdateEvent(env: Env)
    | RunEvent(env: Env)
    | SeqnoRunEvent(flowCfg: nat)
    | OtherCreateEvent(seqnoType: nat, cfg: nat)
    | OtherGetEvent(seqnoType: nat)
    | ConnectionLostEvent
    | IdleEvent

  /** Requests of type `t` that are in flight. */
  function InFlight(k: Tracking, t: nat): seq<Update> {
    OfType(k.updates, t)
  }

  /** Requests of type `t` that are in flight, or acked and not handed out. */
  function Pending(k: Tracking, t: nat): seq<Update>
    requires t < |k.states|
  {
    k.states[t].acked + InFlight(k, t)
  }

  // ---------------------------------------------------------------- one event

  /** `if_status_mgr_claim_iface` on the interfaces. */
  function AfterClaim(ifaces: map<IfaceId, Iface>, i: IfaceId, isVif: bool): map<IfaceId, Iface> {
    if i !in ifaces then ifaces[i := Iface(Claimed, 0, isVif)]
    else
      var f := ifaces[i].(isVif := isVif);
      ifaces[i := if f.state.Installed? || f.state.MarkDown? || f.state.UpdatePort? then Moved(f, Claimed) else f]
  }

  function VifOnlyAfterClaim(ifaces: map<IfaceId, Iface>, vifOnly: set<IfaceId>, i: IfaceId, isVif: bool)
    : set<IfaceId>
  {
    if !isVif then vifOnly - {i} else if i in ifaces then vifOnly else vifOnly + {i}
  }

  /** `if_status_mgr_release_iface` on the interfaces. */
  function AfterRelease(ifaces: map<IfaceId, Iface>, i: IfaceId): map<IfaceId, Iface> {
    if i !in ifaces || ifaces[i].state.MarkDown? || ifaces[i].state.UpdatePort? then ifaces
    else ifaces[i := Moved(ifaces[i], MarkDown)]
  }

  /** `if_status_mgr_update`: at most one request, for all newly claimed
      interfaces. */
  function AfterUpdated(s: Mgr, t: nat, env: Env): Mgr
    requires t < |s.track.states|
  {
    var seqno := (s.total + 1) % UINT32;
    var ifaces := Decided(env, seqno, s.ifaces);
    var s1 := s.(ifaces := ifaces, vifOnly := s.vifOnly * ifaces.Keys);
    if NewlyClaimed(env, s.ifaces) == {} then s1
    else s1.(track := Created(s.track, t, seqno), total := s.total + 1, made := s.made + [s.track.reqSeqno + 1],
             entry := EntryAfter(env, s.ifaces, s.entry, s.total + 1))
  }

  /** With fewer than 2^32 requests pending, the 32-bit numbers of pending
      requests are all different; more than that are not modelled. */
  predicate Updates(s: Mgr, t: nat, env: Env)
    requires t < |s.track.states|
  {
    env.hasBindings && |Pending(s.track, t)| < UINT32
  }

  function After(s: Mgr, t: nat, ev: MgrEvent): Mgr
    requires t < |s.track.states|
  {
    match ev
    case ClaimEvent(i, isVif) =>
      s.(ifaces := AfterClaim(s.ifaces, i, isVif), vifOnly := VifOnlyAfterClaim(s.ifaces, s.vifOnly, i, isVif))
    case ReleaseEvent(i) => s.(ifaces := AfterRelease(s.ifaces, i))
    case UpdateEvent(env) => if Updates(s, t, env) then AfterUpdated(s, t, env) else s
    case RunEvent(env) =>
      s.(ifaces := AfterAck(env, Reqs(s.track.states[t].acked), s.ifaces), track := HandedOut(s.track, t))
    case SeqnoRunEvent(f) => s.(track := Ran(s.track, f))
    case OtherCreateEvent(o, cfg) => if o < |s.track.states| && o != t then s.(track := Created(s.track, o, cfg)) else s
    case OtherGetEvent(o) => if o < |s.track.states| && o != t then s.(track := HandedOut(s.track, o)) else s
    case ConnectionLostEvent => Mgr(map[], Flushed(s.track), s.total, [], map[], {})
    case IdleEvent => s
  }

  // ------------------------------------------------------------- what is kept

  ghost predicate TrackOk(k: Tracking) {
    && InOrder(k.updates)
    && forall u | u in k.updates :: u.flowCfg <= k.reqSeqno && u.seqnoType < |k.states|
  }

  /** Of the requests made, the last ones are pending. */
  ghost predicate MadeOk(made: seq<nat>, pending: seq<Update>, reqSeqno: nat) {
    && |pending| <= |made| && Increasing(made) && (forall c | c in made :: c <= reqSeqno)
    && forall j | 0 <= j < |pending| :: pending[j].flowCfg == made[|made| - |pending| + j]
  }

  ghost predicate EntriesOk(entry: map<IfaceId, nat>, made: seq<nat>, total: nat) {
    |made| <= total && forall i | i in entry :: total < entry[i] + |made| && entry[i] <= total
  }

  /** No two requests have the same configuration. */
  ghost predicate Owned(made: seq<nat>, updates: seq<Update>, t: nat) {
    forall u | u in updates && u.flowCfg in made :: u.seqnoType == t
  }

  ghost predicate RequestsOk(s: Mgr, t: nat) {
    && TrackOk(s.track) && t < |s.track.states| && s.track.states[t].reqCfg == s.total % UINT32
    && Owned(s.made, s.track.updates, t)
    && MadeOk(s.made, Pending(s.track, t), s.track.reqSeqno) && EntriesOk(s.entry, s.made, s.total)
  }

  ghost predicate IfacesOk(s: Mgr, t: nat) {
    && t < |s.track.states|
    && Ready(s.ifaces, s.vifOnly, s.entry, Pending(s.track, t), |InFlight(s.track, t)|, s.total)
  }

  ghost predicate Ok(s: Mgr, t: nat) {
    RequestsOk(s, t) && IfacesOk(s, t)
  }

  /** The configuration of request number `e`. */
  function CfgOf(made: seq<nat>, total: nat, e: nat): nat
    requires |made| <= total < e + |made| && e <= total
  {
    made[e + |made| - total - 1]
  }

  /** A request with fewer than all later ones in flight is not in flight. */
  lemma AnsweredCfg(made: seq<nat>, acked: seq<Update>, inFlight: seq<Update>, reqSeqno: nat, total: nat, e: nat)
    requires MadeOk(made, acked + inFlight, reqSeqno) && |made| <= total < e + |made| && e <= total
    requires Answered(e, |inFlight|, total)
    ensures forall u | u in inFlight :: u.flowCfg != CfgOf(made, total, e)
  {
    forall j | 0 <= j < |inFlight| ensures inFlight[j].flowCfg != CfgOf(made, total, e) {
      assert (acked + inFlight)[|acked| + j] == inFlight[j];
      assert e + |made| - total - 1 < |made| - |inFlight| + j;
    }
  }

  lemma ClaimWakeUps(ifaces: map<IfaceId, Iface>, vifOnly: set<IfaceId>, entry: map<IfaceId, nat>,
                     pending: nat, inFlight: nat, total: nat, i: IfaceId, isVif: bool)
    requires WakeUps(ifaces, vifOnly, entry, pending, inFlight, total)
    ensures WakeUps(AfterClaim(ifaces, i, isVif), VifOnlyAfterClaim(ifaces, vifOnly, i, isVif), entry,
                    pending, inFlight, total)
  {
  }

  lemma CreateTrack(k: Tracking, t: nat, cfg: nat)
    requires TrackOk(k) && t < |k.states|
    ensures TrackOk(Created(k, t, cfg))
  {
    assert forall i | 0 <= i < |k.updates| :: k.updates[i] in k.updates;
  }

  lemma CreateOwned(k: Tracking, o: nat, cfg: nat, made: seq<nat>, t: nat)
    requires TrackOk(k) && o < |k.states| && cfg != k.states[o].reqCfg
    requires Owned(made, k.updates, t) && forall c | c in made :: c <= k.reqSeqno
    ensures Owned(if o == t then made + [k.reqSeqno + 1] else made, Created(k, o, cfg).updates, t)
  {
    forall u | u in Created(k, o, cfg).updates ensures u in k.updates || u == Update(o, k.reqSeqno + 1, cfg) {
    }
  }

  lemma CreateInFlight(k: Tracking, o: nat, cfg: nat, t: nat)
    requires o < |k.states| && t < |k.states| && cfg != k.states[o].reqCfg
    ensures var u, k' := Update(o, k.reqSeqno + 1, cfg), Created(k, o, cfg);
      && InFlight(k', t) == (if o == t then InFlight(k, t) + [u] else InFlight(k, t))
      && Pending(k', t) == (if o == t then Pending(k, t) + [u] else Pending(k, t))
  {
    OfTypePush(k.updates, Update(o, k.reqSeqno + 1, cfg), t);
  }

  lemma MadePush(made: seq<nat>, pending: seq<Update>, reqSeqno: nat, u: Update)
    requires MadeOk(made, pending, reqSeqno) && u.flowCfg == reqSeqno + 1
    ensures MadeOk(made + [reqSeqno + 1], pending + [u], reqSeqno + 1)
  {
    forall i | 0 <= i < |made| ensures made[i] <= reqSeqno { assert made[i] in made; }
  }

  lemma EntriesPush(env: Env, ifaces: map<IfaceId, Iface>, entry: map<IfaceId, nat>, made: seq<nat>, total: nat, c: nat)
    requires EntriesOk(entry, made, total)
    ensures EntriesOk(EntryAfter(env, ifaces, entry, total + 1), made + [c], total + 1)
  {
  }

  lemma MoreRequests(s: Mgr, t: nat, seqno: nat, s': Mgr, env: Env)
    requires TrackOk(s.track) && t < |s.track.states| && seqno != s.track.states[t].reqCfg
    requires MadeOk(s.made, Pending(s.track, t), s.track.reqSeqno) && EntriesOk(s.entry, s.made, s.total)
    requires Owned(s.made, s.track.updates, t)
    requires s'.track == Created(s.track, t, seqno) && s'.made == s.made + [s.track.reqSeqno + 1]
    requires s'.total == s.total + 1 && s'.entry == EntryAfter(env, s.ifaces, s.entry, s'.total)
    ensures TrackOk(s'.track) && MadeOk(s'.made, Pending(s'.track, t), s'.track.reqSeqno)
    ensures EntriesOk(s'.entry, s'.made, s'.total) && Owned(s'.made, s'.track.updates, t)
  {
    CreateTrack(s.track, t, seqno);
    CreateOwned(s.track, t, seqno, s.made, t);
    CreateInFlight(s.track, t, seqno, t);
    MadePush(s.made, Pending(s.track, t), s.track.reqSeqno, Update(t, s.track.reqSeqno + 1, seqno));
    EntriesPush(env, s.ifaces, s.entry, s.made, s.total, s.track.reqSeqno + 1);
  }

  lemma UpdateRequests(s: Mgr, t: nat, env: Env)
    requires RequestsOk(s, t)
    ensures RequestsOk(AfterUpdated(s, t, env), t)
  {
    var seqno := (s.total + 1) % UINT32;
    if NewlyClaimed(env, s.ifaces) != {} {
      assert seqno != s.track.states[t].reqCfg by { NextSeqno(s.total); }
      MoreRequests(s, t, seqno, AfterUpdated(s, t, env), env);
    }
  }

  lemma UpdateIfaces(s: Mgr, t: nat, env: Env)
    requires IfacesOk(s, t) && |Pending(s.track, t)| < UINT32 && s.track.states[t].reqCfg == s.total % UINT32
    ensures IfacesOk(AfterUpdated(s, t, env), t)
  {
    var seqno := (s.total + 1) % UINT32;
    if NewlyClaimed(env, s.ifaces) == {} {
      QuietReady(env, s.ifaces, s.vifOnly, s.entry, Pending(s.track, t), |InFlight(s.track, t)|, s.total, seqno);
    } else {
      assert seqno != s.track.states[t].reqCfg by { NextSeqno(s.total); }
      RequestIfaces(s, t, env, seqno, AfterUpdated(s, t, env));
    }
  }

  lemma RequestIfaces(s: Mgr, t: nat, env: Env, seqno: nat, s': Mgr)
    requires IfacesOk(s, t) && |Pending(s.track, t)| < UINT32
    requires seqno == (s.total + 1) % UINT32 != s.track.states[t].reqCfg
    requires s'.ifaces == Decided(env, seqno, s.ifaces) && s'.vifOnly == s.vifOnly * s'.ifaces.Keys
    requires s'.track == Created(s.track, t, seqno) && s'.total == s.total + 1
    requires s'.entry == EntryAfter(env, s.ifaces, s.entry, s'.total)
    ensures IfacesOk(s', t)
  {
    var u := Update(t, s.track.reqSeqno + 1, seqno);
    CreateInFlight(s.track, t, seqno, t);
    RequestReady(env, s.ifaces, s.vifOnly, s.entry, Pending(s.track, t), u, |InFlight(s.track, t)|, s.total);
  }

  lemma RanTrack(k: Tracking, f: nat)
    requires TrackOk(k)
    ensures TrackOk(Ran(k, f))
  {
    var n := SplitType(k.updates, f, 0);
    forall u | u in k.updates[n..] ensures u in k.updates {
    }
  }

  lemma RanPending(k: Tracking, f: nat, t: nat)
    requires InOrder(k.updates) && t < |k.states|
    ensures Pending(Ran(k, f), t) == Pending(k, t) && |InFlight(Ran(k, f), t)| <= |InFlight(k, t)|
  {
    var _ := SplitType(k.updates, f, t);
    var acked, done, rest := k.states[t].acked, OfType(UpTo(k.updates, f), t), InFlight(Ran(k, f), t);
    assert (acked + done) + rest == acked + (done + rest);
  }

  /** Fewer of the pending requests are in flight. */
  lemma FewerInFlight(ifaces: map<IfaceId, Iface>, vifOnly: set<IfaceId>, entry: map<IfaceId, nat>,
                      pending: seq<Update>, inFlight: nat, fewer: nat, total: nat)
    requires Ready(ifaces, vifOnly, entry, pending, inFlight, total) && fewer <= inFlight
    ensures Ready(ifaces, vifOnly, entry, pending, fewer, total)
  {
  }

  lemma SeqnoRunKeeps(s: Mgr, t: nat, f: nat)
    requires Ok(s, t)
    ensures Ok(s.(track := Ran(s.track, f)), t)
  {
    var k := s.track;
    RanTrack(k, f);
    RanPending(k, f, t);
    forall u | u in Ran(k, f).updates ensures u in k.updates {
      InUpTo(k.updates, f, u);
    }
    FewerInFlight(s.ifaces, s.vifOnly, s.entry, Pending(k, t), |InFlight(k, t)|, |InFlight(Ran(k, f), t)|, s.total);
  }

  lemma MadeDrop(made: seq<nat>, done: seq<Update>, rest: seq<Update>, reqSeqno: nat)
    requires MadeOk(made, done + rest, reqSeqno)
    ensures MadeOk(made, rest, reqSeqno)
  {
    forall j | 0 <= j < |rest| ensures rest[j].flowCfg == made[|made| - |rest| + j] {
      assert (done + rest)[|done| + j] == rest[j];
    }
  }

  lemma RunKeeps(s: Mgr, t: nat, env: Env)
    requires Ok(s, t)
    ensures Ok(After(s, t, RunEvent(env)), t)
    ensures forall i | i in s.ifaces && s.ifaces[i].state.InstallFlows? ::
      After(s, t, RunEvent(env)).ifaces[i].state.InstallFlows? <==>
        !Answered(s.entry[i], |InFlight(s.track, t)|, s.total)
  {
    var acked, flight := Reqs(s.track.states[t].acked), InFlight(s.track, t);
    ReqsConcat(s.track.states[t].acked, flight);
    AckWakeUps(env, s.ifaces, s.vifOnly, s.entry, acked, Reqs(flight), s.total);
    assert Pending(After(s, t, RunEvent(env)).track, t) == flight;
    MadeDrop(s.made, s.track.states[t].acked, flight, s.track.reqSeqno);
    forall i | i in s.ifaces ensures s.ifaces[i].state.InstallFlows? ==>
      (AfterAck(env, acked, s.ifaces)[i].state.InstallFlows? <==> s.ifaces[i].installSeqno !in acked)
    {
      AfterAckOne(env, acked, s.ifaces, i);
    }
  }

  lemma OtherKeeps(s: Mgr, t: nat, o: nat, cfg: nat)
    requires Ok(s, t) && o < |s.track.states| && o != t
    ensures Ok(s.(track := Created(s.track, o, cfg)), t)
  {
    CreateTrack(s.track, o, cfg);
    if cfg != s.track.states[o].reqCfg {
      CreateInFlight(s.track, o, cfg, t);
      CreateOwned(s.track, o, cfg, s.made, t);
    }
  }

  lemma ClaimKeeps(s: Mgr, t: nat, i: IfaceId, isVif: bool)
    requires Ok(s, t)
    ensures Ok(After(s, t, ClaimEvent(i, isVif)), t)
  {
    ClaimWakeUps(s.ifaces, s.vifOnly, s.entry, |Pending(s.track, t)|, |InFlight(s.track, t)|, s.total, i, isVif);
  }

  lemma ReleaseKeeps(s: Mgr, t: nat, i: IfaceId)
    requires Ok(s, t)
    ensures Ok(After(s, t, ReleaseEvent(i)), t)
  {
  }

  lemma FlushedTrack(k: Tracking, t: nat)
    requires t < |k.states|
    ensures var k' := Flushed(k);
      && TrackOk(k') && |k'.states| == |k.states| && k'.states[t].reqCfg == k.states[t].reqCfg
      && InFlight(k', t) == [] && Pending(k', t) == []
  {
  }

  lemma NothingReady(total: nat)
    ensures Ready(map[], {}, map[], [], 0, total)
  {
  }

  lemma LostKeeps(s: Mgr, t: nat)
    requires Ok(s, t)
    ensures Ok(After(s, t, ConnectionLostEvent), t)
  {
    FlushedTrack(s.track, t);
    NothingReady(s.total);
  }

  /** Every event keeps the requests and the interfaces in step. */
  lemma AfterKeeps(s: Mgr, t: nat, ev: MgrEvent)
    requires Ok(s, t)
    ensures Ok(After(s, t, ev), t)
  {
    match ev
    case ClaimEvent(i, isVif) => ClaimKeeps(s, t, i, isVif);
    case ReleaseEvent(i) => ReleaseKeeps(s, t, i);
    case UpdateEvent(env) => if Updates(s, t, env) { UpdateRequests(s, t, env); UpdateIfaces(s, t, env); }
    case RunEvent(env) => RunKeeps(s, t, env);
    case SeqnoRunEvent(f) => SeqnoRunKeeps(s, t, f);
    case OtherCreateEvent(o, cfg) => if o < |s.track.states| && o != t { OtherKeeps(s, t, o, cfg); }
    case OtherGetEvent(_) =>
    case ConnectionLostEvent => LostKeeps(s, t);
    case IdleEvent =>
  }

  // ------------------------------------------------------------------------ runs

  /** A manager as `if_status_mgr_create` makes it. */
  ghost predicate Fresh(s: Mgr, t: nat) {
    && s == Mgr(map[], s.track, 0, [], map[], {}) && TrackOk(s.track)
    && t < |s.track.states| && s.track.states[t] == TypeState([], 0, 0) && InFlight(s.track, t) == []
  }

  /** `ms` is a run: it starts with a fresh manager, and each state follows by an
      event. */
  ghost predicate IsMgrRun(ms: seq<Mgr>, t: nat, evs: seq<MgrEvent>) {
    && |ms| == |evs| + 1 && Fresh(ms[0], t)
    && forall j | 0 <= j < |evs| :: t < |ms[j].track.states| && ms[j + 1] == After(ms[j], t, evs[j])
  }

  lemma {:induction false} RunOk(ms: seq<Mgr>, t: nat, evs: seq<MgrEvent>, n: nat)
    requires IsMgrRun(ms, t, evs) && n <= |evs|
    ensures Ok(ms[n], t)
  {
    if n > 0 {
      RunOk(ms, t, evs, n - 1);
      AfterKeeps(ms[n - 1], t, evs[n - 1]);
    }
  }

  /** The interface has been there, and was never claimed as anything but a vif,
      since event `k` created it. */
  ghost predicate VifSince(ms: seq<Mgr>, evs: seq<MgrEvent>, n: nat, i: IfaceId, k: nat)
    requires n <= |evs| < |ms|
  {
    && k < n && evs[k] == ClaimEvent(i, true) && i !in ms[k].ifaces
    && (forall j | k < j <= n :: i in ms[j].ifaces)
    && (forall j | k < j < n :: evs[j] != ClaimEvent(i, false))
  }

  ghost predicate AlwaysVif(ms: seq<Mgr>, evs: seq<MgrEvent>, n: nat, i: IfaceId)
    requires n <= |evs| < |ms|
  {
    exists k: nat :: VifSince(ms, evs, n, i, k)
  }

  lemma AlwaysVifStep(ms: seq<Mgr>, evs: seq<MgrEvent>, n: nat, i: IfaceId)
    requires 0 < n <= |evs| < |ms|
    ensures AlwaysVif(ms, evs, n, i) <==>
      && i in ms[n].ifaces
      && if i in ms[n - 1].ifaces then AlwaysVif(ms, evs, n - 1, i) && evs[n - 1] != ClaimEvent(i, false)
         else evs[n - 1] == ClaimEvent(i, true)
  {
    if k: nat :| VifSince(ms, evs, n, i, k) {
      if k < n - 1 {
        assert VifSince(ms, evs, n - 1, i, k);
      }
    }
    if i !in ms[n - 1].ifaces && evs[n - 1] == ClaimEvent(i, true) && i in ms[n].ifaces {
      assert VifSince(ms, evs, n, i, n - 1);
    }
    if AlwaysVif(ms, evs, n - 1, i) && i in ms[n].ifaces && evs[n - 1] != ClaimEvent(i, false) {
      var k: nat :| VifSince(ms, evs, n - 1, i, k);
      assert VifSince(ms, evs, n, i, k);
    }
  }

  lemma VifOnlyAfter(s: Mgr, t: nat, ev: MgrEvent, i: IfaceId)
    requires t < |s.track.states| && s.vifOnly <= s.ifaces.Keys
    ensures var s' := After(s, t, ev);
      i in s'.vifOnly <==>
        && i in s'.ifaces
        && if i in s.ifaces then i in s.vifOnly && ev != ClaimEvent(i, false) else ev == ClaimEvent(i, true)
  {
  }

  /** What `vifOnly` means. */
  lemma {:induction false} VifOnlyMeans(ms: seq<Mgr>, t: nat, evs: seq<MgrEvent>, n: nat, i: IfaceId)
    requires IsMgrRun(ms, t, evs) && n <= |evs|
    ensures i in ms[n].vifOnly <==> AlwaysVif(ms, evs, n, i)
  {
    if n > 0 {
      VifOnlyMeans(ms, t, evs, n - 1, i);
      RunOk(ms, t, evs, n - 1);
      AlwaysVifStep(ms, evs, n, i);
      VifOnlyAfter(ms[n - 1], t, evs[n - 1], i);
    }
  }

  /** The event makes a request for the flows of interface `i`. */
  predicate RequestsFor(s: Mgr, t: nat, ev: MgrEvent, i: IfaceId)
    requires t < |s.track.states|
  {
    ev.UpdateEvent? && Updates(s, t, ev.env) && i in NewlyClaimed(ev.env, s.ifaces)
  }

  ghost predicate RequestAt(ms: seq<Mgr>, t: nat, evs: seq<MgrEvent>, i: IfaceId, k: nat) {
    k < |evs| && k < |ms| && t < |ms[k].track.states| && RequestsFor(ms[k], t, evs[k], i)
  }

  /** The latest request for the flows of interface `i`, on this connection, was
      made by event `k`. */
  ghost predicate LatestRequest(ms: seq<Mgr>, t: nat, evs: seq<MgrEvent>, n: nat, i: IfaceId, k: nat)
    requires n <= |evs|
  {
    && k < n && RequestAt(ms, t, evs, i, k)
    && forall j | k < j < n :: !RequestAt(ms, t, evs, i, j) && evs[j] != ConnectionLostEvent
  }

  /** The number of a request of this connection. */
  predicate OfConnection(s: Mgr, e: nat) {
    |s.made| <= s.total < e + |s.made| && e <= s.total
  }

  /** The interface's entry after an event that makes a request for it, or not. */
  ghost predicate EntryStep(s: Mgr, s': Mgr, requests: bool, lost: bool, i: IfaceId) {
    && (i in s'.entry <==> requests || (i in s.entry && !lost))
    && (i in s'.entry ==> OfConnection(s', s'.entry[i]))
    && (i in s'.entry && requests ==> CfgOf(s'.made, s'.total, s'.entry[i]) == s.track.reqSeqno + 1)
    && (i in s'.entry && !requests ==>
          OfConnection(s, s.entry[i]) && CfgOf(s'.made, s'.total, s'.entry[i]) == CfgOf(s.made, s.total, s.entry[i]))
  }

  lemma EntryAfterEvent(s: Mgr, t: nat, ev: MgrEvent, i: IfaceId)
    requires t < |s.track.states| && EntriesOk(s.entry, s.made, s.total)
    ensures EntryStep(s, After(s, t, ev), RequestsFor(s, t, ev, i), ev == ConnectionLostEvent, i)
  {
    if ev.UpdateEvent? && Updates(s, t, ev.env) {
      EntriesPush(ev.env, s.ifaces, s.entry, s.made, s.total, s.track.reqSeqno + 1);
    }
  }

  lemma EntryAfterStep(ms: seq<Mgr>, t: nat, evs: seq<MgrEvent>, n: nat, i: IfaceId)
    requires IsMgrRun(ms, t, evs) && 0 < n <= |evs|
    ensures EntryStep(ms[n - 1], ms[n], RequestAt(ms, t, evs, i, n - 1), evs[n - 1] == ConnectionLostEvent, i)
  {
    assert EntriesOk(ms[n - 1].entry, ms[n - 1].made, ms[n - 1].total) by {
      RunOk(ms, t, evs, n - 1);
    }
    EntryAfterEvent(ms[n - 1], t, evs[n - 1], i);
  }

  ghost predicate EntrySteps(ms: seq<Mgr>, t: nat, evs: seq<MgrEvent>, i: IfaceId) {
    && |ms| == |evs| + 1 && i !in ms[0].entry
    && forall n | 0 < n <= |evs| ::
      EntryStep(ms[n - 1], ms[n], RequestAt(ms, t, evs, i, n - 1), evs[n - 1] == ConnectionLostEvent, i)
  }

  lemma {:induction false} EntryFollows(ms: seq<Mgr>, t: nat, evs: seq<MgrEvent>, n: nat, i: IfaceId) returns (k: nat)
    requires EntrySteps(ms, t, evs, i) && n <= |evs| && i in ms[n].entry
    ensures LatestRequest(ms, t, evs, n, i, k) && OfConnection(ms[n], ms[n].entry[i])
    ensures CfgOf(ms[n].made, ms[n].total, ms[n].entry[i]) == ms[k].track.reqSeqno + 1
  {
    assert EntryStep(ms[n - 1], ms[n], RequestAt(ms, t, evs, i, n - 1), evs[n - 1] == ConnectionLostEvent, i);
    if RequestAt(ms, t, evs, i, n - 1) {
      k := n - 1;
    } else {
      k := EntryFollows(ms, t, evs, n - 1, i);
    }
  }

  /** What `entry` means: it is about the latest request for the interface, and
      `made` has that request's configuration. */
  lemma EntryMeans(ms: seq<Mgr>, t: nat, evs: seq<MgrEvent>, n: nat, i: IfaceId) returns (k: nat)
    requires IsMgrRun(ms, t, evs) && n <= |evs| && i in ms[n].entry
    ensures LatestRequest(ms, t, evs, n, i, k) && OfConnection(ms[n], ms[n].entry[i])
    ensures CfgOf(ms[n].made, ms[n].total, ms[n].entry[i]) == ms[k].track.reqSeqno + 1
  {
    assert EntrySteps(ms, t, evs, i) by {
      forall j | 0 < j <= |evs| ensures
        EntryStep(ms[j - 1], ms[j], RequestAt(ms, t, evs, i, j - 1), evs[j - 1] == ConnectionLostEvent, i)
      {
        EntryAfterStep(ms, t, evs, j, i);
      }
    }
    k := EntryFollows(ms, t, evs, n, i);
  }

  lemma UpAnswered(m: Mgr, t: nat, i: IfaceId)
    requires Ok(m, t) && i in m.vifOnly && i in m.ifaces && IsUp(m.ifaces[i])
    ensures i in m.entry && CfgOf(m.made, m.total, m.entry[i]) in m.made
    ensures forall u | u in m.track.updates :: u.flowCfg != CfgOf(m.made, m.total, m.entry[i])
  {
    AnsweredCfg(m.made, m.track.states[t].acked, InFlight(m.track, t), m.track.reqSeqno, m.total, m.entry[i]);
    forall u | u in m.track.updates && u.seqnoType == t ensures u in InFlight(m.track, t) {
      InOfType(m.track.updates, t, u);
    }
  }

  /** In every run: an interface that was always claimed as a vif, and is past
      INSTALL_FLOWS, has had a request made for it on this connection, and the
      latest such request is not in flight any more. */
  lemma UpWasAnswered(ms: seq<Mgr>, t: nat, evs: seq<MgrEvent>, n: nat, i: IfaceId) returns (k: nat)
    requires IsMgrRun(ms, t, evs) && n <= |evs| && AlwaysVif(ms, evs, n, i)
    requires i in ms[n].ifaces && IsUp(ms[n].ifaces[i])
    ensures LatestRequest(ms, t, evs, n, i, k)
    ensures forall u | u in ms[n].track.updates :: u.flowCfg != ms[k].track.reqSeqno + 1
  {
    RunOk(ms, t, evs, n);
    VifOnlyMeans(ms, t, evs, n, i);
    k := EntryMeans(ms, t, evs, n, i);
    UpAnswered(ms[n], t, i);
  }

  lemma PendingEntry(m: Mgr, t: nat, i: IfaceId) returns (u: Update)
    requires Ok(m, t) && i in m.ifaces && m.ifaces[i].state.InstallFlows?
    ensures i in m.entry && u in Pending(m.track, t) && u.reqCfg == m.ifaces[i].installSeqno
    ensures u.flowCfg == CfgOf(m.made, m.total, m.entry[i])
  {
    var pending := Pending(m.track, t);
    var j := m.entry[i] + |pending| - m.total - 1;
    u := pending[j];
    assert Reqs(pending)[j] == u.reqCfg;
  }

  /** And one that waits in INSTALL_FLOWS has the latest request for it pending. */
  lemma WaitingIsPending(ms: seq<Mgr>, t: nat, evs: seq<MgrEvent>, n: nat, i: IfaceId) returns (k: nat, u: Update)
    requires IsMgrRun(ms, t, evs) && n <= |evs|
    requires i in ms[n].ifaces && ms[n].ifaces[i].state.InstallFlows?
    ensures LatestRequest(ms, t, evs, n, i, k) && t < |ms[n].track.states|
    ensures u in Pending(ms[n].track, t)
    ensures u.flowCfg == ms[k].track.reqSeqno + 1 && u.reqCfg == ms[n].ifaces[i].installSeqno
  {
    RunOk(ms, t, evs, n);
    u := PendingEntry(ms[n], t, i);
    k := EntryMeans(ms, t, evs, n, i);
  }

  // ------------------------------------------------ claims, releases and reports

  /** The event claims or releases interface `i`. */
  predicate Touches(ev: MgrEvent, i: IfaceId) {
    (ev.ClaimEvent? || ev.ReleaseEvent?) && ev.iface == i
  }

  /** Event `k` was the latest claim or release of interface `i`. */
  predicate LatestTouch(evs: seq<MgrEvent>, n: nat, i: IfaceId, k: nat)
    requires n <= |evs|
  {
    k < n && Touches(evs[k], i) && forall j | k < j < n :: !Touches(evs[j], i)
  }

  /** The interface is being taken down. */
  predicate GoesDown(f: Iface) {
    f.state.MarkDown? || f.state.UpdatePort?
  }

  lemma DownAfter(s: Mgr, t: nat, ev: MgrEvent, i: IfaceId)
    requires t < |s.track.states| && i in After(s, t, ev).ifaces
    ensures var f' := After(s, t, ev).ifaces[i];
      if Touches(ev, i) then
        (GoesDown(f') <==> ev.ReleaseEvent?) && (ev.ClaimEvent? ==> f'.isVif == ev.isVif)
      else i in s.ifaces && (GoesDown(f') <==> GoesDown(s.ifaces[i])) && f'.isVif == s.ifaces[i].isVif
  {
    if ev.RunEvent? {
      AfterAckOne(ev.env, Reqs(s.track.states[t].acked), s.ifaces, i);
    }
  }

  /** In every run: an interface is being taken down exactly if the latest claim or
      release of it was a release; and it counts as a vif as the latest claim
      said. */
  lemma {:induction false} DownMeans(ms: seq<Mgr>, t: nat, evs: seq<MgrEvent>, n: nat, i: IfaceId) returns (k: nat)
    requires IsMgrRun(ms, t, evs) && n <= |evs| && i in ms[n].ifaces
    ensures LatestTouch(evs, n, i, k) && (GoesDown(ms[n].ifaces[i]) <==> evs[k].ReleaseEvent?)
    ensures evs[k].ClaimEvent? ==> ms[n].ifaces[i].isVif == evs[k].isVif
  {
    k := n - 1;
    DownAfter(ms[k], t, evs[k], i);
    if !Touches(evs[k], i) {
      k := DownMeans(ms, t, evs, n - 1, i);
    }
  }

  /** In every run: an interface goes exactly when the connection is lost, or by an
      update while it is being taken down: once the port is down if it is still
      bound, and otherwise once the database may be written. */
  lemma LeavesWhen(ms: seq<Mgr>, t: nat, evs: seq<MgrEvent>, n: nat, i: IfaceId)
    requires IsMgrRun(ms, t, evs) && n < |evs| && i in ms[n].ifaces
    ensures t < |ms[n].track.states|
    ensures var f, ev := ms[n].ifaces[i], evs[n];
      i !in ms[n + 1].ifaces <==>
        || ev.ConnectionLostEvent?
        || (&& ev.UpdateEvent? && Updates(ms[n], t, ev.env) && GoesDown(f)
            && if f.state.MarkDown? && i in ev.env.bound then i in ev.env.down else !ev.env.sbReadonly)
  {
    assert ms[n + 1] == After(ms[n], t, evs[n]);
  }

  /** In every run: an interface in CLAIMED stays there until an update while the
      database may be written, and then waits for its flows if it is a vif. */
  lemma ClaimedUntil(ms: seq<Mgr>, t: nat, evs: seq<MgrEvent>, n: nat, i: IfaceId)
    requires IsMgrRun(ms, t, evs) && n < |evs| && i in ms[n].ifaces && ms[n].ifaces[i].state.Claimed?
    requires evs[n] != ReleaseEvent(i) && evs[n] != ConnectionLostEvent
    ensures i in ms[n + 1].ifaces && t < |ms[n].track.states|
    ensures ms[n + 1].ifaces[i].state ==
      if !evs[n].UpdateEvent? || !Updates(ms[n], t, evs[n].env) || evs[n].env.sbReadonly then Claimed
      else if ms[n].ifaces[i].isVif then InstallFlows else MarkUp
  {
    assert ms[n + 1] == After(ms[n], t, evs[n]);
  }

  /** The event finds that the interface has no `ovn-installed`. */
  predicate SeesAbsent(ev: MgrEvent, i: IfaceId) {
    (ev.RunEvent? || ev.UpdateEvent?) && ev.env.hasBindings && i !in ev.env.ovnInstalled
  }

  /** An update in which the binding module reports the interface up, and its
      chassis is set or can be set. */
  predicate Confirms(ev: MgrEvent, i: IfaceId, isVif: bool) {
    && ev.UpdateEvent? && ev.env.hasBindings && i in ev.env.up
    && (i in ev.env.chassisSet || (!ev.env.sbReadonly && (!isVif || i !in ev.env.postponed)))
  }

  /** Whether the interface can be reported up: it is marked up, or will be by the
      same event because its `ovn-installed` is gone. */
  predicate CanConfirm(f: Iface, ev: MgrEvent, i: IfaceId) {
    f.state.MarkUp? || (f.state.RemOldOvnInst? && SeesAbsent(ev, i))
  }

  lemma InstalledAfter(s: Mgr, t: nat, ev: MgrEvent, i: IfaceId)
    requires t < |s.track.states| && i in After(s, t, ev).ifaces
    ensures After(s, t, ev).ifaces[i].state.Installed? <==>
      && i in s.ifaces && !Touches(ev, i)
      && (|| s.ifaces[i].state.Installed?
          || (ev.UpdateEvent? && Updates(s, t, ev.env) && CanConfirm(s.ifaces[i], ev, i)
              && Confirms(ev, i, s.ifaces[i].isVif)))
  {
    if ev.RunEvent? {
      AfterAckOne(ev.env, Reqs(s.track.states[t].acked), s.ifaces, i);
    }
  }

  /** In every run: an interface is INSTALLED only if it was reported up, by event
      `j`, after the latest claim, event `k`, and was not released since. */
  lemma {:induction false} InstalledMeans(ms: seq<Mgr>, t: nat, evs: seq<MgrEvent>, n: nat, i: IfaceId)
      returns (k: nat, j: nat)
    requires IsMgrRun(ms, t, evs) && n <= |evs| && i in ms[n].ifaces && ms[n].ifaces[i].state.Installed?
    ensures LatestTouch(evs, n, i, k) && evs[k].ClaimEvent? && k < j < n && Confirms(evs[j], i, evs[k].isVif)
  {
    InstalledAfter(ms[n - 1], t, evs[n - 1], i);
    if ms[n - 1].ifaces[i].state.Installed? {
      k, j := InstalledMeans(ms, t, evs, n - 1, i);
    } else {
      DownAfter(ms[n - 1], t, evs[n - 1], i);
      j := n - 1;
      k := DownMeans(ms, t, evs, n, i);
    }
  }

  predicate MarkedUp(f: Iface) {
    f.state.MarkUp? || f.state.Installed?
  }

  lemma MarkedAfter(s: Mgr, t: nat, ev: MgrEvent, i: IfaceId)
    requires t < |s.track.states| && i in After(s, t, ev).ifaces && MarkedUp(After(s, t, ev).ifaces[i])
    requires i in s.ifaces && s.ifaces[i].isVif
    ensures !s.ifaces[i].state.Claimed? && (MarkedUp(s.ifaces[i]) || SeesAbsent(ev, i))
  {
    if ev.RunEvent? {
      AfterAckOne(ev.env, Reqs(s.track.states[t].acked), s.ifaces, i);
    }
  }

  lemma VifAgain(ms: seq<Mgr>, t: nat, evs: seq<MgrEvent>, n: nat, i: IfaceId)
    requires IsMgrRun(ms, t, evs) && n <= |evs| && AlwaysVif(ms, evs, n, i) && i in ms[n].ifaces
    ensures ms[n].ifaces[i].isVif
  {
    RunOk(ms, t, evs, n);
    VifOnlyMeans(ms, t, evs, n, i);
  }

  /** Always claimed as a vif, and past having its `ovn-installed` removed. */
  ghost predicate VifMarked(ms: seq<Mgr>, evs: seq<MgrEvent>, n: nat, i: IfaceId)
    requires n <= |evs| < |ms|
  {
    AlwaysVif(ms, evs, n, i) && i in ms[n].ifaces && MarkedUp(ms[n].ifaces[i])
  }

  /** No request for the interface, and the connection is not lost. */
  ghost predicate Quiet(ms: seq<Mgr>, t: nat, evs: seq<MgrEvent>, n: nat, i: IfaceId) {
    n < |evs| && !RequestAt(ms, t, evs, i, n) && evs[n] != ConnectionLostEvent
  }

  lemma MarkedStep(ms: seq<Mgr>, t: nat, evs: seq<MgrEvent>, n: nat, i: IfaceId)
    requires IsMgrRun(ms, t, evs) && 0 < n <= |evs| && VifMarked(ms, evs, n, i)
    ensures Quiet(ms, t, evs, n - 1, i) && (VifMarked(ms, evs, n - 1, i) || SeesAbsent(evs[n - 1], i))
  {
    AlwaysVifStep(ms, evs, n, i);
    assert ms[n] == After(ms[n - 1], t, evs[n - 1]);
    assert i in ms[n - 1].ifaces;
    VifAgain(ms, t, evs, n - 1, i);
    MarkedAfter(ms[n - 1], t, evs[n - 1], i);
  }

  ghost function Marks(ms: seq<Mgr>, evs: seq<MgrEvent>, i: IfaceId): (r: seq<bool>)
    requires |ms| == |evs| + 1
    ensures |r| == |ms| && forall n | 0 <= n < |r| :: r[n] == VifMarked(ms, evs, n, i)
  {
    seq(|ms|, n requires 0 <= n < |ms| => VifMarked(ms, evs, n, i))
  }

  function Sees(evs: seq<MgrEvent>, i: IfaceId): (r: seq<bool>)
    ensures |r| == |evs| && forall n | 0 <= n < |r| :: r[n] == SeesAbsent(evs[n], i)
  {
    seq(|evs|, n requires 0 <= n < |evs| => SeesAbsent(evs[n], i))
  }

  /** What is marked only after it was seen, was seen and has been marked since. */
  lemma {:induction false} LastSeen(marks: seq<bool>, sees: seq<bool>, n: nat) returns (j: nat)
    requires |marks| == |sees| + 1 && !marks[0] && n < |marks| && marks[n]
    requires forall m | 0 < m < |marks| && marks[m] :: marks[m - 1] || sees[m - 1]
    ensures j < n && sees[j] && forall x | j < x <= n :: marks[x]
  {
    j := n - 1;
    if !sees[j] {
      j := LastSeen(marks, sees, n - 1);
    }
  }

  /** In every run: an interface that was always claimed as a vif gets to MARK_UP
      only if it was seen, by event `j`, without `ovn-installed` since the latest
      request for its flows, event `k`. */
  lemma MarkedMeans(ms: seq<Mgr>, t: nat, evs: seq<MgrEvent>, n: nat, i: IfaceId) returns (k: nat, j: nat)
    requires IsMgrRun(ms, t, evs) && n <= |evs| && AlwaysVif(ms, evs, n, i)
    requires i in ms[n].ifaces && MarkedUp(ms[n].ifaces[i])
    ensures LatestRequest(ms, t, evs, n, i, k) && k < j < n && SeesAbsent(evs[j], i)
  {
    var marks := Marks(ms, evs, i);
    forall m | 0 < m < |marks| && marks[m]
      ensures (marks[m - 1] || SeesAbsent(evs[m - 1], i)) && Quiet(ms, t, evs, m - 1, i)
    {
      MarkedStep(ms, t, evs, m, i);
    }
    j := LastSeen(marks, Sees(evs, i), n);
    k := UpWasAnswered(ms, t, evs, n, i);
    assert k >= j ==> marks[k + 1] && Quiet(ms, t, evs, k, i);
  }
}
