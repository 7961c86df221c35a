/** The interface manager of controller/if-status.c on top of
    controller/ofctrl-seqno.c. */
module IfStatusMgr {
  import opened Ints
  import opened Seqno
  import opened IfStatus
  import opened IfStatusModel

  /** `ifaces_per_state` is the interfaces grouped by state. */
  ghost predicate Grouped(ifaces: map<IfaceId, Iface>, perState: map<IfState, set<IfaceId>>) {
    && (forall s: IfState :: s in perState)
    && (forall s, i | s in perState :: i in perState[s] <==> i in ifaces && ifaces[i].state == s)
  }

  lemma GroupedMove(ifaces: map<IfaceId, Iface>, perState: map<IfState, set<IfaceId>>, i: IfaceId, f: Iface)
    requires Grouped(ifaces, perState) && i in ifaces
    ensures var s := ifaces[i].state;
      var p1 := perState[s := perState[s] - {i}];
      Grouped(ifaces[i := f], p1[f.state := p1[f.state] + {i}])
  {
  }

  function NoIfaces(): map<IfState, set<IfaceId>> {
    map[Claimed := {}, InstallFlows := {}, RemOldOvnInst := {}, MarkUp := {},
        Installed := {}, MarkDown := {}, UpdatePort := {}]
  }

  lemma NoIfacesGrouped()
    ensures Grouped(map[], NoIfaces())
  {
    forall s: IfState ensures s in NoIfaces() {
      match s
      case Claimed => case InstallFlows => case RemOldOvnInst => case MarkUp =>
      case Installed => case MarkDown => case UpdatePort =>
    }
  }

  class Manager {
    const tracker: Tracker
    const seqType: nat
    var ifaces: map<IfaceId, Iface>
    var perState: map<IfState, set<IfaceId>>
    var ifaceSeqno: nat
    ghost var total: nat
    ghost var made: seq<nat>
    ghost var entry: map<IfaceId, nat>
    ghost var vifOnly: set<IfaceId>

    ghost function State(): Mgr
      reads this, tracker
    {
      Mgr(ifaces, tracker.State(), total, made, entry, vifOnly)
    }

    ghost predicate Valid()
      reads this, tracker
    {
      tracker.Valid() && seqType < |tracker.states| && Grouped(ifaces, perState) && ifaceSeqno == total % UINT32
    }

    /** `if_status_mgr_create` */
    constructor (tracker: Tracker)
      requires tracker.Valid()
      modifies tracker
      ensures Valid() && Fresh(State(), seqType) && this.tracker == tracker && seqType == |old(tracker.states)|
    {
      NoneOfNewType(tracker.updates, |tracker.states|);
      var t := tracker.AddType();
      this.tracker, seqType := tracker, t;
      ifaces, ifaceSeqno := map[], 0;
      perState := NoIfaces();
      NoIfacesGrouped();
      total, made, entry, vifOnly := 0, [], map[], {};
    }

    // ------------------------------------------------------ moving interfaces

    /** `ovs_iface_set_state`, for an interface that becomes `f`. */
    method SetIface(i: IfaceId, f: Iface)
      requires Grouped(ifaces, perState) && i in ifaces
      modifies this`ifaces, this`perState
      ensures Grouped(ifaces, perState) && ifaces == old(ifaces)[i := f]
    {
      GroupedMove(ifaces, perState, i, f);
      var s := ifaces[i].state;
      perState := perState[s := perState[s] - {i}];
      ifaces := ifaces[i := f];
      perState := perState[f.state := perState[f.state] + {i}];
    }

    /** `ovs_iface_destroy` */
    method DestroyIface(i: IfaceId)
      requires Grouped(ifaces, perState) && i in ifaces
      modifies this`ifaces, this`perState
      ensures Grouped(ifaces, perState) && ifaces == old(ifaces) - {i}
    {
      var s := ifaces[i].state;
      perState := perState[s := perState[s] - {i}];
      ifaces := ifaces - {i};
    }

    // -------------------------------------------- events from the binding module

    method ClaimIface(i: IfaceId, isVif: bool)
      requires Grouped(ifaces, perState)
      modifies this`ifaces, this`perState
      ensures Grouped(ifaces, perState) && ifaces == AfterClaim(old(ifaces), i, isVif)
    {
      if i !in ifaces {
        ifaces := ifaces[i := Iface(Claimed, 0, isVif)];
        perState := perState[Claimed := perState[Claimed] + {i}];
      } else {
        var f := ifaces[i].(isVif := isVif);
        match f.state
        case Installed => SetIface(i, Moved(f, Claimed));
        case MarkDown => SetIface(i, Moved(f, Claimed));
        case UpdatePort => SetIface(i, Moved(f, Claimed));
        case _ => SetIface(i, f);
      }
    }

    /** `if_status_mgr_claim_iface` */
    method Claim(i: IfaceId, isVif: bool)
      requires Valid()
      modifies this
      ensures Valid() && State() == After(old(State()), seqType, ClaimEvent(i, isVif))
      ensures i in ifaces && !GoesDown(ifaces[i]) && !ifaces[i].state.Installed? && ifaces[i].isVif == isVif
      ensures ifaces - {i} == old(ifaces) - {i}
    {
      vifOnly := VifOnlyAfterClaim(ifaces, vifOnly, i, isVif);
      ClaimIface(i, isVif);
    }

    /** `if_status_mgr_release_iface`, and `if_status_mgr_delete_iface` once the
        interface name has been compared. */
    method Release(i: IfaceId)
      requires Valid()
      modifies this
      ensures Valid() && State() == After(old(State()), seqType, ReleaseEvent(i))
      ensures ifaces.Keys == old(ifaces).Keys && ifaces - {i} == old(ifaces) - {i}
      ensures i in ifaces ==> GoesDown(ifaces[i])
    {
      if i !in ifaces || ifaces[i].state.MarkDown? || ifaces[i].state.UpdatePort? {
        return;
      }
      SetIface(i, Moved(ifaces[i], MarkDown));
    }

    // --------------------------------------------------------- every iteration

    /** One loop of `if_status_mgr_update`, over the interfaces of one state. */
    method DoPass(p: Pass, env: Env, seqno: nat)
      requires Grouped(ifaces, perState)
      modifies this`ifaces, this`perState
      ensures Grouped(ifaces, perState) && ifaces == ApplyAll(p, env, seqno, old(ifaces))
    {
      var todo := perState[PassState(p)];
      ghost var was := ifaces;
      while todo != {}
        invariant Grouped(ifaces, perState)
        invariant forall i | i in todo :: i in ifaces && i in was && ifaces[i] == was[i]
        invariant forall i | i in was && i !in todo ::
          && (i in ifaces <==> Apply(p, env, seqno, i, was[i]).Some?)
          && (i in ifaces ==> ifaces[i] == Apply(p, env, seqno, i, was[i]).value)
        invariant ifaces.Keys <= was.Keys
        decreases todo
      {
        var i :| i in todo;
        var r := Apply(p, env, seqno, i, ifaces[i]);
        if r.None? {
          DestroyIface(i);
        } else {
          SetIface(i, r.value);
        }
        todo := todo - {i};
      }
      assert ifaces == ApplyAll(p, env, seqno, was);
    }

    /** The passes of `if_status_mgr_update`. */
    method DoPasses(env: Env, seqno: nat) returns (newIfaces: bool)
      requires Grouped(ifaces, perState)
      modifies this`ifaces, this`perState
      ensures Grouped(ifaces, perState) && ifaces == Decided(env, seqno, old(ifaces))
      ensures newIfaces <==> NewlyClaimed(env, old(ifaces)) != {}
    {
      newIfaces := NewlyClaimed(env, ifaces) != {};
      PassesDecide(env, seqno, ifaces);
      DoPass(RemOldPass, env, seqno);
      DoPass(MarkUpPass, env, seqno);
      DoPass(MarkDownPass, env, seqno);
      DoPass(ClaimedPass, env, seqno);
      DoPass(UpdatePortPass, env, seqno);
    }

    /** Whether fewer than 2^32 requests are pending. */
    method HasRoom() returns (r: bool)
      requires Valid()
      ensures r <==> |Pending(tracker.State(), seqType)| < UINT32
    {
      var n := |tracker.states[seqType].acked|;
      var i := 0;
      while i < |tracker.updates|
        invariant 0 <= i <= |tracker.updates|
        invariant n == |tracker.states[seqType].acked| + |OfType(tracker.updates[..i], seqType)|
      {
        assert tracker.updates[..i + 1] == tracker.updates[..i] + [tracker.updates[i]];
        OfTypePush(tracker.updates[..i], tracker.updates[i], seqType);
        if tracker.updates[i].seqnoType == seqType {
          n := n + 1;
        }
        i := i + 1;
      }
      assert tracker.updates[..i] == tracker.updates;
      r := n < UINT32;
    }

    /** The request of `if_status_mgr_update`. */
    method Request(env: Env, seqno: nat, ghost was: map<IfaceId, Iface>)
      requires tracker.Valid() && seqType < |tracker.states|
      modifies this`total, this`made, this`entry, this`ifaceSeqno, tracker
      ensures tracker.Valid() && ifaceSeqno == seqno && total == old(total) + 1
      ensures tracker.State() == Created(old(tracker.State()), seqType, seqno)
      ensures made == old(made) + [old(tracker.reqSeqno) + 1] && entry == EntryAfter(env, was, old(entry), total)
    {
      total, made := total + 1, made + [tracker.reqSeqno + 1];
      entry := EntryAfter(env, was, entry, total);
      ifaceSeqno := seqno;
      tracker.UpdateCreate(seqType, seqno);
    }

    /** The part of `if_status_mgr_update` after it has looked for the bindings. */
    method UpdateBound(env: Env, seqno: nat)
      requires tracker.Valid() && seqType < |tracker.states| && Grouped(ifaces, perState)
      requires seqno == (total + 1) % UINT32
      modifies this, tracker
      ensures tracker.Valid() && Grouped(ifaces, perState) && State() == AfterUpdated(old(State()), seqType, env)
      ensures ifaceSeqno == if total == old(total) then old(ifaceSeqno) else seqno
    {
      var newIfaces := DoPasses(env, seqno);
      vifOnly := vifOnly * ifaces.Keys;
      if newIfaces {
        Request(env, seqno, old(ifaces));
      }
    }

    /** `if_status_mgr_update`. */
    method UpdateIfaces(env: Env)
      requires Valid()
      modifies this, tracker
      ensures Valid() && State() == After(old(State()), seqType, UpdateEvent(env))
    {
      NextSeqno(total);
      var room := HasRoom();
      if env.hasBindings && room {
        UpdateBound(env, (ifaceSeqno + 1) % UINT32);
      }
    }

    /** The loop of `if_status_mgr_run`. */
    method WakeIfaces(env: Env, acked: seq<nat>)
      requires Grouped(ifaces, perState)
      modifies this`ifaces, this`perState
      ensures Grouped(ifaces, perState) && ifaces == AfterAck(env, acked, old(ifaces))
    {
      var todo := perState[InstallFlows];
      ghost var was := ifaces;
      while todo != {}
        invariant Grouped(ifaces, perState) && ifaces.Keys == was.Keys && todo <= was.Keys
        invariant forall i | i in was :: ifaces[i] == if i in todo then was[i] else AckOne(env, acked, i, was[i])
        decreases todo
      {
        var i :| i in todo;
        SetIface(i, AckOne(env, acked, i, ifaces[i]));
        todo := todo - {i};
      }
      assert ifaces == AfterAck(env, acked, was);
    }

    /** `if_status_mgr_run`: exactly the interfaces whose request was acked, and
        not handed out before, leave INSTALL_FLOWS. */
    method Run(env: Env)
      requires Valid()
      modifies this, tracker
      ensures Valid() && State() == After(old(State()), seqType, RunEvent(env))
    {
      var acked, _ := tracker.AckedGet(seqType);
      WakeIfaces(env, acked);
    }

    // ------------------------------------------------ what happens to the tracker

    /** `ofctrl_seqno_run`: no wake-up is lost while requests become acked. */
    method SeqnoRun(f: nat)
      requires Valid()
      modifies tracker
      ensures Valid() && State() == After(old(State()), seqType, SeqnoRunEvent(f))
    {
      tracker.Run(f);
    }

    /** `ofctrl_seqno_update_create` and `ofctrl_acked_seqnos_get` for another
        type do not touch this one. */
    method OtherCreate(t: nat, cfg: nat)
      requires Valid()
      modifies tracker
      ensures Valid() && State() == After(old(State()), seqType, OtherCreateEvent(t, cfg))
    {
      if t < |tracker.states| && t != seqType {
        tracker.UpdateCreate(t, cfg);
      }
    }

    method OtherGet(t: nat)
      requires Valid()
      modifies tracker
      ensures Valid() && State() == After(old(State()), seqType, OtherGetEvent(t))
    {
      if t < |tracker.states| && t != seqType {
        var _, _ := tracker.AckedGet(t);
      }
    }

    /** `if_status_mgr_clear` */
    method Clear()
      requires Grouped(ifaces, perState)
      modifies this`ifaces, this`perState
      ensures Grouped(ifaces, perState) && ifaces == map[]
    {
      while ifaces != map[]
        invariant Grouped(ifaces, perState)
        decreases ifaces.Keys
      {
        var i :| i in ifaces;
        DestroyIface(i);
      }
    }

    /** The connection to the switch is lost: `ofctrl_seqno_flush` and
        `if_status_mgr_clear`. */
    method ConnectionLost()
      requires Valid()
      modifies this, tracker
      ensures Valid() && State() == After(old(State()), seqType, ConnectionLostEvent)
    {
      tracker.Flush();
      Clear();
      made, entry, vifOnly := [], map[], {};
    }
  }

  // ------------------------------------------------------------------------ runs

  method Step(m: Manager, ev: MgrEvent)
    requires m.Valid()
    modifies m, m.tracker
    ensures m.Valid() && m.State() == After(old(m.State()), m.seqType, ev)
  {
    match ev
    case ClaimEvent(i, isVif) => m.Claim(i, isVif);
    case ReleaseEvent(i) => m.Release(i);
    case UpdateEvent(env) => m.UpdateIfaces(env);
    case RunEvent(env) => m.Run(env);
    case SeqnoRunEvent(f) => m.SeqnoRun(f);
    case OtherCreateEvent(t, cfg) => m.OtherCreate(t, cfg);
    case OtherGetEvent(t) => m.OtherGet(t);
    case ConnectionLostEvent => m.ConnectionLost();
    case IdleEvent =>
  }

  /** Any run of a fresh manager goes through the states of a run of the state
      machine; what holds in all of those holds of the manager. */
  method RunEvents(m: Manager, evs: seq<MgrEvent>) returns (ghost ms: seq<Mgr>)
    requires m.Valid() && Fresh(m.State(), m.seqType)
    modifies m, m.tracker
    ensures m.Valid() && IsMgrRun(ms, m.seqType, evs) && ms[0] == old(m.State()) && m.State() == ms[|evs|]
    decreases |evs|
  {
    ms := [m.State()];
    if evs != [] {
      var n := |evs| - 1;
      ms := RunEvents(m, evs[..n]);
      ms := Followed(ms, m.seqType, evs);
      Step(m, evs[n]);
    }
  }

  ghost function Followed(ms: seq<Mgr>, t: nat, evs: seq<MgrEvent>): (r: seq<Mgr>)
    requires evs != [] && IsMgrRun(ms, t, evs[..|evs| - 1]) && t < |ms[|evs| - 1].track.states|
    ensures IsMgrRun(r, t, evs) && r[0] == ms[0] && r[|evs|] == After(ms[|evs| - 1], t, evs[|evs| - 1])
  {
    ms + [After(ms[|evs| - 1], t, evs[|evs| - 1])]
  }
}
