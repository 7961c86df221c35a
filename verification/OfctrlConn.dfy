/** controller/ofctrl.c's connection as it runs: static variables updated in
    place. Each method is tied to the function the proofs are about. */
module OfctrlConn {
  import opened OfctrlState

  class Connection {
    var phase: Phase
    var flowUpdates: seq<Update>
    var curCfg: nat
    var oldReqCfg: nat
    var skippedLastTime: bool
    var initialClear: bool
    var waitTime: nat
    var expire: nat
    var flowsReady: bool
    var xid: nat
    var xid2: nat
    var zones: map<Zone, ZoneState>

    ghost function State(): Ofctrl
      reads this
    {
      Ofctrl(phase, flowUpdates, curCfg, oldReqCfg, skippedLastTime, initialClear,
             waitTime, expire, flowsReady, xid, xid2, zones)
    }

    constructor ()
      ensures State() == Ofctrl(SNew, [], 0, 0, false, false, 0, 0, false, 0, 0, map[])
    {
      phase, flowUpdates, curCfg, oldReqCfg := SNew, [], 0, 0;
      skippedLastTime, initialClear, waitTime, expire := false, false, 0, 0;
      flowsReady, xid, xid2, zones := false, 0, 0, map[];
    }

    /** Flushes that were in flight are queued again. */
    method RequeueZones()
      modifies this`zones
      ensures zones == Requeued(old(zones))
    {
      var todo := zones.Keys;
      while todo != {}
        invariant todo <= zones.Keys == old(zones).Keys
        invariant forall z | z in zones :: zones[z] == if z in todo then old(zones)[z] else Requeued(old(zones))[z]
        decreases todo
      {
        var z :| z in todo;
        if zones[z].OfSent? {
          zones := zones[z := OfQueued];
        }
        todo := todo - {z};
      }
      assert zones == Requeued(old(zones));
    }

    /** The reconnect part of `ofctrl_run`. */
    method Reconnected()
      modifies this
      ensures forall net, h :: State() == OnReconnect(World(old(State()), net, h)).o
    {
      phase := SNew;
      expire := 0;
      flowsReady := false;
      RequeueZones();
    }

    /** `run_S_WAIT_BEFORE_CLEAR` */
    method RunWaitBeforeClear(now: nat)
      requires phase == SWaitBeforeClear
      modifies this`phase, this`expire
      ensures forall net, h :: State() == RunState(World(old(State()), net, h), now).o
    {
      var reason := Decide(flowsReady, waitTime, expire, now);
      match reason
      case Disabled => phase := SClearFlows;
      case Expired => phase := SClearFlows;
      case FlowsReady => phase := SClearFlows;
      case StillWaiting =>
        if expire == 0 {
          expire := now + waitTime;
        }
    }

    /** `run_S_CLEAR_FLOWS`, apart from the installed flow tables. */
    method RunClearFlows(now: nat)
      requires phase == SClearFlows
      modifies this`phase, this`initialClear, this`flowUpdates
      ensures forall net, h :: State() == RunState(World(old(State()), net, h), now).o
    {
      initialClear := true;
      while flowUpdates != []
        invariant phase == SClearFlows && initialClear
        decreases |flowUpdates|
      {
        flowUpdates := flowUpdates[1..];
      }
      phase := SUpdateFlows;
    }

    /** `recv_S_UPDATE_FLOWS` on the reply to barrier `x`. */
    method RecvBarrierReply(x: nat)
      modifies this`flowUpdates, this`curCfg, this`zones
      ensures State() == RecvBarrier(old(State()), x)
      ensures if old(flowUpdates) != [] && old(flowUpdates)[0].xid == x
        then var req := old(flowUpdates)[0].req;
          && flowUpdates == old(flowUpdates)[1..] && req <= curCfg && old(curCfg) <= curCfg
          && (curCfg == req || curCfg == old(curCfg))
        else flowUpdates == old(flowUpdates) && curCfg == old(curCfg)
    {
      if flowUpdates == [] {
        return;
      }
      var fup := flowUpdates[0];
      if fup.xid == x {
        if fup.req >= curCfg {
          curCfg := fup.req;
        }
        flowUpdates := flowUpdates[1..];
      }
      label Popped:
      var todo := zones.Keys;
      while todo != {}
        invariant todo <= zones.Keys == old(zones).Keys
        invariant forall z | z in zones :: zones[z] == if z in todo then old(zones)[z] else Flushed(old(zones), x)[z]
        invariant flowUpdates == old@Popped(flowUpdates) && curCfg == old@Popped(curCfg)
        decreases todo
      {
        var z :| z in todo;
        if zones[z] == OfSent(x) {
          zones := zones[z := DbQueued];
        }
        todo := todo - {z};
      }
      assert zones == Flushed(old(zones), x);
    }

    /** The loop of `ofctrl_put` that records the barrier `x` for `req`. */
    method TrackFlowUpdate(x: nat, req: nat)
      modifies this`flowUpdates
      ensures flowUpdates == Track(old(flowUpdates), x, req)
    {
      while flowUpdates != []
        invariant Track(flowUpdates, x, req) == Track(old(flowUpdates), x, req)
        decreases |flowUpdates|
      {
        var last := flowUpdates[|flowUpdates| - 1];
        if req < last.req {
          flowUpdates := flowUpdates[..|flowUpdates| - 1];
        } else if req == last.req {
          flowUpdates := flowUpdates[..|flowUpdates| - 1] + [Update(x, req)];
          return;
        } else {
          break;
        }
      }
      flowUpdates := flowUpdates + [Update(x, req)];
    }

    /** The flushes of `ofctrl_put`, for the barrier `x` that will follow. */
    method FlushZones(x: nat) returns (flushes: seq<Zone>)
      modifies this`zones
      ensures Walks(flushes, old(zones)) && zones == Sent(old(zones), x)
      ensures flushes == [] ==> zones == old(zones)
    {
      flushes := [];
      var todo := zones.Keys;
      while todo != {}
        invariant todo <= zones.Keys == old(zones).Keys
        invariant forall z | z in zones :: zones[z] == if z in todo then old(zones)[z] else Sent(old(zones), x)[z]
        invariant forall z :: z in flushes <==> z in old(zones) && z !in todo && old(zones)[z].OfQueued?
        decreases todo
      {
        var z :| z in todo;
        if zones[z].OfQueued? {
          zones := zones[z := OfSent(x)];
          flushes := flushes + [z];
        }
        todo := todo - {z};
      }
      assert zones == Sent(old(zones), x);
    }

    /** The first part of `ofctrl_put`. */
    method NeedsPut(req: nat, changed: bool) returns (need: bool)
      modifies this`oldReqCfg, this`curCfg
      ensures (need, State()) == NeedPut(old(State()), req, changed)
    {
      need := false;
      if changed || skippedLastTime || initialClear {
        need := true;
        oldReqCfg := req;
      } else if req != oldReqCfg {
        if curCfg == oldReqCfg {
          if flowUpdates == [] {
            curCfg := req;
            oldReqCfg := req;
          }
        } else {
          need := true;
          oldReqCfg := req;
        }
      }
    }

    /** What `ofctrl_put` records once it has collected its messages. */
    method Record(req: nat, x: nat, msgs: bool, ghost w: World)
      requires w.o == State()
      modifies this`flowUpdates, this`curCfg
      ensures msgs ==> flowUpdates == Track(old(flowUpdates), x, req) && curCfg == old(curCfg)
      ensures !msgs ==> State() == QuietPut(w, req).o
    {
      if msgs {
        TrackFlowUpdate(x, req);
      } else if flowUpdates != [] {
        var last := |flowUpdates| - 1;
        flowUpdates := flowUpdates[last := flowUpdates[last].(req := req)];
      } else {
        curCfg := req;
      }
    }

    /** The part of `ofctrl_put` after it has found that it has to, and can. */
    method PutNow(req: nat, otherMsgs: bool, x: nat, ghost w: World) returns (flushes: seq<Zone>)
      requires w.o == State() && x == w.net.nextXid
      modifies this
      ensures Walks(flushes, old(zones))
      ensures var w2 := w.(o := w.o.(skippedLastTime := false, initialClear := false));
        State() == (if flushes != [] || otherMsgs || w.o.initialClear then SendPut(w2, req, flushes)
                    else QuietPut(w2, req)).o
    {
      flushes := FlushZones(x);
      var msgs := flushes != [] || otherMsgs || initialClear;
      initialClear := false;
      skippedLastTime := false;
      Record(req, x, msgs, w.(o := State()));
    }

    /** `ofctrl_put`, apart from the flow tables; `x` is the next transaction id.
        When nothing is put, no zone is walked either. */
    method Put(req: nat, changed: bool, otherMsgs: bool, backlog: bool, x: nat, ghost net: Net, ghost h: Hist)
        returns (done: bool, flushes: seq<Zone>)
      requires x == net.nextXid
      modifies this
      ensures done ==> Walks(flushes, old(zones))
      ensures State() == DoPut(World(old(State()), net, h), req, changed, otherMsgs, backlog, flushes).o
      ensures !done ==> forall fs ::
        State() == DoPut(World(old(State()), net, h), req, changed, otherMsgs, backlog, fs).o
    {
      done, flushes := false, [];
      var need := NeedsPut(req, changed);
      if need && (phase != SUpdateFlows || backlog) {
        skippedLastTime := true;
      } else if need {
        done := true;
        flushes := PutNow(req, otherMsgs, x, World(State(), net, h.(lastReq := req)));
      }
    }
  }
}
