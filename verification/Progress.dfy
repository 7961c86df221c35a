/** The current configuration of controller/ofctrl.c does advance: exactly when it
    reaches the configuration of a put, and that requests are then acknowledged. */
module Progress {
  import opened Options
  import opened OfctrlState
  import opened OfctrlProofs
  import opened Acknowledged
  import opened Delivery
  import Seqno

  /** For each put that took its configuration up: `cfgs` has that configuration,
      `base` the current one at the time, and `due` a transaction id: the put's
      configuration is due once everything before that is answered. */
  datatype Prog = Prog(s: Sys, cfgs: seq<nat>, base: seq<nat>, due: seq<nat>)

  /** A put with messages for the configuration of the put before it, while not
      everything is answered: what was due with that one is due with this one. */
  ghost predicate Defers(p: Prog, ev: Event) {
    && Sends(p.s.w.o, ev) && p.cfgs != [] && ev.req == p.cfgs[|p.cfgs| - 1]
    && !AnsweredBelow(p.s.w, p.s.w.net.nextXid)
  }

  function Deferred(due: seq<nat>, m: nat, m': nat): (r: seq<nat>)
    ensures |r| == |due| && forall i | 0 <= i < |r| :: r[i] == if due[i] == m then m' else due[i]
  {
    seq(|due|, i requires 0 <= i < |due| => if due[i] == m then m' else due[i])
  }

  ghost function After(p: Prog, e: SysEvent): Prog
    requires MayHappen(p.s, e)
  {
    var s' := Next(p.s, e);
    if e.Connection? && PutTakesUp(p.s.w.o, e.ev) then
      var m, m' := p.s.w.net.nextXid, s'.w.net.nextXid;
      Prog(s', p.cfgs + [e.ev.req], p.base + [p.s.w.o.curCfg],
           (if Defers(p, e.ev) then Deferred(p.due, m, m') else p.due) + [m'])
    else p.(s := s')
  }

  // ------------------------------------------------------------------ what is kept

  /** Update `u` stands for the put: until its barrier is answered, and not before,
      the current configuration is below the put's, unless it was not at first. */
  ghost predicate Waits(w: World, cfg: nat, base: nat, due: nat, u: Update) {
    && u in w.o.flowUpdates && u.xid + 1 == due && cfg <= u.req
    && if base < cfg
       then w.o.curCfg < cfg && forall v | v in w.o.flowUpdates && v.xid < u.xid :: v.req < cfg
       else cfg <= w.o.curCfg
  }

  ghost predicate Reached(w: World, cfg: nat, due: nat) {
    due <= w.net.nextXid && AnsweredBelow(w, due) && cfg <= w.o.curCfg
  }

  ghost predicate PutOk(w: World, cfg: nat, base: nat, due: nat) {
    Reached(w, cfg, due) || exists u :: Waits(w, cfg, base, due, u)
  }

  ghost predicate Rising(cfgs: seq<nat>, epoch: nat, top: nat) {
    && (forall i, j | epoch <= i < j < |cfgs| :: cfgs[i] <= cfgs[j])
    && (forall i | epoch <= i < |cfgs| :: cfgs[i] <= top)
  }

  /** Updates wait for batches, in the order of configurations; the newest is for
      the newest put. */
  ghost predicate FlowsOk(w: World, epoch: nat, cfgs: seq<nat>) {
    var fs := w.o.flowUpdates;
    && InReqOrder(fs) && (forall u | u in fs :: IsBatch(w.h.batches, u.xid))
    && (fs != [] ==>
          && epoch < |cfgs| && fs[|fs| - 1].req == cfgs[|cfgs| - 1]
          && fs[|fs| - 1].xid + 1 == w.net.nextXid)
  }

  ghost predicate LiveOk(p: Prog)
    requires |p.cfgs| == |p.base| == |p.due|
  {
    && FlowsOk(p.s.w, p.s.epoch, p.cfgs) && Rising(p.cfgs, p.s.epoch, p.s.reqSeqno)
    && forall i | p.s.epoch <= i < |p.cfgs| :: PutOk(p.s.w, p.cfgs[i], p.base[i], p.due[i])
  }

  ghost predicate ProgInv(p: Prog) {
    && SysInv(p.s) && |p.cfgs| == |p.base| == |p.due| == |p.s.puts|
    && (Live(p.s) ==> LiveOk(p))
  }

  // -------------------------------------------------------- updates and one put

  /** An update waits for its barrier. */
  lemma NotAnswered(w: World, u: Update, m: nat)
    requires NetInv(w) && w.o.phase.SUpdateFlows? && u in w.o.flowUpdates && IsBatch(w.h.batches, u.xid) && u.xid < m
    ensures !AnsweredBelow(w, m)
  {
    var b :| b in w.h.batches && b.xid == u.xid;
  }

  /** When the current configuration has reached a put's. */
  lemma PutMeans(w: World, cfg: nat, base: nat, due: nat)
    requires NetInv(w) && w.o.phase.SUpdateFlows? && PutOk(w, cfg, base, due)
    requires forall u | u in w.o.flowUpdates :: IsBatch(w.h.batches, u.xid)
    ensures cfg <= w.o.curCfg <==> cfg <= base || AnsweredBelow(w, due)
  {
    if u :| Waits(w, cfg, base, due, u) {
      NotAnswered(w, u, due);
    }
  }

  lemma BarrierPut(w: World, cfg: nat, base: nat, due: nat)
    requires NetInv(w) && w.o.phase.SUpdateFlows? && w.net.inFlight != [] && PutOk(w, cfg, base, due)
    ensures PutOk(Recv(w, BarrierReply), cfg, base, due)
  {
    var w', x := Recv(w, BarrierReply), w.net.inFlight[0];
    BarrierReaches(w);
    BarrierPops(w);
    if u :| Waits(w, cfg, base, due, u) {
      if u.xid <= x {
        assert Reached(w', cfg, due);
      } else {
        assert Waits(w', cfg, base, due, u);
      }
    }
  }

  lemma BarrierFlows(w: World, epoch: nat, cfgs: seq<nat>)
    requires NetInv(w) && w.o.phase.SUpdateFlows? && w.net.inFlight != [] && FlowsOk(w, epoch, cfgs)
    ensures FlowsOk(Recv(w, BarrierReply), epoch, cfgs)
  {
    BarrierPops(w);
  }

  /** The three ways in which a put takes its configuration up. */
  ghost predicate AtOnce(w: World, w': World, req: nat) {
    && w.o.flowUpdates == w'.o.flowUpdates == [] && w'.o.curCfg == req
    && w'.net == w.net && w'.h.batches == w.h.batches && w'.h.answered == w.h.answered
  }

  ghost predicate Joined(w: World, w': World, req: nat) {
    var fs := w.o.flowUpdates;
    && fs != [] && w'.o.flowUpdates == fs[|fs| - 1 := fs[|fs| - 1].(req := req)] && w'.o.curCfg == w.o.curCfg
    && w'.net == w.net && w'.h.batches == w.h.batches && w'.h.answered == w.h.answered
  }

  ghost predicate SentOut(w: World, w': World, req: nat) {
    var x := w.net.nextXid;
    && w'.o.flowUpdates == Track(w.o.flowUpdates, x, req) && w'.o.curCfg == w.o.curCfg
    && w'.net.nextXid == x + 1 && w'.h.batches == w.h.batches + [Batch(x, req)] && w'.h.answered == w.h.answered
  }

  lemma PutKinds(w: World, ev: Event)
    requires Enabled(w, ev) && PutTakesUp(w.o, ev)
    ensures var w' := Step(w, ev);
      if Sends(w.o, ev) then SentOut(w, w', ev.req) else AtOnce(w, w', ev.req) || Joined(w, w', ev.req)
  {
    PutIs(w, ev);
  }

  lemma AtOncePut(w: World, w': World, req: nat, cfg: nat, base: nat, due: nat)
    requires AtOnce(w, w', req) && PutOk(w, cfg, base, due) && cfg <= req
    ensures PutOk(w', cfg, base, due)
  {
    assert Reached(w', cfg, due);
  }

  lemma JoinedPut(w: World, w': World, req: nat, cfg: nat, base: nat, due: nat)
    requires Joined(w, w', req) && InXidOrder(w.o.flowUpdates) && PutOk(w, cfg, base, due) && cfg <= req
    ensures PutOk(w', cfg, base, due)
  {
    var fs, fs' := w.o.flowUpdates, w'.o.flowUpdates;
    var last := |fs| - 1;
    if u :| Waits(w, cfg, base, due, u) {
      var k :| 0 <= k < |fs| && fs[k] == u;
      assert forall i | 0 <= i < |fs| :: fs[i] in fs && fs'[i].xid == fs[i].xid;
      forall v | v in fs' && v.xid < u.xid ensures v in fs {
        var i :| 0 <= i < |fs'| && fs'[i] == v;
        assert i != last;
      }
      assert Waits(w', cfg, base, due, fs'[k]);
    }
  }

  /** What the loop that records a barrier makes of updates in order. */
  lemma TrackShape(fs: seq<Update>, x: nat, req: nat)
    requires InReqOrder(fs) && forall f | f in fs :: f.req <= req
    ensures Track(fs, x, req) ==
      (if fs != [] && fs[|fs| - 1].req == req then fs[..|fs| - 1] else fs) + [Update(x, req)]
  {
    assert fs != [] ==> fs[|fs| - 1] in fs;
  }

  lemma SentPut(w: World, w': World, req: nat, cfg: nat, base: nat, due: nat, due': nat)
    requires NetInv(w) && w.o.phase.SUpdateFlows? && SentOut(w, w', req) && PutOk(w, cfg, base, due)
    requires InReqOrder(w.o.flowUpdates) && forall f | f in w.o.flowUpdates :: f.req <= req
    requires var fs, m := w.o.flowUpdates, w.net.nextXid;
      if fs != [] && fs[|fs| - 1].req == req
      then !AnsweredBelow(w, m) && fs[|fs| - 1].xid + 1 == m && due' == (if due == m then m + 1 else due)
      else due' == due
    ensures PutOk(w', cfg, base, due')
  {
    var fs, m := w.o.flowUpdates, w.net.nextXid;
    TrackShape(fs, m, req);
    if Reached(w, cfg, due) {
      assert Reached(w', cfg, due');
    } else {
      var u :| Waits(w, cfg, base, due, u);
      SentWaits(fs, w'.o.flowUpdates, m, req, u);
      if u in w'.o.flowUpdates {
        assert Waits(w', cfg, base, due', u);
      } else {
        assert Waits(w', cfg, base, due', Update(m, req));
      }
    }
  }

  /** Only the newest update can give way to the new one. */
  lemma SentWaits(fs: seq<Update>, fs': seq<Update>, m: nat, req: nat, u: Update)
    requires InXidOrder(fs) && u in fs && forall f | f in fs :: f.xid < m
    requires fs' == (if fs[|fs| - 1].req == req then fs[..|fs| - 1] else fs) + [Update(m, req)]
    ensures Update(m, req) in fs' && (forall v | v in fs' :: v in fs || v == Update(m, req))
    ensures u in fs' <==> !(fs[|fs| - 1].req == req && u == fs[|fs| - 1])
    ensures u !in fs' ==> forall v | v in fs' && v.xid < m :: v.xid < u.xid
    ensures fs[|fs| - 1] in fs && u.xid <= fs[|fs| - 1].xid && (u.xid == fs[|fs| - 1].xid ==> u == fs[|fs| - 1])
  {
    var n := |fs| - 1;
    assert fs'[|fs'| - 1] == Update(m, req);
    var k :| 0 <= k < |fs| && fs[k] == u;
    assert k < n ==> fs[..n][k] == u && fs[k].xid < fs[n].xid;
    forall v | v in fs[..n] ensures v in fs && v.xid < fs[n].xid {
      var i :| 0 <= i < n && fs[..n][i] == v;
      assert fs[i].xid < fs[n].xid;
    }
  }

  // ------------------------------------------------------------------- the new put

  lemma NewAtOnce(w: World, w': World, req: nat)
    requires NetInv(w) && AtOnce(w, w', req)
    ensures PutOk(w', req, w.o.curCfg, w'.net.nextXid)
  {
    NothingWaits(w);
    assert Reached(w', req, w'.net.nextXid);
  }

  lemma NewJoined(w: World, w': World, req: nat)
    requires NetInv(w) && Joined(w, w', req) && InReqOrder(w.o.flowUpdates)
    requires var fs := w.o.flowUpdates; fs[|fs| - 1].xid + 1 == w.net.nextXid && fs[|fs| - 1].req <= req
    ensures PutOk(w', req, w.o.curCfg, w'.net.nextXid)
  {
    var fs, fs' := w.o.flowUpdates, w'.o.flowUpdates;
    var last := |fs| - 1;
    forall v | v in fs' && v.xid < fs'[last].xid ensures v.req < req {
      var i :| 0 <= i < |fs'| && fs'[i] == v;
      assert i < last && fs[i].req < fs[last].req;
    }
    assert fs'[last] in fs' && Waits(w', req, w.o.curCfg, w'.net.nextXid, fs'[last]);
  }

  lemma NewSent(w: World, w': World, req: nat)
    requires NetInv(w) && SentOut(w, w', req)
    requires InReqOrder(w.o.flowUpdates) && forall f | f in w.o.flowUpdates :: f.req <= req
    ensures PutOk(w', req, w.o.curCfg, w'.net.nextXid)
  {
    var x := w.net.nextXid;
    TrackXids(w.o.flowUpdates, x, req);
    TrackForward(w.o.flowUpdates, x, req);
    var fs' := w'.o.flowUpdates;
    assert fs'[|fs'| - 1] in fs';
    assert Waits(w', req, w.o.curCfg, w'.net.nextXid, Update(x, req));
  }

  // ----------------------------------------------------------------- all the updates

  lemma JoinedFlows(w: World, w': World, req: nat, epoch: nat, cfgs: seq<nat>)
    requires Joined(w, w', req) && FlowsOk(w, epoch, cfgs) && cfgs[|cfgs| - 1] <= req
    ensures FlowsOk(w', epoch, cfgs + [req])
  {
    var fs, fs' := w.o.flowUpdates, w'.o.flowUpdates;
    forall u | u in fs' ensures IsBatch(w'.h.batches, u.xid) {
      var i :| 0 <= i < |fs'| && fs'[i] == u;
      assert fs[i] in fs && fs[i].xid == u.xid;
    }
  }

  lemma SentFlows(w: World, w': World, req: nat, epoch: nat, cfgs: seq<nat>)
    requires NetInv(w) && SentOut(w, w', req) && FlowsOk(w, epoch, cfgs) && epoch <= |cfgs|
    requires forall f | f in w.o.flowUpdates :: f.req <= req
    ensures FlowsOk(w', epoch, cfgs + [req])
  {
    var x := w.net.nextXid;
    TrackXids(w.o.flowUpdates, x, req);
    TrackForward(w.o.flowUpdates, x, req);
    assert Batch(x, req) in w'.h.batches;
    forall u | u in w'.o.flowUpdates ensures IsBatch(w'.h.batches, u.xid) {
      if u in w.o.flowUpdates {
        var b :| b in w.h.batches && b.xid == u.xid;
        assert b in w'.h.batches;
      }
    }
  }

  /** No update is for a configuration beyond the newest put's. */
  lemma UpdatesUpTo(w: World, epoch: nat, cfgs: seq<nat>, req: nat)
    requires FlowsOk(w, epoch, cfgs) && (w.o.flowUpdates != [] ==> cfgs[|cfgs| - 1] <= req)
    ensures forall f | f in w.o.flowUpdates :: f.req <= req
  {
    var fs := w.o.flowUpdates;
    forall f | f in fs ensures f.req <= req {
      var i :| 0 <= i < |fs| && fs[i] == f;
      assert i < |fs| - 1 ==> fs[i].req < fs[|fs| - 1].req;
    }
  }

  lemma DefersIs(p: Prog, ev: Event)
    requires NetInv(p.s.w) && p.s.w.o.phase.SUpdateFlows? && FlowsOk(p.s.w, p.s.epoch, p.cfgs) && Sends(p.s.w.o, ev)
    ensures var fs := p.s.w.o.flowUpdates; Defers(p, ev) <==> fs != [] && fs[|fs| - 1].req == ev.req
    ensures p.s.w.o.flowUpdates != [] ==> !AnsweredBelow(p.s.w, p.s.w.net.nextXid)
  {
    var w := p.s.w;
    var fs := w.o.flowUpdates;
    if fs == [] {
      NothingWaits(w);
    } else {
      assert fs[|fs| - 1] in fs;
      NotAnswered(w, fs[|fs| - 1], w.net.nextXid);
    }
  }

  // --------------------------------------------------------------------- every event

  /** One of the puts made before, when another one has messages to send. */
  lemma OldSent(p: Prog, ev: Event, i: nat)
    requires ProgInv(p) && Live(p.s) && MayHappen(p.s, Connection(ev)) && Sends(p.s.w.o, ev)
    requires p.s.epoch <= i < |p.cfgs| && SentOut(p.s.w, Next(p.s, Connection(ev)).w, ev.req)
    ensures var w, w' := p.s.w, Next(p.s, Connection(ev)).w;
      var due' := if Defers(p, ev) && p.due[i] == w.net.nextXid then w'.net.nextXid else p.due[i];
      PutOk(w', p.cfgs[i], p.base[i], due')
  {
    var w, w' := p.s.w, Next(p.s, Connection(ev)).w;
    var due' := if Defers(p, ev) && p.due[i] == w.net.nextXid then w'.net.nextXid else p.due[i];
    UpdatesUpTo(w, p.s.epoch, p.cfgs, ev.req);
    DefersIs(p, ev);
    SentPut(w, w', ev.req, p.cfgs[i], p.base[i], p.due[i], due');
  }

  /** One of the puts made before. */
  lemma OldPut(p: Prog, ev: Event, i: nat)
    requires ProgInv(p) && Live(p.s) && MayHappen(p.s, Connection(ev)) && PutTakesUp(p.s.w.o, ev)
    requires p.s.epoch <= i < |p.cfgs|
    ensures var p' := After(p, Connection(ev)); PutOk(p'.s.w, p'.cfgs[i], p'.base[i], p'.due[i])
  {
    var p', w := After(p, Connection(ev)), p.s.w;
    PutKinds(w, ev);
    if Sends(w.o, ev) {
      OldSent(p, ev, i);
    } else if AtOnce(w, p'.s.w, ev.req) {
      AtOncePut(w, p'.s.w, ev.req, p.cfgs[i], p.base[i], p.due[i]);
    } else {
      JoinedPut(w, p'.s.w, ev.req, p.cfgs[i], p.base[i], p.due[i]);
    }
  }

  lemma NewPut(p: Prog, ev: Event)
    requires ProgInv(p) && Live(p.s) && MayHappen(p.s, Connection(ev)) && PutTakesUp(p.s.w.o, ev)
    ensures var w' := Next(p.s, Connection(ev)).w;
      PutOk(w', ev.req, p.s.w.o.curCfg, w'.net.nextXid) && FlowsOk(w', p.s.epoch, p.cfgs + [ev.req])
  {
    var w, w' := p.s.w, Next(p.s, Connection(ev)).w;
    PutKinds(w, ev);
    UpdatesUpTo(w, p.s.epoch, p.cfgs, ev.req);
    if Sends(w.o, ev) {
      NewSent(w, w', ev.req);
      SentFlows(w, w', ev.req, p.s.epoch, p.cfgs);
    } else if AtOnce(w, w', ev.req) {
      NewAtOnce(w, w', ev.req);
    } else {
      NewJoined(w, w', ev.req);
      JoinedFlows(w, w', ev.req, p.s.epoch, p.cfgs);
    }
  }

  lemma PutKeeps(p: Prog, ev: Event)
    requires ProgInv(p) && Live(p.s) && MayHappen(p.s, Connection(ev)) && PutTakesUp(p.s.w.o, ev)
    ensures LiveOk(After(p, Connection(ev)))
  {
    var p', n := After(p, Connection(ev)), |p.cfgs|;
    assert p'.s.epoch == p.s.epoch && p'.s.reqSeqno == ev.req;
    assert p'.cfgs[n] == ev.req && p'.base[n] == p.s.w.o.curCfg && p'.due[n] == p'.s.w.net.nextXid;
    NewPut(p, ev);
    RisingPush(p.cfgs, p.s.epoch, ev.req);
    forall i | p.s.epoch <= i < n ensures PutOk(p'.s.w, p'.cfgs[i], p'.base[i], p'.due[i]) {
      OldPut(p, ev, i);
    }
  }

  lemma RisingPush(cfgs: seq<nat>, epoch: nat, top: nat)
    requires Rising(cfgs, epoch, top)
    ensures Rising(cfgs + [top], epoch, top)
  {
  }

  /** Nothing that puts wait on has changed. */
  ghost predicate SameWaits(w: World, w': World) {
    && w'.o.flowUpdates == w.o.flowUpdates && w'.o.curCfg == w.o.curCfg && w'.net.nextXid == w.net.nextXid
    && w'.h.batches == w.h.batches && w'.h.answered == w.h.answered
  }

  lemma OtherWaits(w: World, ev: Event)
    requires Enabled(w, ev) && w.o.phase.SUpdateFlows? && !ev.Reconnect? && !PutTakesUp(w.o, ev)
    requires !(ev.Iterate? && ev.msg == Some(BarrierReply))
    ensures SameWaits(w, Step(w, ev))
  {
    if ev.Iterate? && ev.msg.Some? {
      RecvFrame(w, ev.msg.value);
    }
  }

  lemma SameKeepsPut(w: World, w': World, cfg: nat, base: nat, due: nat)
    requires SameWaits(w, w') && PutOk(w, cfg, base, due)
    ensures PutOk(w', cfg, base, due)
  {
    if u :| Waits(w, cfg, base, due, u) {
      assert Waits(w', cfg, base, due, u);
    } else {
      assert Reached(w', cfg, due);
    }
  }

  /** An event that changes nothing, or a barrier reply. */
  lemma OtherKeeps(p: Prog, ev: Event)
    requires ProgInv(p) && Live(p.s) && MayHappen(p.s, Connection(ev)) && !ev.Reconnect? && !PutTakesUp(p.s.w.o, ev)
    ensures LiveOk(After(p, Connection(ev)))
  {
    var p', w := After(p, Connection(ev)), p.s.w;
    var replies := ev.Iterate? && ev.msg == Some(BarrierReply);
    if replies {
      assert p'.s.w == Recv(w, BarrierReply);
      BarrierFlows(w, p.s.epoch, p.cfgs);
    } else {
      OtherWaits(w, ev);
    }
    forall i | p.s.epoch <= i < |p.cfgs| ensures PutOk(p'.s.w, p.cfgs[i], p.base[i], p.due[i]) {
      if replies {
        BarrierPut(w, p.cfgs[i], p.base[i], p.due[i]);
      } else {
        SameKeepsPut(w, p'.s.w, p.cfgs[i], p.base[i], p.due[i]);
      }
    }
  }

  /** After flows are cleared there is nothing to wait for. */
  lemma ClearKeepsLive(p: Prog, ev: Event)
    requires ProgInv(p) && MayHappen(p.s, Connection(ev)) && Clears(p.s.w.o, ev)
    ensures LiveOk(After(p, Connection(ev)))
  {
    var w1 := RunState(p.s.w, ev.now);
    assert w1.o.flowUpdates == [] && w1.o.phase.SUpdateFlows?;
    if ev.msg.Some? {
      if ev.msg.value.BarrierReply? {
        assert Recv(w1, BarrierReply).o.flowUpdates == [];
      } else {
        RecvFrame(w1, ev.msg.value);
      }
    }
    assert Next(p.s, Connection(ev)).w.o.flowUpdates == [];
  }

  lemma ConnectionProg(p: Prog, ev: Event)
    requires ProgInv(p) && MayHappen(p.s, Connection(ev))
    ensures var p' := After(p, Connection(ev));
      |p'.cfgs| == |p'.base| == |p'.due| == |p'.s.puts| && (Live(p'.s) ==> LiveOk(p'))
  {
    if Clears(p.s.w.o, ev) {
      ClearKeepsLive(p, ev);
    } else if ev.Reconnect? || !Live(p.s) {
      StillAside(p.s, ev);
    } else if PutTakesUp(p.s.w.o, ev) {
      PutKeeps(p, ev);
    } else {
      OtherKeeps(p, ev);
    }
  }

  /** Every event keeps what is known about puts. */
  lemma ProgKeeps(p: Prog, e: SysEvent)
    requires ProgInv(p) && MayHappen(p.s, e)
    ensures ProgInv(After(p, e))
  {
    assert SysInv(Next(p.s, e)) by { NextKeeps(p.s, e); }
    if e.Connection? {
      ConnectionProg(p, e.ev);
    }
  }

  // ------------------------------------------------------------------------ all runs

  ghost predicate IsProgRun(ps: seq<Prog>, es: seq<SysEvent>) {
    && |ps| == |es| + 1 && SysInit(ps[0].s) && ps[0] == Prog(ps[0].s, [], [], [])
    && forall i | 0 <= i < |es| :: MayHappen(ps[i].s, es[i]) && ps[i + 1] == After(ps[i], es[i])
  }

  lemma {:induction false} ProgRunKeeps(ps: seq<Prog>, es: seq<SysEvent>, n: nat)
    requires IsProgRun(ps, es) && n < |ps|
    ensures ProgInv(ps[n])
  {
    if n > 0 {
      ProgRunKeeps(ps, es, n - 1);
      ProgKeeps(ps[n - 1], es[n - 1]);
    }
  }

  /** In every run, with any number of lost connections and reconnects: while
      barriers are processed, the current configuration has reached that of a put
      made since flows were cleared exactly if it had when the put was made, or
      everything is answered that was sent before the put is due. */
  lemma ReachedExactly(ps: seq<Prog>, es: seq<SysEvent>, n: nat, i: nat)
    requires IsProgRun(ps, es) && n < |ps| && Live(ps[n].s) && ps[n].s.epoch <= i < |ps[n].s.puts|
    ensures i < |ps[n].cfgs| == |ps[n].base| == |ps[n].due|
    ensures var p := ps[n];
      p.cfgs[i] <= p.s.w.o.curCfg <==> p.cfgs[i] <= p.base[i] || AnsweredBelow(p.s.w, p.due[i])
  {
    ProgRunKeeps(ps, es, n);
    PutMeans(ps[n].s.w, ps[n].cfgs[i], ps[n].base[i], ps[n].due[i]);
  }

  /** `e` is put `i`, or one after it for the configuration of the put before. */
  ghost predicate DueWith(p: Prog, i: nat, e: nat)
    requires |p.cfgs| == |p.due| == |p.s.puts| && i < |p.due|
  {
    i <= e < |p.s.puts| && p.due[i] == p.s.puts[e] && (i < e ==> p.cfgs[e] == p.cfgs[e - 1])
  }

  ghost predicate DueOk(p: Prog) {
    && |p.cfgs| == |p.base| == |p.due| == |p.s.puts|
    && forall i | 0 <= i < |p.due| :: HasDue(p, i)
  }

  ghost predicate HasDue(p: Prog, i: nat)
    requires |p.cfgs| == |p.due| == |p.s.puts| && i < |p.due|
  {
    exists e: nat :: DueWith(p, i, e)
  }

  lemma DueKeeps(p: Prog, e: SysEvent)
    requires DueOk(p) && MayHappen(p.s, e)
    ensures DueOk(After(p, e))
  {
    var p', n := After(p, e), |p.due|;
    forall i | 0 <= i < |p'.due| ensures HasDue(p', i) {
      if i == n || p'.due[i] != p.due[i] {
        assert DueWith(p', i, n);
      } else {
        assert HasDue(p, i);
        var x: nat :| DueWith(p, i, x);
        assert DueWith(p', i, x);
      }
    }
  }

  /** When a put is due: with the put itself, or with a later one that has messages
      for the configuration of the put before it. */
  lemma {:induction false} DueMeans(ps: seq<Prog>, es: seq<SysEvent>, n: nat)
    requires IsProgRun(ps, es) && n < |ps|
    ensures DueOk(ps[n])
  {
    if n > 0 {
      DueMeans(ps, es, n - 1);
      DueKeeps(ps[n - 1], es[n - 1]);
    }
  }

  /** What `cfgs`, `base` and `puts` say about put `i`, which event `g` made. */
  lemma {:induction false} FieldsMean(ps: seq<Prog>, es: seq<SysEvent>, n: nat, i: nat) returns (g: nat)
    requires IsProgRun(ps, es) && n < |ps| && i < |ps[n].s.puts|
    ensures g < n && es[g].Connection? && PutTakesUp(ps[g].s.w.o, es[g].ev) && |ps[g].s.puts| == i
    ensures i < |ps[n].cfgs| == |ps[n].base| == |ps[n].s.puts|
    ensures ps[n].cfgs[i] == es[g].ev.req && ps[n].base[i] == ps[g].s.w.o.curCfg
    ensures ps[n].s.puts[i] == ps[g + 1].s.w.net.nextXid
  {
    g := n - 1;
    DueMeans(ps, es, g);
    assert ps[n] == After(ps[g], es[g]);
    if i < |ps[g].s.puts| {
      g := FieldsMean(ps, es, g, i);
    }
  }

  /** `ofctrl_seqno_run` acknowledges exactly the requests up to the current
      configuration. */
  lemma AcknowledgesUpTo(s: Sys, c: nat)
    requires SysInv(s)
    ensures c in Next(s, SeqnoRun).acked <==> c in s.acked || (c in s.info && c <= s.w.o.curCfg)
  {
    var f := s.w.o.curCfg;
    forall u ensures u in Seqno.UpTo(s.flight, f) <==> u in s.flight && u.flowCfg <= f {
      Seqno.InUpTo(s.flight, f, u);
    }
    if c in s.info && c !in s.acked {
      var u :| u in s.flight && u.flowCfg == c;
      assert c <= f ==> u in Seqno.UpTo(s.flight, f);
    }
  }

  /** So once everything up to a put is answered, and no later put was for the same
      configuration as the one before it, the next `ofctrl_seqno_run` acknowledges
      every request up to the put's configuration. */
  lemma AnsweredIsAcknowledged(ps: seq<Prog>, es: seq<SysEvent>, n: nat, i: nat, c: nat)
    requires IsProgRun(ps, es) && n < |ps| && Live(ps[n].s) && ps[n].s.epoch <= i < |ps[n].s.puts|
    requires |ps[n].cfgs| == |ps[n].s.puts| && AnsweredBelow(ps[n].s.w, ps[n].s.puts[i])
    requires forall k | i < k < |ps[n].cfgs| :: ps[n].cfgs[k] != ps[n].cfgs[k - 1]
    requires c in ps[n].s.info && c <= ps[n].cfgs[i]
    ensures ps[n].cfgs[i] <= ps[n].s.w.o.curCfg && c in Next(ps[n].s, SeqnoRun).acked
  {
    DueMeans(ps, es, n);
    assert HasDue(ps[n], i);
    var e: nat :| DueWith(ps[n], i, e);
    ReachedExactly(ps, es, n, i);
    assert SysInv(ps[n].s) by { ProgRunKeeps(ps, es, n); }
    AcknowledgesUpTo(ps[n].s, c);
  }

  lemma RunSendAgain(ss: seq<Sys>, es: seq<SysEvent>, x: nat) returns (ss': seq<Sys>, es': seq<SysEvent>)
    requires IsSysRun(ss, es)
    requires var s := ss[|es|];
      && Plain(s) && Live(s) && s.w.net.nextXid == x + 1 && s.w.net.inFlight == [x]
      && s.w.o.flowUpdates == [Update(x, s.reqSeqno)] && s.w.h.batches == [Batch(x, s.reqSeqno)]
    ensures IsSysRun(ss', es') && |es'| == |es| + 1 && ss <= ss' && es <= es'
    ensures var s, s' := ss[|es|], ss'[|es'|];
      && Live(s') && s.puts <= s'.puts && s'.epoch == s.epoch && s'.w.o.curCfg == s.w.o.curCfg
      && s'.w.net.inFlight == [x, x + 1] && s'.w.o.flowUpdates == [Update(x + 1, s.reqSeqno)]
      && s'.w.h.batches == [Batch(x, s.reqSeqno), Batch(x + 1, s.reqSeqno)]
  {
    ss', es' := Extended(ss, es, Connection(Put(ss[|es|].reqSeqno, true, true, false, [])));
  }

  lemma RunFirstReply(ss: seq<Sys>, es: seq<SysEvent>, x: nat, r: nat, i: nat)
      returns (ss': seq<Sys>, es': seq<SysEvent>)
    requires IsSysRun(ss, es)
    requires var s := ss[|es|];
      && Live(s) && s.w.net.inFlight == [x, x + 1] && s.w.o.flowUpdates == [Update(x + 1, r)]
      && s.w.h.batches == [Batch(x, r), Batch(x + 1, r)] && s.epoch <= i < |s.puts| && s.puts[i] == x + 1
    ensures IsSysRun(ss', es') && |es'| == |es| + 1 && ss <= ss' && es <= es'
    ensures var s, s' := ss[|es|], ss'[|es'|]; Live(s') && i in s'.settled && s'.w.o.curCfg == s.w.o.curCfg
  {
    var s := ss[|es|];
    ss', es' := Extended(ss, es, Connection(Iterate(0, Some(BarrierReply))));
    assert ss'[|es'|] == Settled(s.(w := Recv(s.w, BarrierReply)));
    assert AnsweredBelow(Recv(s.w, BarrierReply), s.puts[i]);
  }

  lemma RunRequest(s0: Sys, t: nat, cfg: nat) returns (ss: seq<Sys>, es: seq<SysEvent>)
    requires SysInit(s0)
    ensures IsSysRun(ss, es) && ss[0] == s0
    ensures var s := ss[|es|]; Ready(s) && s.reqSeqno == 1 && s.w.o.curCfg == 0
  {
    ss, es := RunConnect([s0], []);
    ss, es := Extended(ss, es, Request(t, cfg));
  }

  /** Without that condition it need not be so: a put for configuration 1, another
      one for it with more messages, and the reply to the first barrier. The first
      put is settled, and the current configuration is still 0. */
  lemma SettledNotReached(s0: Sys, t: nat, cfg: nat) returns (ss: seq<Sys>, es: seq<SysEvent>, g: nat)
    requires SysInit(s0)
    ensures IsSysRun(ss, es) && ss[0] == s0 && PutAt(ss, es, g) && Live(ss[|es|])
    ensures |ss[g].puts| in ss[|es|].settled && ss[|es|].w.o.curCfg < es[g].ev.req
  {
    ss, es := RunRequest(s0, t, cfg);
    g := |es|;
    var s := ss[g];
    ss, es := RunSend(ss, es);
    ss, es := RunSendAgain(ss, es, s.w.net.nextXid);
    ss, es := RunFirstReply(ss, es, s.w.net.nextXid, s.reqSeqno, |s.puts|);
    assert ss[g] == s && es[g].ev.req == 1;
  }
}
