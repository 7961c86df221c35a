/** What every run of the OpenFlow connection keeps. */
module OfctrlProofs {
  import opened Options
  import opened Lists
  import opened OfctrlState

  // ----------------------------------------------- barriers and flow updates

  /** Flow updates are in the order their barriers were sent. */
  ghost predicate InXidOrder(fs: seq<Update>) {
    forall i, j | 0 <= i < j < |fs| :: fs[i].xid < fs[j].xid
  }

  /** Transaction ids are fresh, barriers in flight are in the order they were
      sent and not answered. */
  ghost predicate XidsOk(net: Net, answered: set<nat>) {
    && net.nextXid > 0
    && Increasing(net.inFlight)
    && (forall x | x in net.inFlight :: x < net.nextXid && x !in answered)
    && (forall x | x in answered :: x < net.nextXid)
  }

  /** A batch whose barrier is not answered is covered by a flow update that
      waits for that barrier or a later one. */
  ghost predicate Covered(fs: seq<Update>, b: Batch) {
    fs != [] && b.xid <= fs[|fs| - 1].xid
  }

  ghost predicate UpdatesOk(fs: seq<Update>, nextXid: nat, batches: seq<Batch>, answered: set<nat>) {
    && InXidOrder(fs)
    && (forall f | f in fs :: f.xid < nextXid)
    && (forall b | b in batches && b.xid !in answered :: Covered(fs, b))
  }

  /** While the connection is up and running, every flow update and every
      unanswered batch waits for a barrier that is in flight. */
  ghost predicate Waiting(fs: seq<Update>, inFlight: seq<nat>, batches: seq<Batch>, answered: set<nat>) {
    && (forall f | f in fs :: f.xid in inFlight)
    && (forall b | b in batches :: b.xid in answered || b.xid in inFlight)
  }

  ghost predicate NetInv(w: World) {
    && XidsOk(w.net, w.h.answered)
    && UpdatesOk(w.o.flowUpdates, w.net.nextXid, w.h.batches, w.h.answered)
    && (w.o.phase.SUpdateFlows? ==> Waiting(w.o.flowUpdates, w.net.inFlight, w.h.batches, w.h.answered))
  }

  lemma {:induction false} TrackXids(fs: seq<Update>, x: nat, req: nat)
    requires InXidOrder(fs) && forall f | f in fs :: f.xid < x
    ensures var r := Track(fs, x, req);
      && InXidOrder(r) && r != [] && r[|r| - 1] == Update(x, req)
      && forall f | f in r :: f.xid == x || f in fs
  {
    if fs != [] && req < fs[|fs| - 1].req {
      TrackXids(fs[..|fs| - 1], x, req);
    }
  }

  lemma SendPutNet(w: World, req: nat, flushes: seq<Zone>)
    requires NetInv(w)
    ensures NetInv(SendPut(w, req, flushes))
  {
    TrackXids(w.o.flowUpdates, w.net.nextXid, req);
    PushIncreasing(w.net.inFlight, w.net.nextXid);
  }

  /** Changing what the newest update acknowledges keeps the barriers. */
  lemma SameXids(fs: seq<Update>, fs': seq<Update>, req: nat)
    requires fs != [] && fs' == fs[|fs| - 1 := fs[|fs| - 1].(req := req)]
    ensures InXidOrder(fs) ==> InXidOrder(fs')
    ensures fs'[|fs'| - 1].xid == fs[|fs| - 1].xid
    ensures forall f | f in fs' :: exists g | g in fs :: g.xid == f.xid
  {
    forall f | f in fs' ensures exists g | g in fs :: g.xid == f.xid {
      var i :| 0 <= i < |fs'| && fs'[i] == f;
      assert fs[i] in fs && fs[i].xid == f.xid;
    }
  }

  lemma QuietPutNet(w: World, req: nat)
    requires NetInv(w)
    ensures NetInv(QuietPut(w, req))
  {
    if w.o.flowUpdates != [] {
      SameXids(w.o.flowUpdates, QuietPut(w, req).o.flowUpdates, req);
    }
  }

  lemma PutNet(w: World, req: nat, changed: bool, otherMsgs: bool, backlog: bool, flushes: seq<Zone>)
    requires NetInv(w)
    ensures NetInv(DoPut(w, req, changed, otherMsgs, backlog, flushes))
  {
    var (need, o) := NeedPut(w.o, req, changed);
    if need && o.phase.SUpdateFlows? && !backlog {
      var w2 := w.(o := o.(skippedLastTime := false, initialClear := false), h := w.h.(lastReq := req));
      if flushes != [] || otherMsgs || o.initialClear {
        SendPutNet(w2, req, flushes);
      } else {
        QuietPutNet(w2, req);
      }
    }
  }

  /** The next barrier in flight is answered. */
  lemma AnsweredXids(net: Net, answered: set<nat>)
    requires XidsOk(net, answered) && net.inFlight != []
    ensures var x := net.inFlight[0];
      && XidsOk(net.(inFlight := net.inFlight[1..]), answered + {x})
      && forall y | y in net.inFlight :: x <= y && (y == x || y in net.inFlight[1..])
  {
    TailIncreasing(net.inFlight);
  }

  lemma TailIncreasing(xs: seq<nat>)
    requires Increasing(xs) && xs != []
    ensures Increasing(xs[1..])
    ensures forall y | y in xs[1..] :: y in xs && xs[0] < y
    ensures forall y | y in xs :: y == xs[0] || y in xs[1..]
  {
    forall y | y in xs[1..] ensures y in xs && xs[0] < y {
      var i :| 0 <= i < |xs| - 1 && xs[1..][i] == y;
      assert xs[i + 1] == y;
    }
    forall y | y in xs ensures y == xs[0] || y in xs[1..] {
      var i :| 0 <= i < |xs| && xs[i] == y;
      assert i > 0 ==> xs[1..][i - 1] == y;
    }
  }

  /** What `recv_S_UPDATE_FLOWS` leaves of the flow updates. */
  function Popped(fs: seq<Update>, x: nat): seq<Update> {
    if fs != [] && fs[0].xid == x then fs[1..] else fs
  }

  /** Answering barrier `x`, the oldest in flight, keeps the bookkeeping right:
      only the front update can have been waiting for it. */
  lemma BarrierUpdates(fs: seq<Update>, net: Net, batches: seq<Batch>, answered: set<nat>)
    requires XidsOk(net, answered) && net.inFlight != []
    requires UpdatesOk(fs, net.nextXid, batches, answered) && Waiting(fs, net.inFlight, batches, answered)
    ensures var x := net.inFlight[0];
      && UpdatesOk(Popped(fs, x), net.nextXid, batches, answered + {x})
      && Waiting(Popped(fs, x), net.inFlight[1..], batches, answered + {x})
  {
    AnsweredXids(net, answered);
    var x := net.inFlight[0];
    PoppedAre(fs, x);
    forall b | b in batches && b.xid !in answered + {x} ensures Covered(Popped(fs, x), b) {
      assert Covered(fs, b) && b.xid in net.inFlight;
    }
  }

  /** Without the front, if it waits for the oldest barrier, none waits for it. */
  lemma PoppedAre(fs: seq<Update>, x: nat)
    requires InXidOrder(fs) && forall f | f in fs :: x <= f.xid
    ensures InXidOrder(Popped(fs, x))
    ensures forall f | f in Popped(fs, x) :: f in fs && f.xid != x
    ensures fs != [] && fs[|fs| - 1].xid > x ==>
      Popped(fs, x) != [] && Popped(fs, x)[|Popped(fs, x)| - 1] == fs[|fs| - 1]
  {
    var fs' := Popped(fs, x);
    forall f | f in fs' ensures f in fs && f.xid != x {
      var i :| 0 <= i < |fs'| && fs'[i] == f;
      assert fs[0] in fs && fs'[i] in fs;
      assert i + 1 < |fs| ==> fs[0].xid < fs[i + 1].xid;
      assert i > 0 ==> fs[0].xid < fs[i].xid;
    }
  }

  lemma FrontOnly(fs: seq<Update>, x: nat)
    requires InXidOrder(fs) && forall f | f in fs :: x <= f.xid
    ensures forall u | u in fs && u.xid <= x :: u == fs[0] && fs[0].xid == x
    ensures forall u :: u in Popped(fs, x) <==> u in fs && x < u.xid
    ensures fs != [] ==> fs[0] in fs
  {
    PoppedAre(fs, x);
    forall u | u in fs ensures (u.xid <= x ==> u == fs[0]) && (u.xid > x ==> u in Popped(fs, x)) {
      var i :| 0 <= i < |fs| && fs[i] == u;
      assert i > 0 ==> fs[0].xid < fs[i].xid && fs[1..][i - 1] == u;
    }
  }

  /** What the reply to the oldest barrier does: every update that waits for it, or
      for one before it, is reached, and no other one is touched. */
  lemma BarrierReaches(w: World)
    requires NetInv(w) && w.o.phase.SUpdateFlows? && w.net.inFlight != []
    ensures var o, o', x := w.o, Recv(w, BarrierReply).o, w.net.inFlight[0];
      && o.curCfg <= o'.curCfg
      && (forall u | u in o.flowUpdates && u.xid <= x :: u.req <= o'.curCfg)
      && (o'.curCfg == o.curCfg || exists u | u in o.flowUpdates && u.xid <= x :: u.req == o'.curCfg)
      && (forall u :: u in o'.flowUpdates <==> u in o.flowUpdates && x < u.xid)
  {
    AnsweredXids(w.net, w.h.answered);
    FrontOnly(w.o.flowUpdates, w.net.inFlight[0]);
  }

  lemma BarrierNet(w: World)
    requires NetInv(w) && !w.o.phase.SNew? && w.net.inFlight != []
    ensures NetInv(Recv(w, BarrierReply))
  {
    AnsweredXids(w.net, w.h.answered);
    if w.o.phase.SUpdateFlows? {
      BarrierUpdates(w.o.flowUpdates, w.net, w.h.batches, w.h.answered);
    }
  }

  lemma StepNet(w: World, ev: Event)
    requires NetInv(w) && Enabled(w, ev)
    ensures NetInv(Step(w, ev))
  {
    match ev
    case Iterate(now, msg) =>
      RunStateNet(w, now);
      if msg.Some? && msg.value.BarrierReply? {
        BarrierNet(RunState(w, now));
      } else if msg.Some? {
        RecvOtherNet(RunState(w, now), msg.value);
      }
    case Put(req, changed, otherMsgs, backlog, flushes) =>
      PutNet(w, req, changed, otherMsgs, backlog, flushes);
    case _ =>
  }

  lemma RunStateNet(w: World, now: nat)
    requires NetInv(w)
    ensures NetInv(RunState(w, now))
    ensures !RunState(w, now).o.phase.SNew? && RunState(w, now).net.inFlight == w.net.inFlight
  {
  }

  lemma PhaseNet(w: World, w': World)
    requires NetInv(w) && w'.net == w.net && w'.h == w.h && w'.o.flowUpdates == w.o.flowUpdates
    requires w'.o.phase.SUpdateFlows? ==> w.o.phase.SUpdateFlows?
    ensures NetInv(w')
  {
  }

  lemma TlvNet(w: World, table: TlvTable)
    requires NetInv(w) && w.o.phase.STlvTableRequested?
    ensures NetInv(RecvTlvTable(w, table))
  {
    PushIncreasing(w.net.inFlight, w.net.nextXid + 1);
  }

  lemma RecvOtherNet(w: World, reply: Reply)
    requires NetInv(w) && !w.o.phase.SNew? && !reply.BarrierReply?
    ensures NetInv(Recv(w, reply))
  {
    if reply.TlvReply? && w.o.phase.STlvTableRequested? && reply.xid == w.o.xid {
      TlvNet(w, reply.table);
    } else {
      PhaseNet(w, Recv(w, reply));
    }
  }

  // ------------------------------------------------------ conntrack-zone flushes

  /** On this connection, zone `z` was flushed before barrier `x` was sent. */
  ghost predicate FlushBefore(sent: seq<Msg>, z: Zone, x: nat) {
    exists i, j :: 0 <= i < j < |sent| && sent[i] == FlushZone(z) && sent[j] == Barrier(x)
  }

  lemma FlushStays(sent: seq<Msg>, more: seq<Msg>, z: Zone, x: nat)
    requires FlushBefore(sent, z, x)
    ensures FlushBefore(sent + more, z, x)
  {
    var i, j :| 0 <= i < j < |sent| && sent[i] == FlushZone(z) && sent[j] == Barrier(x);
    assert (sent + more)[i] == FlushZone(z) && (sent + more)[j] == Barrier(x);
  }

  /** A zone in OF_SENT waits for a barrier that is in flight, follows its flush
      on this connection, and ends a batch. */
  ghost predicate ZoneWaits(w: World, z: Zone, x: nat) {
    && w.o.phase.SUpdateFlows?
    && x in w.net.inFlight
    && (exists b | b in w.h.batches :: b.xid == x)
    && FlushBefore(w.net.sent, z, x)
  }

  ghost predicate ZoneInv(w: World) {
    forall z | z in w.o.zones && w.o.zones[z].OfSent? :: ZoneWaits(w, z, w.o.zones[z].xid)
  }

  lemma SendPutZones(w: World, req: nat, flushes: seq<Zone>)
    requires ZoneInv(w) && w.o.phase.SUpdateFlows? && Walks(flushes, w.o.zones)
    ensures ZoneInv(SendPut(w, req, flushes))
  {
    var w' := SendPut(w, req, flushes);
    var x := w.net.nextXid;
    forall z | z in w'.o.zones && w'.o.zones[z].OfSent? ensures ZoneWaits(w', z, w'.o.zones[z].xid) {
      assert Batch(x, req) in w'.h.batches;
      if w.o.zones[z].OfSent? {
        var y := w.o.zones[z].xid;
        assert ZoneWaits(w, z, y);
        FlushStays(w.net.sent, Flushes(flushes) + [Mods, Barrier(x)], z, y);
        assert w'.net.sent == w.net.sent + (Flushes(flushes) + [Mods, Barrier(x)]);
        var b :| b in w.h.batches && b.xid == y;
        assert b in w'.h.batches;
      } else {
        var i :| 0 <= i < |flushes| && flushes[i] == z;
        assert w'.net.sent[|w.net.sent| + i] == FlushZone(z);
        assert w'.net.sent[|w'.net.sent| - 1] == Barrier(x);
      }
    }
  }

  /** While a zone waits for a barrier, flow updates are not empty, so the reply
      is not skipped. */
  lemma ZoneReplySeen(w: World, z: Zone)
    requires NetInv(w) && ZoneInv(w) && z in w.o.zones && w.o.zones[z].OfSent?
    ensures w.o.flowUpdates != []
  {
    assert ZoneWaits(w, z, w.o.zones[z].xid);
    var b :| b in w.h.batches && b.xid == w.o.zones[z].xid;
    assert b.xid !in w.h.answered;
    assert Covered(w.o.flowUpdates, b);
  }

  lemma BarrierZones(w: World)
    requires NetInv(w) && ZoneInv(w) && !w.o.phase.SNew? && w.net.inFlight != []
    ensures ZoneInv(Recv(w, BarrierReply))
  {
    AnsweredXids(w.net, w.h.answered);
    var w' := Recv(w, BarrierReply);
    forall z | z in w'.o.zones && w'.o.zones[z].OfSent? ensures ZoneWaits(w', z, w'.o.zones[z].xid) {
      assert w.o.zones[z] == w'.o.zones[z];
      assert ZoneWaits(w, z, w.o.zones[z].xid);
      ZoneReplySeen(w, z);
    }
  }

  /** Zones keep waiting when nothing they wait on is taken away. */
  lemma ZoneFrame(w: World, w': World)
    requires ZoneInv(w)
    requires w.o.phase.SUpdateFlows? ==> w'.o.phase.SUpdateFlows? && w'.h.batches == w.h.batches
    requires w'.net.inFlight == w.net.inFlight && w'.net.sent == w.net.sent
    requires forall z | z in w'.o.zones && w'.o.zones[z].OfSent? :: z in w.o.zones && w.o.zones[z] == w'.o.zones[z]
    ensures ZoneInv(w')
  {
    forall z | z in w'.o.zones && w'.o.zones[z].OfSent? ensures ZoneWaits(w', z, w'.o.zones[z].xid) {
      assert ZoneWaits(w, z, w.o.zones[z].xid);
    }
  }

  /** Outside S_UPDATE_FLOWS no zone waits. */
  lemma NoZoneWaits(w: World, w': World)
    requires ZoneInv(w) && !w.o.phase.SUpdateFlows? && w'.o.zones == w.o.zones
    ensures ZoneInv(w')
  {
    forall z | z in w.o.zones ensures !w.o.zones[z].OfSent? {
      assert w.o.zones[z].OfSent? ==> ZoneWaits(w, z, w.o.zones[z].xid);
    }
  }

  lemma RunStateZones(w: World, now: nat)
    requires ZoneInv(w)
    ensures ZoneInv(RunState(w, now))
  {
    if !w.o.phase.SUpdateFlows? {
      NoZoneWaits(w, RunState(w, now));
    }
  }

  lemma RecvZones(w: World, reply: Reply)
    requires NetInv(w) && ZoneInv(w) && !w.o.phase.SNew? && (reply.BarrierReply? ==> w.net.inFlight != [])
    ensures ZoneInv(Recv(w, reply))
  {
    if reply.BarrierReply? {
      BarrierZones(w);
    } else if !w.o.phase.SUpdateFlows? {
      NoZoneWaits(w, Recv(w, reply));
    }
  }

  lemma IterateZones(w: World, now: nat, msg: Option<Reply>)
    requires NetInv(w) && ZoneInv(w) && Enabled(w, Iterate(now, msg))
    ensures ZoneInv(Step(w, Iterate(now, msg)))
  {
    RunStateNet(w, now);
    RunStateZones(w, now);
    if msg.Some? {
      RecvZones(RunState(w, now), msg.value);
    }
  }

  lemma StepZones(w: World, ev: Event)
    requires NetInv(w) && ZoneInv(w) && Enabled(w, ev)
    ensures ZoneInv(Step(w, ev))
  {
    match ev
    case Iterate(now, msg) => IterateZones(w, now, msg);
    case Put(req, changed, otherMsgs, backlog, flushes) => PutZones(w, req, changed, otherMsgs, backlog, flushes);
    case Reconnect =>
    case _ => ZoneFrame(w, Step(w, ev));
  }

  lemma PutZones(w: World, req: nat, changed: bool, otherMsgs: bool, backlog: bool, flushes: seq<Zone>)
    requires ZoneInv(w) && Walks(flushes, w.o.zones)
    ensures ZoneInv(DoPut(w, req, changed, otherMsgs, backlog, flushes))
  {
    var (need, o) := NeedPut(w.o, req, changed);
    var w2 := w.(o := o.(skippedLastTime := false, initialClear := false), h := w.h.(lastReq := req));
    if need && o.phase.SUpdateFlows? && !backlog && (flushes != [] || otherMsgs || o.initialClear) {
      ZoneFrame(w, w2);
      SendPutZones(w2, req, flushes);
    } else {
      ZoneFrame(w, DoPut(w, req, changed, otherMsgs, backlog, flushes));
    }
  }

  /** A zone leaves OF_SENT for DB_QUEUED exactly when the oldest barrier in
      flight is answered and is the one it waits for: a barrier sent after its
      flush on the current connection. */
  lemma ZoneFlushed(w: World, ev: Event, z: Zone)
    requires NetInv(w) && ZoneInv(w) && Enabled(w, ev) && z in w.o.zones && w.o.zones[z].OfSent?
    ensures var x := w.o.zones[z].xid;
      && FlushBefore(w.net.sent, z, x)
      && (z in Step(w, ev).o.zones && Step(w, ev).o.zones[z] == DbQueued <==>
            ev.Iterate? && ev.msg == Some(BarrierReply) && w.net.inFlight[0] == x)
  {
    assert ZoneWaits(w, z, w.o.zones[z].xid);
    ZoneReplySeen(w, z);
  }

  // --------------------------------------------------------- configurations

  ghost predicate InReqOrder(fs: seq<Update>) {
    forall i, j | 0 <= i < j < |fs| :: fs[i].req < fs[j].req
  }

  /** An update acknowledges no batch that comes after its barrier. */
  ghost predicate Behind(fs: seq<Update>, b: Batch) {
    forall f | f in fs && f.xid < b.xid :: f.req < b.cfg
  }

  /** What holds while the requested configuration does not go back. */
  ghost predicate CfgInv(w: World) {
    && InReqOrder(w.o.flowUpdates)
    && w.o.curCfg <= w.h.lastReq
    && (forall f | f in w.o.flowUpdates :: f.req <= w.h.lastReq)
    && (forall b | b in w.h.batches && b.xid !in w.h.answered :: Behind(w.o.flowUpdates, b))
  }

  /** Every batch for a configuration up to the current one is answered. */
  ghost predicate Acked(w: World) {
    forall b | b in w.h.batches && b.cfg <= w.o.curCfg :: b.xid in w.h.answered
  }

  ghost predicate Forward(w: World, ev: Event) {
    ev.Put? ==> w.h.lastReq <= ev.req
  }

  /** The current configuration does not go back, and when it advances every
      batch up to it is answered. */
  ghost predicate Advances(w: World, w': World) {
    && w.o.curCfg <= w'.o.curCfg
    && (w.o.curCfg < w'.o.curCfg ==> Acked(w'))
  }

  /** With nothing left to wait for, every batch is answered. */
  lemma NothingWaits(w: World)
    requires NetInv(w) && w.o.flowUpdates == []
    ensures forall b | b in w.h.batches :: b.xid in w.h.answered
  {
    assert forall b | b in w.h.batches && b.xid !in w.h.answered :: Covered(w.o.flowUpdates, b);
  }

  /** With `req` not below any update's, the loop never removes one. */
  lemma TrackForward(fs: seq<Update>, x: nat, req: nat)
    requires InReqOrder(fs) && forall f | f in fs :: f.req <= req && f.xid < x
    ensures var r := Track(fs, x, req);
      && InReqOrder(r)
      && (forall f | f in r :: f.req <= req)
      && (forall f | f in r && f.xid < x :: f in fs && f.req < req)
  {
    assert forall i | 0 <= i < |fs| :: fs[i] in fs;
  }

  lemma SendPutCfg(w: World, req: nat, flushes: seq<Zone>)
    requires NetInv(w) && CfgInv(w) && w.h.lastReq == req
    ensures CfgInv(SendPut(w, req, flushes))
  {
    var w' := SendPut(w, req, flushes);
    TrackForward(w.o.flowUpdates, w.net.nextXid, req);
    forall b | b in w'.h.batches && b.xid !in w'.h.answered ensures Behind(w'.o.flowUpdates, b) {
      if b in w.h.batches {
        assert Behind(w.o.flowUpdates, b);
        assert Covered(w.o.flowUpdates, b);
        assert w.o.flowUpdates[|w.o.flowUpdates| - 1] in w.o.flowUpdates;
      }
    }
  }

  lemma QuietPutCfg(w: World, req: nat)
    requires NetInv(w) && CfgInv(w) && w.h.lastReq == req
    ensures CfgInv(QuietPut(w, req)) && Advances(w, QuietPut(w, req))
  {
    var w' := QuietPut(w, req);
    var fs, fs' := w.o.flowUpdates, w'.o.flowUpdates;
    if fs == [] {
      NothingWaits(w);
    } else {
      var last := |fs| - 1;
      assert forall i | 0 <= i < |fs| :: fs[i] in fs;
      forall b | b in w'.h.batches && b.xid !in w'.h.answered ensures Behind(fs', b) {
        assert Behind(fs, b) && Covered(fs, b);
        forall f | f in fs' && f.xid < b.xid ensures f.req < b.cfg {
          var i :| 0 <= i < |fs'| && fs'[i] == f;
          assert i != last && fs'[i] == fs[i];
        }
      }
    }
  }

  lemma PutCfg(w: World, req: nat, changed: bool, otherMsgs: bool, backlog: bool, flushes: seq<Zone>)
    requires NetInv(w) && CfgInv(w) && w.h.lastReq <= req
    ensures var w' := DoPut(w, req, changed, otherMsgs, backlog, flushes); CfgInv(w') && Advances(w, w')
  {
    var (need, o) := NeedPut(w.o, req, changed);
    var w1 := w.(o := o, h := w.h.(lastReq := req));
    assert CfgInv(w1) && NetInv(w1);
    if need && o.phase.SUpdateFlows? && !backlog {
      var w2 := w1.(o := o.(skippedLastTime := false, initialClear := false));
      if flushes != [] || otherMsgs || o.initialClear {
        SendPutCfg(w2, req, flushes);
      } else {
        QuietPutCfg(w2, req);
      }
    } else if w.o.flowUpdates == [] {
      NothingWaits(w);
    }
  }

  /** Batches not answered yet are for configurations beyond the front update,
      if its barrier is the one that is answered. */
  lemma FrontBehind(fs: seq<Update>, inFlight: seq<nat>, batches: seq<Batch>, answered: set<nat>, b: Batch)
    requires Waiting(fs, inFlight, batches, answered) && Increasing(inFlight) && inFlight != []
    requires fs != [] && b in batches && b.xid !in answered + {inFlight[0]} && Behind(fs, b)
    ensures Behind(Popped(fs, inFlight[0]), b) && (fs[0].xid == inFlight[0] ==> fs[0].req < b.cfg)
  {
    TailIncreasing(inFlight);
    assert fs[0] in fs;
    assert forall f | f in Popped(fs, inFlight[0]) :: f in fs;
  }

  lemma PoppedCfg(w: World)
    requires NetInv(w) && CfgInv(w) && w.o.phase.SUpdateFlows? && w.net.inFlight != [] && w.o.flowUpdates != []
    ensures var w', x, fs := Recv(w, BarrierReply), w.net.inFlight[0], w.o.flowUpdates;
      && w'.o.flowUpdates == Popped(fs, x) && (forall f | f in Popped(fs, x) :: f in fs)
      && forall b | b in w'.h.batches && b.xid !in w'.h.answered ::
           Behind(Popped(fs, x), b) && (fs[0].xid == x ==> fs[0].req < b.cfg)
  {
    var w' := Recv(w, BarrierReply);
    var x, fs := w.net.inFlight[0], w.o.flowUpdates;
    forall b | b in w'.h.batches && b.xid !in w'.h.answered
      ensures Behind(Popped(fs, x), b) && (fs[0].xid == x ==> fs[0].req < b.cfg)
    {
      FrontBehind(fs, w.net.inFlight, w.h.batches, w.h.answered, b);
    }
  }

  lemma BarrierCfg(w: World)
    requires NetInv(w) && CfgInv(w) && !w.o.phase.SNew? && w.net.inFlight != []
    ensures var w' := Recv(w, BarrierReply); CfgInv(w') && Advances(w, w')
  {
    if w.o.phase.SUpdateFlows? && w.o.flowUpdates != [] {
      assert w.o.flowUpdates[0] in w.o.flowUpdates;
      PoppedCfg(w);
    }
  }

  lemma RecvBarrierFrame(w: World)
    requires !w.o.phase.SNew? && w.net.inFlight != []
    ensures var o, o' := w.o, Recv(w, BarrierReply).o;
      && o'.waitTime == o.waitTime && o'.expire == o.expire && o'.flowsReady == o.flowsReady
      && (o'.phase.SClearFlows? <==> o.phase.SClearFlows?)
  {
  }

  /** Only a barrier reply touches configurations, and no message the wait. */
  lemma RecvFrame(w: World, reply: Reply)
    requires !w.o.phase.SNew? && (reply.BarrierReply? ==> w.net.inFlight != [])
    ensures var w' := Recv(w, reply);
      && w'.o.waitTime == w.o.waitTime && w'.o.expire == w.o.expire && w'.o.flowsReady == w.o.flowsReady
      && w'.h.timer == w.h.timer && w'.h.reportedReady == w.h.reportedReady
      && (w'.o.phase.SClearFlows? <==> w.o.phase.SClearFlows?)
      && (!reply.BarrierReply? ==> w'.o.flowUpdates == w.o.flowUpdates && w'.o.curCfg == w.o.curCfg && w'.h == w.h)
  {
    match reply
    case BarrierReply => RecvBarrierFrame(w);
    case TlvReply(x, table) =>
      if w.o.phase.STlvTableRequested? && x == w.o.xid {
        assert Recv(w, reply) == RecvTlvTable(w, table);
      }
    case _ =>
  }

  lemma PutFrame(w: World, req: nat, changed: bool, otherMsgs: bool, backlog: bool, flushes: seq<Zone>)
    ensures var w' := DoPut(w, req, changed, otherMsgs, backlog, flushes);
      && w'.o.waitTime == w.o.waitTime && w'.o.expire == w.o.expire && w'.o.flowsReady == w.o.flowsReady
      && w'.h.timer == w.h.timer && w'.h.reportedReady == w.h.reportedReady
      && w'.o.phase == w.o.phase
  {
    var w' := DoPut(w, req, changed, otherMsgs, backlog, flushes);
    var (need, o) := NeedPut(w.o, req, changed);
    assert o == w.o.(oldReqCfg := o.oldReqCfg, curCfg := o.curCfg);
    if need && o.phase.SUpdateFlows? && !backlog {
      var w2 := w.(o := o.(skippedLastTime := false, initialClear := false), h := w.h.(lastReq := req));
      assert w' == if flushes != [] || otherMsgs || o.initialClear then SendPut(w2, req, flushes)
                   else QuietPut(w2, req);
    }
  }

  /** With requested configurations that do not go back, the current one does
      not either, updates stay strictly increasing, and whenever it advances,
      every batch queued since the last S_CLEAR_FLOWS for a configuration up to
      it has its barrier answered. */
  lemma StepCfg(w: World, ev: Event)
    requires NetInv(w) && CfgInv(w) && Enabled(w, ev) && Forward(w, ev)
    ensures CfgInv(Step(w, ev)) && Advances(w, Step(w, ev))
  {
    match ev
    case Iterate(now, msg) => IterateCfg(w, now, msg);
    case Put(req, changed, otherMsgs, backlog, flushes) => PutCfg(w, req, changed, otherMsgs, backlog, flushes);
    case _ =>
  }

  lemma RunStateCfg(w: World, now: nat)
    requires CfgInv(w)
    ensures CfgInv(RunState(w, now)) && RunState(w, now).o.curCfg == w.o.curCfg
    ensures !RunState(w, now).o.phase.SNew? && RunState(w, now).net.inFlight == w.net.inFlight
  {
  }

  lemma RecvCfg(w: World, reply: Reply)
    requires NetInv(w) && CfgInv(w) && !w.o.phase.SNew? && (reply.BarrierReply? ==> w.net.inFlight != [])
    ensures var w' := Recv(w, reply); CfgInv(w') && Advances(w, w')
  {
    if reply.BarrierReply? {
      BarrierCfg(w);
    } else {
      RecvFrame(w, reply);
    }
  }

  lemma IterateCfg(w: World, now: nat, msg: Option<Reply>)
    requires NetInv(w) && CfgInv(w) && Enabled(w, Iterate(now, msg))
    ensures var w' := Step(w, Iterate(now, msg)); CfgInv(w') && Advances(w, w')
  {
    var w1 := RunState(w, now);
    assert w1 == Step(w, Iterate(now, None));
    StepNet(w, Iterate(now, None));
    RunStateCfg(w, now);
    if msg.Some? {
      RecvCfg(w1, msg.value);
    }
  }

  /** Without that assumption a put can take the current configuration back:
      exactly a put for a smaller one that finds nothing in flight and has no
      message to send. */
  lemma PutGoesBack(w: World, req: nat, changed: bool, otherMsgs: bool, backlog: bool, flushes: seq<Zone>)
    ensures DoPut(w, req, changed, otherMsgs, backlog, flushes).o.curCfg < w.o.curCfg <==>
      && req < w.o.curCfg && w.o.flowUpdates == [] && !w.o.initialClear
      && if changed || w.o.skippedLastTime || w.o.curCfg != w.o.oldReqCfg
         then (changed || w.o.skippedLastTime || req != w.o.oldReqCfg)
              && w.o.phase.SUpdateFlows? && !backlog && !otherMsgs && flushes == []
         else req != w.o.oldReqCfg
  {
  }

  // ------------------------------------------------ the wait before clearing

  /** The deadline is the one of this connection's timer, and readiness is what
      was last reported on this connection. */
  ghost predicate WaitInv(w: World) {
    && (w.o.expire == 0 <==> w.h.timer.NotStarted?)
    && (w.h.timer.Started? ==> w.o.expire == w.h.timer.at + w.h.timer.wait)
    && w.o.flowsReady == w.h.reportedReady
  }

  lemma StepWait(w: World, ev: Event)
    requires WaitInv(w) && Enabled(w, ev)
    ensures WaitInv(Step(w, ev))
  {
    match ev
    case Iterate(now, msg) =>
      RunStateWait(w, now);
      if msg.Some? { RecvFrame(RunState(w, now), msg.value); }
    case Put(req, changed, otherMsgs, backlog, flushes) => PutFrame(w, req, changed, otherMsgs, backlog, flushes);
    case _ =>
  }

  lemma RunStateWait(w: World, now: nat)
    requires WaitInv(w)
    ensures WaitInv(RunState(w, now))
  {
  }

  /** Existing flows are cleared exactly by a turn of the state machine in
      S_WAIT_BEFORE_CLEAR when the configured wait is zero, or initial flows
      were reported ready on this connection, or the timer was started on this
      connection and the wait configured then is over. */
  lemma ClearEntered(w: World, ev: Event)
    requires WaitInv(w) && Enabled(w, ev) && !w.o.phase.SClearFlows?
    ensures Step(w, ev).o.phase.SClearFlows? <==>
      && ev.Iterate? && w.o.phase.SWaitBeforeClear?
      && (|| w.o.waitTime == 0
          || w.h.reportedReady
          || (w.h.timer.Started? && ev.now >= w.h.timer.at + w.h.timer.wait))
  {
    match ev
    case Iterate(now, msg) => if msg.Some? { RecvFrame(RunState(w, now), msg.value); }
    case Put(req, changed, otherMsgs, backlog, flushes) => PutFrame(w, req, changed, otherMsgs, backlog, flushes);
    case _ =>
  }

  /** The timer starts with the first turn that waits, and then stays as it is until
      the next connection. */
  lemma StepTimer(w: World, ev: Event)
    requires WaitInv(w) && Enabled(w, ev)
    ensures var w' := Step(w, ev);
      && (w.h.timer.Started? && !ev.Reconnect? ==> w'.h.timer == w.h.timer)
      && (w.h.timer.NotStarted? && ev.Iterate? && w.o.phase.SWaitBeforeClear? && w'.o.phase.SWaitBeforeClear? ==>
            w'.h.timer == Started(ev.now, w.o.waitTime))
  {
    match ev
    case Iterate(now, msg) => if msg.Some? { RecvFrame(RunState(w, now), msg.value); }
    case Put(req, changed, otherMsgs, backlog, flushes) => PutFrame(w, req, changed, otherMsgs, backlog, flushes);
    case _ =>
  }

  // --------------------------------------------------------------- transaction ids

  predicate HasXid(m: Msg) {
    m.TlvRequest? || m.TlvMod? || m.Barrier?
  }

  /** Messages have increasing transaction ids, in the order in which they were sent
      on the connection. */
  ghost predicate SentOk(net: Net) {
    && (forall i | 0 <= i < |net.sent| && HasXid(net.sent[i]) :: net.sent[i].xid < net.nextXid)
    && (forall i, j | 0 <= i < j < |net.sent| && HasXid(net.sent[i]) && HasXid(net.sent[j]) ::
          net.sent[i].xid < net.sent[j].xid)
  }

  /** The ids that replies are compared with are those of the messages sent, and
      only barriers that were sent are answered. */
  ghost predicate RepliesOk(w: World) {
    && (w.o.phase.STlvTableRequested? ==> TlvRequest(w.o.xid) in w.net.sent)
    && (w.o.phase.STlvTableModSent? ==> TlvMod(w.o.xid) in w.net.sent && Barrier(w.o.xid2) in w.net.sent)
    && (forall x | x in w.net.inFlight :: Barrier(x) in w.net.sent)
  }

  lemma RecvReplies(w: World, reply: Reply)
    requires RepliesOk(w) && !w.o.phase.SNew? && (reply.BarrierReply? ==> w.net.inFlight != [])
    ensures RepliesOk(Recv(w, reply))
  {
    var x := w.net.nextXid;
    var more := [TlvMod(x), Barrier(x + 1)];
    assert more[0] == TlvMod(x) && more[1] == Barrier(x + 1);
    assert forall m :: m in w.net.sent + more <==> m in w.net.sent || m in more;
  }

  lemma PutReplies(w: World, req: nat, changed: bool, otherMsgs: bool, backlog: bool, flushes: seq<Zone>)
    requires RepliesOk(w)
    ensures RepliesOk(DoPut(w, req, changed, otherMsgs, backlog, flushes))
  {
    var x := w.net.nextXid;
    var more := [Mods, Barrier(x)];
    assert more[1] == Barrier(x);
  }

  lemma StepReplies(w: World, ev: Event)
    requires RepliesOk(w) && Enabled(w, ev)
    ensures RepliesOk(Step(w, ev))
  {
    match ev
    case Iterate(now, msg) =>
      var x := w.net.nextXid;
      assert [TlvRequest(x)][0] == TlvRequest(x);
      assert RepliesOk(RunState(w, now));
      if msg.Some? {
        RecvReplies(RunState(w, now), msg.value);
      }
    case Put(req, changed, otherMsgs, backlog, flushes) => PutReplies(w, req, changed, otherMsgs, backlog, flushes);
    case _ =>
  }

  lemma SentMore(net: Net, more: seq<Msg>, next: nat)
    requires SentOk(net) && net.nextXid <= next
    requires forall i | 0 <= i < |more| && HasXid(more[i]) :: net.nextXid <= more[i].xid < next
    requires forall i, j | 0 <= i < j < |more| && HasXid(more[i]) && HasXid(more[j]) :: more[i].xid < more[j].xid
    ensures SentOk(net.(sent := net.sent + more, nextXid := next))
  {
  }

  lemma PutSent(w: World, req: nat, changed: bool, otherMsgs: bool, backlog: bool, flushes: seq<Zone>)
    requires SentOk(w.net)
    ensures SentOk(DoPut(w, req, changed, otherMsgs, backlog, flushes).net)
  {
    var x := w.net.nextXid;
    var more := Flushes(flushes) + [Mods, Barrier(x)];
    SentMore(w.net, more, x + 1);
    assert w.net.sent + Flushes(flushes) + [Mods, Barrier(x)] == w.net.sent + more;
  }

  lemma RecvSent(w: World, reply: Reply)
    requires SentOk(w.net) && !w.o.phase.SNew? && (reply.BarrierReply? ==> w.net.inFlight != [])
    ensures SentOk(Recv(w, reply).net)
  {
    var x := w.net.nextXid;
    SentMore(w.net, [TlvMod(x), Barrier(x + 1)], x + 2);
  }

  lemma StepSent(w: World, ev: Event)
    requires SentOk(w.net) && Enabled(w, ev)
    ensures SentOk(Step(w, ev).net)
  {
    match ev
    case Iterate(now, msg) =>
      SentMore(w.net, [TlvRequest(w.net.nextXid)], w.net.nextXid + 1);
      if msg.Some? {
        RecvSent(RunState(w, now), msg.value);
      }
    case Put(req, changed, otherMsgs, backlog, flushes) => PutSent(w, req, changed, otherMsgs, backlog, flushes);
    case _ =>
  }

  // ------------------------------------------------------------------ all runs

  lemma {:induction false} RunKeeps(ws: seq<World>, evs: seq<Event>, n: nat)
    requires IsRun(ws, evs) && n < |ws|
    ensures NetInv(ws[n]) && ZoneInv(ws[n]) && WaitInv(ws[n])
  {
    if n > 0 {
      RunKeeps(ws, evs, n - 1);
      StepNet(ws[n - 1], evs[n - 1]);
      StepZones(ws[n - 1], evs[n - 1]);
      StepWait(ws[n - 1], evs[n - 1]);
    }
  }

  lemma {:induction false} RunKeepsCfg(ws: seq<World>, evs: seq<Event>, n: nat)
    requires IsRun(ws, evs) && n < |ws|
    requires forall i | 0 <= i < n :: Forward(ws[i], evs[i])
    ensures CfgInv(ws[n])
  {
    if n > 0 {
      RunKeeps(ws, evs, n - 1);
      RunKeepsCfg(ws, evs, n - 1);
      StepCfg(ws[n - 1], evs[n - 1]);
    }
  }

  /** In every run whose requested configurations do not go back, flow updates
      are strictly increasing, the current configuration never goes back, and
      whenever it advances all batches up to it are answered. */
  lemma {:induction false} RunAdvances(ws: seq<World>, evs: seq<Event>, m: nat, n: nat)
    requires IsRun(ws, evs) && m <= n < |ws|
    requires forall i | 0 <= i < n :: Forward(ws[i], evs[i])
    ensures InReqOrder(ws[n].o.flowUpdates)
    ensures ws[m].o.curCfg <= ws[n].o.curCfg
    ensures 0 < n && ws[n - 1].o.curCfg < ws[n].o.curCfg ==> Acked(ws[n])
  {
    RunKeepsCfg(ws, evs, n);
    if n > 0 {
      RunKeeps(ws, evs, n - 1);
      RunKeepsCfg(ws, evs, n - 1);
      StepCfg(ws[n - 1], evs[n - 1]);
      if m < n { RunAdvances(ws, evs, m, n - 1); }
    }
  }

  /** In every run, whatever is requested: in S_UPDATE_FLOWS the reply to a barrier
      makes the current configuration at least that of every update that waits for
      it, or for one before it. */
  lemma RunReaches(ws: seq<World>, evs: seq<Event>, n: nat, u: Update)
    requires IsRun(ws, evs) && n < |evs| && ws[n].o.phase.SUpdateFlows?
    requires evs[n].Iterate? && evs[n].msg == Some(BarrierReply)
    ensures var x := ws[n].net.inFlight[0];
      && (u in ws[n].o.flowUpdates && u.xid <= x ==> u.req <= ws[n + 1].o.curCfg)
      && (u in ws[n + 1].o.flowUpdates <==> u in ws[n].o.flowUpdates && x < u.xid)
  {
    RunKeeps(ws, evs, n);
    assert ws[n + 1] == Recv(ws[n], BarrierReply);
    BarrierReaches(ws[n]);
  }

  lemma StillQueued(w: World, reply: Reply, z: Zone)
    requires !w.o.phase.SNew? && (reply.BarrierReply? ==> w.net.inFlight != [])
    requires z in w.o.zones && w.o.zones[z].OfQueued?
    ensures z in Recv(w, reply).o.zones && Recv(w, reply).o.zones[z].OfQueued?
  {
  }

  lemma FlushSent(sent: seq<Msg>, flushes: seq<Zone>, x: nat, z: Zone)
    requires z in flushes
    ensures FlushBefore(sent + Flushes(flushes) + [Mods, Barrier(x)], z, x)
  {
    var i :| 0 <= i < |flushes| && flushes[i] == z;
    var s := sent + Flushes(flushes) + [Mods, Barrier(x)];
    assert s[|sent| + i] == FlushZone(z) && s[|s| - 1] == Barrier(x);
  }

  /** What becomes of a zone that waits for its flush: it is flushed exactly by a put
      that gets to the flow tables, and then waits for a barrier sent after the
      flush. */
  lemma ZoneSent(w: World, ev: Event, z: Zone)
    requires Enabled(w, ev) && z in w.o.zones && w.o.zones[z].OfQueued?
    ensures var w', o := Step(w, ev), w.o;
      && z in w'.o.zones
      && w'.o.zones[z] ==
           (if && ev.Put? && o.phase.SUpdateFlows? && !ev.backlog
               && (|| ev.changed || o.skippedLastTime || o.initialClear
                   || (ev.req != o.oldReqCfg && o.curCfg != o.oldReqCfg))
            then OfSent(w.net.nextXid) else OfQueued)
      && (w'.o.zones[z].OfSent? ==> FlushBefore(w'.net.sent, z, w.net.nextXid))
  {
    if ev.Put? {
      FlushSent(w.net.sent, ev.flushes, w.net.nextXid, z);
    } else if ev.Iterate? {
      assert RunState(w, ev.now).o.zones == w.o.zones;
      if ev.msg.Some? {
        StillQueued(RunState(w, ev.now), ev.msg.value, z);
      }
    }
  }

  /** In every run, with any number of reconnects and whatever is requested: a
      zone's flush is taken as done exactly on the reply to a barrier that
      followed it on the current connection. */
  lemma RunFlushesZones(ws: seq<World>, evs: seq<Event>, n: nat, z: Zone)
    requires IsRun(ws, evs) && n < |evs| && z in ws[n].o.zones && ws[n].o.zones[z].OfSent?
    ensures var x := ws[n].o.zones[z].xid;
      && FlushBefore(ws[n].net.sent, z, x)
      && ws[n].o.flowUpdates != []
      && (z in ws[n + 1].o.zones && ws[n + 1].o.zones[z] == DbQueued <==>
            evs[n].Iterate? && evs[n].msg == Some(BarrierReply) && ws[n].net.inFlight[0] == x)
  {
    RunKeeps(ws, evs, n);
    ZoneFlushed(ws[n], evs[n], z);
    ZoneReplySeen(ws[n], z);
  }

  /** In every run, existing flows are cleared only for a reason of the current
      connection. */
  lemma RunClears(ws: seq<World>, evs: seq<Event>, n: nat)
    requires IsRun(ws, evs) && n < |evs| && !ws[n].o.phase.SClearFlows?
    ensures ws[n + 1].o.phase.SClearFlows? <==>
      && evs[n].Iterate? && ws[n].o.phase.SWaitBeforeClear?
      && (|| ws[n].o.waitTime == 0
          || ws[n].h.reportedReady
          || (ws[n].h.timer.Started? && evs[n].now >= ws[n].h.timer.at + ws[n].h.timer.wait))
  {
    RunKeeps(ws, evs, n);
    ClearEntered(ws[n], evs[n]);
  }

  lemma RecvZonesOnly(w: World, reply: Reply)
    requires !w.o.phase.SNew? && (reply.BarrierReply? ==> w.net.inFlight != [])
    ensures var zs, zs' := w.o.zones, Recv(w, reply).o.zones;
      zs' == zs || (reply.BarrierReply? && zs' == Flushed(zs, w.net.inFlight[0]))
  {
  }

  lemma PutZonesOnly(w: World, req: nat, changed: bool, otherMsgs: bool, backlog: bool, flushes: seq<Zone>)
    ensures var zs, zs' := w.o.zones, DoPut(w, req, changed, otherMsgs, backlog, flushes).o.zones;
      zs' == zs || zs' == OfctrlState.Sent(zs, w.net.nextXid)
  {
  }

  /** What a turn of the loop, or a put, does to a zone that waits for the database,
      and which zones wait for it afterwards. */
  lemma ZoneKept(w: World, ev: Event, z: Zone)
    requires Enabled(w, ev) && (ev.Iterate? || ev.Put?)
    ensures var zs, zs' := w.o.zones, Step(w, ev).o.zones;
      && (z in zs && (zs[z].DbQueued? || zs[z].DbSent?) ==> z in zs' && zs'[z] == zs[z])
      && (z in zs' && (zs'[z].DbQueued? || zs'[z].DbSent?) ==> z in zs && !zs[z].OfQueued?)
  {
    match ev
    case Iterate(now, msg) =>
      var w1 := RunState(w, now);
      assert w1.o.zones == w.o.zones && w1.net.inFlight == w.net.inFlight && !w1.o.phase.SNew?;
      if msg.Some? {
        RecvZonesOnly(w1, msg.value);
      }
    case Put(req, changed, otherMsgs, backlog, flushes) => PutZonesOnly(w, req, changed, otherMsgs, backlog, flushes);
  }

  /** A zone that waits for the database, before an event and after it. */
  lemma ZoneWritten(w: World, ev: Event, z: Zone)
    requires Enabled(w, ev) && ev != QueueZone(z)
    ensures var zs, zs' := w.o.zones, Step(w, ev).o.zones;
      && (z in zs && (zs[z].DbQueued? || zs[z].DbSent?) ==>
            if ev.ZonesCommitted? && zs[z].DbSent? then z !in zs'
            else z in zs' && zs'[z] == if ev.CommitZones? then DbSent else zs[z])
      && (z in zs' && (zs'[z].DbQueued? || zs'[z].DbSent?) ==> z in zs && !zs[z].OfQueued?)
  {
    if ev.Iterate? || ev.Put? {
      ZoneKept(w, ev, z);
    }
  }

  /** In every run: a zone is forgotten only once it was written to the database that
      it is flushed. */
  lemma RunForgetsZones(ws: seq<World>, evs: seq<Event>, n: nat, z: Zone)
    requires IsRun(ws, evs) && n < |evs| && z in ws[n].o.zones
    ensures z !in ws[n + 1].o.zones <==> ws[n].o.zones[z].DbSent? && evs[n].ZonesCommitted?
  {
    if evs[n] != QueueZone(z) {
      ZoneWritten(ws[n], evs[n], z);
      if !evs[n].ZonesCommitted? {
        ZoneStays(ws[n], evs[n], z);
      }
    }
  }

  lemma ZoneStays(w: World, ev: Event, z: Zone)
    requires Enabled(w, ev) && z in w.o.zones && !ev.ZonesCommitted?
    ensures z in Step(w, ev).o.zones
  {
    match ev
    case Iterate(now, msg) =>
      var w1 := RunState(w, now);
      assert w1.o.zones == w.o.zones && w1.net.inFlight == w.net.inFlight && !w1.o.phase.SNew?;
      if msg.Some? {
        RecvZonesOnly(w1, msg.value);
      }
    case Put(req, changed, otherMsgs, backlog, flushes) => PutZonesOnly(w, req, changed, otherMsgs, backlog, flushes);
    case _ =>
  }

  predicate WaitsForDb(w: World, z: Zone) {
    z in w.o.zones && (w.o.zones[z].DbQueued? || w.o.zones[z].DbSent?)
  }

  /** The event is the reply to a barrier that followed the flush of zone `z`. */
  ghost predicate FlushReply(w: World, ev: Event, z: Zone) {
    && z in w.o.zones && w.o.zones[z].OfSent? && FlushBefore(w.net.sent, z, w.o.zones[z].xid)
    && ev.Iterate? && ev.msg == Some(BarrierReply)
    && w.net.inFlight != [] && w.net.inFlight[0] == w.o.zones[z].xid
  }

  lemma ZoneCameFrom(w: World, ev: Event, z: Zone)
    requires NetInv(w) && ZoneInv(w) && Enabled(w, ev) && WaitsForDb(Step(w, ev), z)
    ensures ev != QueueZone(z) && (WaitsForDb(w, z) || FlushReply(w, ev, z))
  {
    ZoneWritten(w, ev, z);
    if !WaitsForDb(w, z) {
      ZoneFlushed(w, ev, z);
      OnlyToQueued(w, ev, z);
    }
  }

  lemma OnlyToQueued(w: World, ev: Event, z: Zone)
    requires Enabled(w, ev) && z in w.o.zones && w.o.zones[z].OfSent? && z in Step(w, ev).o.zones
    ensures !Step(w, ev).o.zones[z].DbSent?
  {
    match ev
    case Iterate(now, msg) =>
      var w1 := RunState(w, now);
      assert w1.o.zones == w.o.zones && w1.net.inFlight == w.net.inFlight && !w1.o.phase.SNew?;
      if msg.Some? {
        RecvZonesOnly(w1, msg.value);
      }
    case Put(req, changed, otherMsgs, backlog, flushes) => PutZonesOnly(w, req, changed, otherMsgs, backlog, flushes);
    case _ =>
  }

  ghost predicate ZoneSteps(ws: seq<World>, evs: seq<Event>, z: Zone) {
    && |ws| == |evs| + 1 && !WaitsForDb(ws[0], z)
    && forall n | 0 < n <= |evs| && WaitsForDb(ws[n], z) ::
      evs[n - 1] != QueueZone(z) && (WaitsForDb(ws[n - 1], z) || FlushReply(ws[n - 1], evs[n - 1], z))
  }

  lemma {:induction false} ZoneFollows(ws: seq<World>, evs: seq<Event>, n: nat, z: Zone) returns (j: nat)
    requires ZoneSteps(ws, evs, z) && n <= |evs| && WaitsForDb(ws[n], z)
    ensures j < n && FlushReply(ws[j], evs[j], z) && forall k | j < k < n :: evs[k] != QueueZone(z)
  {
    j := n - 1;
    if !FlushReply(ws[j], evs[j], z) {
      j := ZoneFollows(ws, evs, n - 1, z);
    }
  }

  /** And a zone is written as flushed only after event `j`, the reply to a barrier
      that followed its flush on the connection of that time. */
  lemma RunWritesZones(ws: seq<World>, evs: seq<Event>, n: nat, z: Zone) returns (j: nat)
    requires IsRun(ws, evs) && n <= |evs| && WaitsForDb(ws[n], z)
    ensures j < n && FlushReply(ws[j], evs[j], z) && forall k | j < k < n :: evs[k] != QueueZone(z)
  {
    assert ZoneSteps(ws, evs, z) by {
      forall m | 0 < m <= |evs| && WaitsForDb(ws[m], z)
        ensures evs[m - 1] != QueueZone(z) && (WaitsForDb(ws[m - 1], z) || FlushReply(ws[m - 1], evs[m - 1], z))
      {
        RunKeeps(ws, evs, m - 1);
        ZoneCameFrom(ws[m - 1], evs[m - 1], z);
      }
    }
    j := ZoneFollows(ws, evs, n, z);
  }

  lemma {:induction false} TimerStays(ws: seq<World>, evs: seq<Event>, m: nat, n: nat)
    requires IsRun(ws, evs) && m <= n < |ws| && ws[m].h.timer.Started?
    requires forall k | m <= k < n :: !evs[k].Reconnect?
    ensures ws[n].h.timer == ws[m].h.timer
    decreases n
  {
    if m < n {
      TimerStays(ws, evs, m, n - 1);
      RunKeeps(ws, evs, n - 1);
      StepTimer(ws[n - 1], evs[n - 1]);
    }
  }

  /** In every run the wait ends: if turn `m` was the first that waits on a
      connection, existing flows are cleared by the first turn `n` that comes at
      least the configured time later, if not before. */
  lemma RunWaitEnds(ws: seq<World>, evs: seq<Event>, m: nat, n: nat)
    requires IsRun(ws, evs) && m < n < |evs| && evs[m].Iterate? && evs[n].Iterate?
    requires ws[m].o.phase.SWaitBeforeClear? && ws[m + 1].o.phase.SWaitBeforeClear? && ws[m].h.timer.NotStarted?
    requires ws[n].o.phase.SWaitBeforeClear? && forall k | m < k < n :: !evs[k].Reconnect?
    requires evs[m].now + ws[m].o.waitTime <= evs[n].now
    ensures ws[n + 1].o.phase.SClearFlows?
  {
    RunKeeps(ws, evs, m);
    StepTimer(ws[m], evs[m]);
    TimerStays(ws, evs, m + 1, n);
    RunClears(ws, evs, n);
  }

  /** In every run, no transaction id is used twice on a connection, and replies are
      compared with the ids of messages that were sent. */
  lemma {:induction false} RunSent(ws: seq<World>, evs: seq<Event>, n: nat)
    requires IsRun(ws, evs) && n < |ws|
    ensures SentOk(ws[n].net) && RepliesOk(ws[n])
  {
    if n > 0 {
      RunSent(ws, evs, n - 1);
      StepSent(ws[n - 1], evs[n - 1]);
      StepReplies(ws[n - 1], evs[n - 1]);
    }
  }

  /** The message answers the one that was sent with id `xid`, or with id `barrier`. */
  predicate Answers(w: World, reply: Reply, xid: nat, barrier: Option<nat>) {
    match reply
    case TlvReply(x, _) => x == xid || barrier == Some(x)
    case TlvError(x, _) => x == xid || barrier == Some(x)
    case BarrierReply => w.net.inFlight != [] && barrier == Some(w.net.inFlight[0])
    case Unrelated => false
  }

  /** In every run: the negotiation of the tunnel option goes on exactly by an answer to
      what was sent last. A free index is asked for, a lost race for it starts the
      negotiation again, and anything else ends it. */
  lemma RunNegotiates(ws: seq<World>, evs: seq<Event>, n: nat)
    requires IsRun(ws, evs) && n < |evs| && evs[n].Iterate? && evs[n].msg.Some?
    requires ws[n].o.phase.STlvTableRequested? || ws[n].o.phase.STlvTableModSent?
    ensures var w, p', reply := ws[n], ws[n + 1].o.phase, evs[n].msg.value;
      if w.o.phase.STlvTableRequested? then
        && TlvRequest(w.o.xid) in w.net.sent
        && p' == if !Answers(w, reply, w.o.xid, None) then STlvTableRequested
                 else if reply.TlvReply? && reply.table.FreeIndex? then STlvTableModSent else SWaitBeforeClear
      else
        && TlvMod(w.o.xid) in w.net.sent && Barrier(w.o.xid2) in w.net.sent
        && p' == if !Answers(w, reply, w.o.xid, Some(w.o.xid2)) then STlvTableModSent
                 else if reply == TlvError(w.o.xid, true) then SNew else SWaitBeforeClear
  {
    RunSent(ws, evs, n);
    assert RunState(ws[n], evs[n].now) == ws[n];
    assert ws[n + 1] == Recv(ws[n], evs[n].msg.value);
  }
}
