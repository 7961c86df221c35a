/** controller/ofctrl-seqno.c on top of controller/ofctrl.c, as the main loop of
    controller/ovn-controller.c runs them: what an acknowledged request means. */
module Acknowledged {
  import opened Options
  import opened OfctrlState
  import opened OfctrlProofs
  import Seqno

  /** Of a request: whether the current configuration was not below it when it
      was made, and how many puts had taken their configuration up by then. */
  datatype Info = Info(early: bool, since: nat)

  /** The connection, whether the main loop takes it to be up, and the counter and
      the list of ofctrl-seqno.c; whether a connection was made or lost since the
      last put, so that flow tables are computed afresh; and for the claims:
      `info`: the requests made since the last flush;
      `acked`: those of them that were acknowledged;
      `puts`: for each put that took its configuration up, the next transaction
      id after it;
      `epoch`: the first of these since flows were last cleared;
      `settled`: the puts whose messages, with all sent before them since flows
      were cleared, were all answered at some time on the same connection. */
  datatype Sys = Sys(w: World, up: bool, afresh: bool, reqSeqno: nat, flight: seq<Seqno.Update>, info: map<nat, Info>,
                     acked: set<nat>, puts: seq<nat>, epoch: nat, settled: set<nat>)

  /** A lost connection that the main loop notices also flushes the requests; it
      may not notice one that is made again in time. */
  datatype SysEvent =
    | Request(seqnoType: nat, cfg: nat)
    | Connection(ev: Event)
    | SeqnoRun
    | Lost

  /** A put that took its configuration up: it sent messages, found there was
      nothing to send, or found everything up to date. */
  predicate TakesUp(o: Ofctrl, req: nat, changed: bool, backlog: bool) {
    var (need, o') := NeedPut(o, req, changed);
    if need then o'.phase.SUpdateFlows? && !backlog
    else req != o.oldReqCfg && o.curCfg == o.oldReqCfg && o.flowUpdates == []
  }

  predicate PutTakesUp(o: Ofctrl, ev: Event) {
    ev.Put? && TakesUp(o, ev.req, ev.changed, ev.backlog)
  }

  /** The event that clears flows. */
  predicate Clears(o: Ofctrl, ev: Event) {
    ev.Iterate? && o.phase.SClearFlows?
  }

  /** Every batch sent before transaction id `m`, since flows were last cleared,
      has its barrier answered. */
  ghost predicate AnsweredBelow(w: World, m: nat) {
    forall b | b in w.h.batches && b.xid < m :: b.xid in w.h.answered
  }

  ghost function NowSettled(w: World, puts: seq<nat>, epoch: nat): set<nat> {
    set i: nat | epoch <= i < |puts| && AnsweredBelow(w, puts[i])
  }

  /** Barriers are processed. */
  predicate Live(s: Sys) {
    s.up && s.w.o.phase.SUpdateFlows?
  }

  /** What is newly settled is, on a connection that processes barriers. */
  ghost function Settled(s: Sys): Sys {
    if Live(s) then s.(settled := s.settled + NowSettled(s.w, s.puts, s.epoch)) else s
  }

  /** Messages arrive only while the connection is up, and without a connection
      `ofctrl_can_put` says there is a backlog. */
  ghost predicate MayCome(s: Sys, ev: Event) {
    && Enabled(s.w, ev)
    && (ev.Put? ==> ev.req == s.reqSeqno && (s.up || ev.backlog))
    && (ev.Iterate? ==> s.up)
  }

  /** Making or losing a connection has all flows computed again before the next
      put, which is told so. */
  ghost predicate MayHappen(s: Sys, e: SysEvent) {
    match e
    case Connection(ev) => MayCome(s, ev) && (ev.Put? && s.afresh ==> ev.changed)
    case Lost => s.up
    case _ => true
  }

  ghost function Next(s: Sys, e: SysEvent): Sys
    requires MayHappen(s, e)
  {
    match e
    case Request(t, cfg) =>
      var c := s.reqSeqno + 1;
      s.(reqSeqno := c, flight := s.flight + [Seqno.Update(t, c, cfg)],
         info := s.info[c := Info(c <= s.w.o.curCfg, |s.puts|)])
    case Connection(ev) =>
      var w' := Step(s.w, ev);
      var puts' := if PutTakesUp(s.w.o, ev) then s.puts + [w'.net.nextXid] else s.puts;
      var epoch' := if Clears(s.w.o, ev) then |s.puts| else s.epoch;
      Settled(s.(w := w', up := s.up || ev.Reconnect?, afresh := ev.Reconnect? || (s.afresh && !ev.Put?),
                 puts := puts', epoch := epoch'))
    case SeqnoRun =>
      s.(flight := Seqno.Beyond(s.flight, s.w.o.curCfg),
         acked := s.acked + set u | u in Seqno.UpTo(s.flight, s.w.o.curCfg) :: u.flowCfg)
    case Lost =>
      s.(up := false, afresh := true, reqSeqno := 0, flight := [], info := map[], acked := {})
  }

  // ------------------------------------------------------------------ what is kept

  /** Once the barrier of `u` is answered, so are all before `m`. */
  ghost predicate Settles(w: World, u: Update, m: nat) {
    forall b | b in w.h.batches && b.xid < m && b.xid !in w.h.answered :: b.xid <= u.xid
  }

  ghost predicate WillSettle(w: World, puts: seq<nat>, from: nat, u: Update) {
    exists i | from <= i < |puts| :: Settles(w, u, puts[i])
  }

  ghost predicate SettledSince(settled: set<nat>, since: nat) {
    exists i :: i in settled && since <= i
  }

  function Max(a: nat, b: nat): nat {
    if a < b then b else a
  }

  ghost predicate ReqOk(s: Sys, c: nat, r: Info) {
    || r.early
    || SettledSince(s.settled, r.since)
    || (&& s.w.o.curCfg < c
        && (Live(s) ==>
              forall u | u in s.w.o.flowUpdates && c <= u.req :: WillSettle(s.w, s.puts, Max(r.since, s.epoch), u)))
  }

  ghost predicate UpdatesBelow(s: Sys) {
    Live(s) ==> forall u | u in s.w.o.flowUpdates :: u.req <= s.reqSeqno
  }

  ghost predicate PutsOk(s: Sys) {
    && s.epoch <= |s.puts|
    && (forall i | 0 <= i < |s.puts| :: s.puts[i] <= s.w.net.nextXid)
    && (forall i | i in s.settled :: i < |s.puts|)
    && (forall c | c in s.info :: s.info[c].since <= |s.puts|)
  }

  ghost predicate FlightOk(s: Sys) {
    && Seqno.InOrder(s.flight)
    && (forall u | u in s.flight :: u.flowCfg in s.info)
    && (forall c | c in s.info :: c <= s.reqSeqno && (c in s.acked || exists u :: u in s.flight && u.flowCfg == c))
    && s.acked <= s.info.Keys
  }

  /** Until barriers are processed, the next put is told to do something. */
  ghost predicate PutPending(s: Sys) {
    Live(s) || s.afresh || s.w.o.skippedLastTime
  }

  ghost predicate SysInv(s: Sys) {
    && NetInv(s.w) && UpdatesBelow(s) && PutsOk(s) && FlightOk(s) && PutPending(s)
    && (forall c | c in s.info :: ReqOk(s, c, s.info[c]))
    && (forall c | c in s.acked :: s.info[c].early || SettledSince(s.settled, s.info[c].since))
  }

  // ----------------------------------------------- events that wake no request

  /** Ids and answers only grow, and old batches are never added. */
  ghost predicate Grows(w: World, w': World) {
    && w'.net.nextXid >= w.net.nextXid && w'.h.answered >= w.h.answered
    && forall b | b in w'.h.batches && b.xid < w.net.nextXid :: b in w.h.batches
  }

  /** Nothing that requests depend on has changed for the worse. */
  ghost predicate Calm(s: Sys, s': Sys) {
    && Grows(s.w, s'.w) && s'.w.o.curCfg == s.w.o.curCfg
    && s'.puts == s.puts && s'.settled >= s.settled
    && (Live(s') ==> forall u | u in s'.w.o.flowUpdates :: Live(s) && s'.epoch == s.epoch && u in s.w.o.flowUpdates)
  }

  lemma CalmReq(s: Sys, s': Sys, c: nat, r: Info)
    requires Calm(s, s') && PutsOk(s) && ReqOk(s, c, r)
    ensures ReqOk(s', c, r)
  {
    if !r.early && !SettledSince(s.settled, r.since) && Live(s') {
      forall u | u in s'.w.o.flowUpdates && c <= u.req ensures WillSettle(s'.w, s'.puts, Max(r.since, s'.epoch), u) {
        var i :| Max(r.since, s.epoch) <= i < |s.puts| && Settles(s.w, u, s.puts[i]);
        assert Settles(s'.w, u, s'.puts[i]);
      }
    }
  }

  lemma RunStateCalm(w: World, now: nat)
    ensures var w1 := RunState(w, now);
      && Grows(w, w1) && w1.o.curCfg == w.o.curCfg && w1.h.answered == w.h.answered
      && !w1.o.phase.SNew? && w1.net.inFlight == w.net.inFlight
      && (w1.o.phase.SUpdateFlows? ==>
            (w.o.phase.SUpdateFlows? && w1 == w) || (w.o.phase.SClearFlows? && w1.o.flowUpdates == []))
  {
  }

  lemma RecvCalm(w: World, reply: Reply)
    requires !w.o.phase.SNew? && !reply.BarrierReply?
    ensures var w' := Recv(w, reply);
      && Grows(w, w') && w'.h == w.h && w'.o.curCfg == w.o.curCfg && w'.o.flowUpdates == w.o.flowUpdates
      && (w'.o.phase.SUpdateFlows? <==> w.o.phase.SUpdateFlows?)
  {
    RecvFrame(w, reply);
  }

  /** A turn of the loop before it looks for a message. */
  ghost function Turned(s: Sys, now: nat): Sys {
    s.(w := RunState(s.w, now), epoch := if s.w.o.phase.SClearFlows? then |s.puts| else s.epoch)
  }

  lemma TurnedCalm(s: Sys, now: nat)
    requires SysInv(s)
    ensures Calm(s, Turned(s, now)) && PutsOk(Turned(s, now)) && NetInv(Turned(s, now).w)
    ensures UpdatesBelow(Turned(s, now))
  {
    RunStateCalm(s.w, now);
    RunStateNet(s.w, now);
  }

  /** An event on the connection that brings no barrier reply, and no put. */
  lemma OtherCalm(s: Sys, ev: Event)
    requires SysInv(s) && MayHappen(s, Connection(ev)) && !ev.Put?
    requires ev.Iterate? && ev.msg.Some? ==> !ev.msg.value.BarrierReply?
    ensures Calm(s, Next(s, Connection(ev)))
  {
    if ev.Iterate? {
      RunStateCalm(s.w, ev.now);
      if ev.msg.Some? {
        RecvCalm(RunState(s.w, ev.now), ev.msg.value);
      }
    }
  }

  /** A put that does not take its configuration up. */
  lemma SkippedPutCalm(s: Sys, ev: Event)
    requires SysInv(s) && MayHappen(s, Connection(ev)) && ev.Put? && !PutTakesUp(s.w.o, ev)
    ensures Calm(s, Next(s, Connection(ev)))
  {
  }

  // -------------------------------------------------------------- barrier replies

  /** What a barrier reply makes of the flow updates. */
  lemma BarrierPops(w: World)
    requires NetInv(w) && w.o.phase.SUpdateFlows? && w.net.inFlight != []
    ensures var w', x, fs := Recv(w, BarrierReply), w.net.inFlight[0], w.o.flowUpdates;
      && Grows(w, w') && w'.h.batches == w.h.batches && w'.h.answered == w.h.answered + {x} && w'.o.phase.SUpdateFlows?
      && (forall u | u in w'.o.flowUpdates :: u in fs)
      && (w'.o.curCfg == w.o.curCfg || (fs != [] && fs[0].xid == x && w'.o.curCfg == fs[0].req))
      && (forall y | y in w.net.inFlight :: x <= y)
      && (forall b | b in w.h.batches :: b.xid in w.h.answered || b.xid in w.net.inFlight)
  {
  }

  /** Answering the front update's barrier settles the puts it stands for. */
  lemma BarrierSettles(w: World, m: nat)
    requires NetInv(w) && w.o.phase.SUpdateFlows? && w.net.inFlight != []
    requires w.o.flowUpdates != [] && w.o.flowUpdates[0].xid == w.net.inFlight[0] && Settles(w, w.o.flowUpdates[0], m)
    ensures AnsweredBelow(Recv(w, BarrierReply), m)
  {
    BarrierPops(w);
  }

  lemma BarrierReq(s: Sys, s': Sys, c: nat, r: Info)
    requires NetInv(s.w) && PutsOk(s) && Live(s) && s.w.net.inFlight != [] && ReqOk(s, c, r)
    requires s' == Settled(s.(w := Recv(s.w, BarrierReply)))
    ensures ReqOk(s', c, r)
  {
    var fs := s.w.o.flowUpdates;
    BarrierPops(s.w);
    if !r.early && !SettledSince(s.settled, r.since) {
      if c <= s'.w.o.curCfg {
        assert fs[0] in fs;
        var i :| Max(r.since, s.epoch) <= i < |s.puts| && Settles(s.w, fs[0], s.puts[i]);
        BarrierSettles(s.w, s.puts[i]);
        assert i in s'.settled;
      } else {
        forall u | u in s'.w.o.flowUpdates && c <= u.req ensures WillSettle(s'.w, s'.puts, Max(r.since, s'.epoch), u) {
          var i :| Max(r.since, s.epoch) <= i < |s.puts| && Settles(s.w, u, s.puts[i]);
          assert Settles(s'.w, u, s'.puts[i]);
        }
      }
    }
  }

  /** Outside S_UPDATE_FLOWS a barrier reply says nothing about configurations. */
  lemma StrayBarrier(w: World)
    requires !w.o.phase.SNew? && !w.o.phase.SUpdateFlows? && w.net.inFlight != []
    ensures var w' := Recv(w, BarrierReply);
      Grows(w, w') && w'.o.curCfg == w.o.curCfg && !w'.o.phase.SUpdateFlows? && w'.h.batches == w.h.batches
  {
  }

  lemma IterateBarrier(s: Sys, now: nat)
    requires SysInv(s) && MayHappen(s, Connection(Iterate(now, Some(BarrierReply))))
    ensures var s' := Next(s, Connection(Iterate(now, Some(BarrierReply))));
      && UpdatesBelow(s') && Grows(s.w, s'.w)
      && forall c | c in s.info :: ReqOk(s', c, s.info[c])
  {
    var s1, s' := Turned(s, now), Next(s, Connection(Iterate(now, Some(BarrierReply))));
    RunStateCalm(s.w, now);
    TurnedCalm(s, now);
    if s1.w.o.phase.SUpdateFlows? {
      BarrierPops(s1.w);
    } else {
      StrayBarrier(s1.w);
      assert Calm(s1, s');
    }
    forall c | c in s.info ensures ReqOk(s', c, s.info[c]) {
      CalmReq(s, s1, c, s.info[c]);
      if s1.w.o.phase.SUpdateFlows? {
        BarrierReq(s1, s', c, s.info[c]);
      } else {
        CalmReq(s1, s', c, s.info[c]);
      }
    }
  }

  // -------------------------------------------------------------------------- puts

  /** What `ofctrl_put` does before it looks at the connection. */
  function AfterNeed(w: World, req: nat, changed: bool): World {
    var o := NeedPut(w.o, req, changed).1;
    w.(o := o.(skippedLastTime := false, initialClear := false), h := w.h.(lastReq := req))
  }

  /** A put that sends a batch: its barrier settles this put. */
  lemma SendSettles(w: World, req: nat, flushes: seq<Zone>, c: nat, puts: seq<nat>, from: nat, u: Update)
    requires NetInv(w) && from <= |puts| && (forall i | 0 <= i < |puts| :: puts[i] <= w.net.nextXid)
    requires forall v | v in w.o.flowUpdates && c <= v.req :: WillSettle(w, puts, from, v)
    requires u in SendPut(w, req, flushes).o.flowUpdates && c <= u.req
    ensures var w' := SendPut(w, req, flushes); WillSettle(w', puts + [w'.net.nextXid], from, u)
  {
    TrackXids(w.o.flowUpdates, w.net.nextXid, req);
    var w' := SendPut(w, req, flushes);
    var puts' := puts + [w'.net.nextXid];
    if u.xid == w.net.nextXid {
      assert Settles(w', u, puts'[|puts|]);
    } else {
      var i :| from <= i < |puts| && Settles(w, u, puts[i]);
      assert Settles(w', u, puts'[i]);
    }
  }

  /** A quiet put: the newest update now stands for this put. */
  lemma QuietSettles(w: World, req: nat, c: nat, puts: seq<nat>, from: nat, u: Update)
    requires NetInv(w) && w.o.flowUpdates != [] && from <= |puts|
    requires forall v | v in w.o.flowUpdates && c <= v.req :: WillSettle(w, puts, from, v)
    requires u in QuietPut(w, req).o.flowUpdates && c <= u.req
    ensures var w' := QuietPut(w, req); WillSettle(w', puts + [w'.net.nextXid], from, u)
  {
    var w', fs := QuietPut(w, req), w.o.flowUpdates;
    var puts', fs', last := puts + [w'.net.nextXid], w'.o.flowUpdates, |fs| - 1;
    var k :| 0 <= k < |fs'| && fs'[k] == u;
    if k == last {
      assert forall b | b in w.h.batches && b.xid !in w.h.answered :: Covered(fs, b);
      assert Settles(w', u, puts'[|puts|]);
    } else {
      assert u in fs;
      var i :| from <= i < |puts| && Settles(w, u, puts[i]);
      assert Settles(w', u, puts'[i]);
    }
  }

  /** With nothing in flight, the put is settled at once. */
  lemma SettledAtOnce(s: Sys, s': Sys)
    requires NetInv(s.w) && PutsOk(s) && s.w.o.flowUpdates == [] && s'.w.h.batches == s.w.h.batches
    requires s'.w.h.answered == s.w.h.answered && s'.epoch == s.epoch
    requires |s'.puts| == |s.puts| + 1 && NowSettled(s'.w, s'.puts, s'.epoch) <= s'.settled
    ensures |s.puts| in s'.settled
  {
    NothingWaits(s.w);
    assert AnsweredBelow(s'.w, s'.puts[|s.puts|]);
  }

  lemma PutIs(w: World, ev: Event)
    requires PutTakesUp(w.o, ev)
    ensures var (need, o) := NeedPut(w.o, ev.req, ev.changed);
      DoPut(w, ev.req, ev.changed, ev.otherMsgs, ev.backlog, ev.flushes) ==
        if !need then w.(o := o, h := w.h.(lastReq := ev.req))
        else if ev.flushes != [] || ev.otherMsgs || o.initialClear
        then SendPut(AfterNeed(w, ev.req, ev.changed), ev.req, ev.flushes)
        else QuietPut(AfterNeed(w, ev.req, ev.changed), ev.req)
  {
  }

  lemma NeedFrame(w: World, ev: Event)
    requires ev.Put? && NeedPut(w.o, ev.req, ev.changed).0
    ensures var w1 := AfterNeed(w, ev.req, ev.changed);
      && w1.o.flowUpdates == w.o.flowUpdates && w1.o.curCfg == w.o.curCfg && w1.o.phase == w.o.phase
      && w1.net == w.net && w1.h.batches == w.h.batches && w1.h.answered == w.h.answered
      && (NetInv(w) ==> NetInv(w1))
  {
  }

  /** Only while barriers are processed does a put take its configuration up. */
  lemma TakesUpLive(s: Sys, ev: Event)
    requires PutPending(s) && MayHappen(s, Connection(ev)) && PutTakesUp(s.w.o, ev)
    ensures Live(s) && Live(Next(s, Connection(ev)))
  {
    PutFrame(s.w, ev.req, ev.changed, ev.otherMsgs, ev.backlog, ev.flushes);
  }

  lemma PutReq(s: Sys, ev: Event, c: nat)
    requires SysInv(s) && MayHappen(s, Connection(ev)) && PutTakesUp(s.w.o, ev) && c in s.info
    ensures ReqOk(Next(s, Connection(ev)), c, s.info[c])
  {
    TakesUpLive(s, ev);
    var s', r := Next(s, Connection(ev)), s.info[c];
    PutIs(s.w, ev);
    if !NeedPut(s.w.o, ev.req, ev.changed).0 {
      SettledAtOnce(s, s');
    } else {
      var w1 := AfterNeed(s.w, ev.req, ev.changed);
      NeedFrame(s.w, ev);
      var sends := ev.flushes != [] || ev.otherMsgs || NeedPut(s.w.o, ev.req, ev.changed).1.initialClear;
      if !sends && w1.o.flowUpdates == [] {
        SettledAtOnce(s, s');
      } else if !r.early && !SettledSince(s.settled, r.since) {
        var from := Max(r.since, s.epoch);
        forall u | u in s.w.o.flowUpdates && c <= u.req ensures WillSettle(w1, s.puts, from, u) {
          var i :| from <= i < |s.puts| && Settles(s.w, u, s.puts[i]);
          assert Settles(w1, u, s.puts[i]);
        }
        forall u | u in s'.w.o.flowUpdates && c <= u.req ensures WillSettle(s'.w, s'.puts, from, u) {
          if sends {
            SendSettles(w1, ev.req, ev.flushes, c, s.puts, from, u);
          } else {
            QuietSettles(w1, ev.req, c, s.puts, from, u);
          }
        }
      }
    }
  }

  lemma {:induction false} TrackBelow(fs: seq<Update>, x: nat, req: nat, c: nat)
    requires req <= c
    ensures (forall u | u in fs :: u.req <= c) ==> forall u | u in Track(fs, x, req) :: u.req <= c
  {
    if fs != [] {
      TrackBelow(fs[..|fs| - 1], x, req, c);
    }
  }

  lemma PutBelow(s: Sys, ev: Event)
    requires SysInv(s) && MayHappen(s, Connection(ev)) && PutTakesUp(s.w.o, ev)
    ensures UpdatesBelow(Next(s, Connection(ev))) && Grows(s.w, Next(s, Connection(ev)).w)
  {
    PutIs(s.w, ev);
    TrackBelow(s.w.o.flowUpdates, s.w.net.nextXid, ev.req, s.reqSeqno);
  }

  // ------------------------------------------------------------------- every event

  lemma ConnectionReqs(s: Sys, ev: Event)
    requires SysInv(s) && MayHappen(s, Connection(ev))
    ensures var s' := Next(s, Connection(ev));
      && UpdatesBelow(s') && Grows(s.w, s'.w)
      && forall c | c in s.info :: ReqOk(s', c, s.info[c])
  {
    var s' := Next(s, Connection(ev));
    if PutTakesUp(s.w.o, ev) {
      PutBelow(s, ev);
      forall c | c in s.info ensures ReqOk(s', c, s.info[c]) {
        PutReq(s, ev, c);
      }
    } else if ev.Iterate? && ev.msg == Some(BarrierReply) {
      IterateBarrier(s, ev.now);
    } else {
      if ev.Put? {
        SkippedPutCalm(s, ev);
      } else {
        OtherCalm(s, ev);
      }
      forall c | c in s.info ensures ReqOk(s', c, s.info[c]) {
        CalmReq(s, s', c, s.info[c]);
      }
    }
  }

  lemma PendingStays(s: Sys, ev: Event)
    requires PutPending(s) && MayHappen(s, Connection(ev))
    ensures PutPending(Next(s, Connection(ev)))
  {
    match ev
    case Iterate(now, msg) =>
      RunStateCalm(s.w, now);
      if msg.Some? {
        RecvFlags(RunState(s.w, now), msg.value);
      }
    case Put(req, changed, otherMsgs, backlog, flushes) => PutFrame(s.w, req, changed, otherMsgs, backlog, flushes);
    case _ =>
  }

  /** What a message does to the flags that puts depend on. */
  lemma RecvFlags(w: World, reply: Reply)
    requires !w.o.phase.SNew? && (reply.BarrierReply? ==> w.net.inFlight != [])
    ensures var o, o' := w.o, Recv(w, reply).o;
      && o'.skippedLastTime == o.skippedLastTime && o'.initialClear == o.initialClear
      && (o.phase.SUpdateFlows? ==> o'.phase.SUpdateFlows?)
  {
  }

  lemma ConnectionKeeps(s: Sys, ev: Event)
    requires SysInv(s) && MayHappen(s, Connection(ev))
    ensures SysInv(Next(s, Connection(ev)))
  {
    var s' := Next(s, Connection(ev));
    StepNet(s.w, ev);
    ConnectionReqs(s, ev);
    PendingStays(s, ev);
    assert PutsOk(s');
    forall c | c in s.acked ensures s.info[c].early || SettledSince(s'.settled, s.info[c].since) {
      if !s.info[c].early {
        var i :| i in s.settled && s.info[c].since <= i;
        assert i in s'.settled;
      }
    }
  }

  lemma RequestKeeps(s: Sys, t: nat, cfg: nat)
    requires SysInv(s)
    ensures SysInv(Next(s, Request(t, cfg)))
  {
    var s', c := Next(s, Request(t, cfg)), s.reqSeqno + 1;
    assert s'.flight[|s.flight|] == Seqno.Update(t, c, cfg);
    assert FlightOk(s') by {
      assert forall i | 0 <= i < |s.flight| :: s.flight[i] in s.flight && s'.flight[i] == s.flight[i];
    }
    forall b | b in s'.info ensures ReqOk(s', b, s'.info[b]) {
      if b != c {
        assert ReqOk(s, b, s.info[b]);
      }
    }
  }

  lemma SeqnoRunFlight(s: Sys)
    requires FlightOk(s)
    ensures var s' := Next(s, SeqnoRun);
      FlightOk(s') && forall c | c in s'.acked :: c in s.acked || (c in s.info && c <= s.w.o.curCfg)
  {
    var s', f := Next(s, SeqnoRun), s.w.o.curCfg;
    var n := Seqno.SplitType(s.flight, f, 0);
    forall u ensures u in Seqno.UpTo(s.flight, f) <==> u in s.flight && u.flowCfg <= f {
      Seqno.InUpTo(s.flight, f, u);
    }
    forall u ensures u in s'.flight <==> u in s.flight && f < u.flowCfg {
      Seqno.InUpTo(s.flight, f, u);
    }
  }

  lemma SeqnoRunKeeps(s: Sys)
    requires SysInv(s)
    ensures SysInv(Next(s, SeqnoRun))
  {
    var s' := Next(s, SeqnoRun);
    SeqnoRunFlight(s);
    forall c | c in s'.info ensures ReqOk(s', c, s'.info[c]) {
      assert ReqOk(s, c, s.info[c]);
    }
  }

  /** Every event keeps what is known about requests. */
  lemma NextKeeps(s: Sys, e: SysEvent)
    requires SysInv(s) && MayHappen(s, e)
    ensures SysInv(Next(s, e))
  {
    match e
    case Request(t, cfg) => RequestKeeps(s, t, cfg);
    case Connection(ev) => ConnectionKeeps(s, ev);
    case SeqnoRun => SeqnoRunKeeps(s);
    case Lost =>
  }

  // ----------------------------------------------------------------------- all runs

  ghost predicate SysInit(s: Sys) {
    Init(s.w) && s == Sys(s.w, false, true, 0, [], map[], {}, [], 0, {})
  }

  ghost predicate IsSysRun(ss: seq<Sys>, es: seq<SysEvent>) {
    && |ss| == |es| + 1 && SysInit(ss[0])
    && forall i | 0 <= i < |es| :: MayHappen(ss[i], es[i]) && ss[i + 1] == Next(ss[i], es[i])
  }

  lemma {:induction false} SysRunKeeps(ss: seq<Sys>, es: seq<SysEvent>, n: nat)
    requires IsSysRun(ss, es) && n < |ss|
    ensures SysInv(ss[n])
  {
    if n > 0 {
      SysRunKeeps(ss, es, n - 1);
      NextKeeps(ss[n - 1], es[n - 1]);
    }
  }

  /** Event `g` is a put that takes its configuration up. */
  predicate PutAt(ss: seq<Sys>, es: seq<SysEvent>, g: nat) {
    g < |es| && g < |ss| && es[g].Connection? && PutTakesUp(ss[g].w.o, es[g].ev)
  }

  /** Barriers were processed all the time: it is one connection, and flows were
      not cleared in between. */
  predicate LiveThrough(ss: seq<Sys>, g: nat, j: nat) {
    j < |ss| && forall x | g <= x <= j :: Live(ss[x])
  }

  /** What `puts` means. */
  lemma {:induction false} PutMeans(ss: seq<Sys>, es: seq<SysEvent>, n: nat, i: nat) returns (g: nat)
    requires IsSysRun(ss, es) && n < |ss| && i < |ss[n].puts|
    ensures g < n && PutAt(ss, es, g) && |ss[g].puts| == i && ss[n].puts[i] == ss[g + 1].w.net.nextXid
  {
    g := n - 1;
    assert ss[n] == Next(ss[g], es[g]);
    if i < |ss[g].puts| {
      g := PutMeans(ss, es, g, i);
    }
  }

  /** Puts are never forgotten, and if flows were not cleared since a put that was
      made before, barriers were processed all along. */
  predicate LiveStep(s: Sys, s': Sys) {
    |s.puts| <= |s'.puts| && (Live(s') && s'.epoch < |s.puts| ==> Live(s) && s.epoch == s'.epoch)
  }

  predicate LiveSteps(ss: seq<Sys>) {
    forall i | 0 < i < |ss| :: LiveStep(ss[i - 1], ss[i])
  }

  lemma NextLive(s: Sys, e: SysEvent)
    requires MayHappen(s, e)
    ensures LiveStep(s, Next(s, e))
  {
    if e.Connection? && e.ev.Iterate? {
      RunStateCalm(s.w, e.ev.now);
      if e.ev.msg.Some? && !e.ev.msg.value.BarrierReply? {
        RecvCalm(RunState(s.w, e.ev.now), e.ev.msg.value);
      }
    }
  }

  lemma RunLive(ss: seq<Sys>, es: seq<SysEvent>)
    requires IsSysRun(ss, es)
    ensures LiveSteps(ss)
  {
    forall i | 0 < i < |ss| ensures LiveStep(ss[i - 1], ss[i]) {
      NextLive(ss[i - 1], es[i - 1]);
    }
  }

  lemma {:induction false} PutsGrow(ss: seq<Sys>, m: nat, n: nat)
    requires LiveSteps(ss) && m <= n < |ss|
    ensures |ss[m].puts| <= |ss[n].puts|
  {
    if m < n {
      PutsGrow(ss, m, n - 1);
    }
  }

  /** Barriers have been processed since a put if they are now, and flows have not
      been cleared since. */
  lemma {:induction false} LiveSince(ss: seq<Sys>, g: nat, j: nat)
    requires LiveSteps(ss) && g <= j < |ss| && Live(ss[j]) && ss[j].epoch < |ss[g].puts|
    ensures LiveThrough(ss, g, j)
    decreases j
  {
    if g < j {
      PutsGrow(ss, g, j - 1);
      LiveSince(ss, g, j - 1);
    }
  }

  /** A put that takes its configuration up is made while barriers are processed. */
  lemma LivePut(ss: seq<Sys>, es: seq<SysEvent>, g: nat)
    requires IsSysRun(ss, es) && PutAt(ss, es, g)
    ensures Live(ss[g]) && |ss[g + 1].puts| == |ss[g].puts| + 1
  {
    assert ss[g + 1] == Next(ss[g], es[g]);
    assert SysInv(ss[g]) by { SysRunKeeps(ss, es, g); }
    assert Live(ss[g]) by { TakesUpLive(ss[g], es[g].ev); }
  }

  /** What `settled` means: at some time since the put, on the same connection,
      everything sent up to it was answered. */
  lemma {:induction false} SettledMeans(ss: seq<Sys>, es: seq<SysEvent>, n: nat, i: nat) returns (g: nat, j: nat)
    requires IsSysRun(ss, es) && n < |ss| && i in ss[n].settled
    ensures g < j <= n && PutAt(ss, es, g) && |ss[g].puts| == i && LiveThrough(ss, g, j)
    ensures AnsweredBelow(ss[j].w, ss[g + 1].w.net.nextXid)
  {
    assert ss[n] == Next(ss[n - 1], es[n - 1]);
    if i in ss[n - 1].settled {
      g, j := SettledMeans(ss, es, n - 1, i);
    } else {
      j := n;
      g := PutMeans(ss, es, n, i);
      LivePut(ss, es, g);
      RunLive(ss, es);
      LiveSince(ss, g + 1, n);
    }
  }

  /** Event `k` made request `c`, and the main loop has not lost the connection
      since. */
  predicate RequestAt(ss: seq<Sys>, es: seq<SysEvent>, n: nat, c: nat, k: nat) {
    && k < n <= |es| < |ss| && es[k].Request? && c == ss[k].reqSeqno + 1
    && forall x | k < x < n :: !es[x].Lost?
  }

  /** What `info` means. */
  lemma {:induction false} InfoMeans(ss: seq<Sys>, es: seq<SysEvent>, n: nat, c: nat) returns (k: nat)
    requires IsSysRun(ss, es) && n < |ss| && c in ss[n].info
    ensures RequestAt(ss, es, n, c, k) && ss[n].info[c] == Info(c <= ss[k].w.o.curCfg, |ss[k].puts|)
  {
    k := n - 1;
    assert ss[n] == Next(ss[k], es[k]);
    if !(es[k].Request? && c == ss[k].reqSeqno + 1) {
      k := InfoMeans(ss, es, n - 1, c);
    }
  }

  /** In every run, with any number of lost connections: a request whose
      configuration was above the current one when it was made, at `k`, is
      acknowledged only if a put was made since, at `g`, and everything sent up to
      it was answered after that, at `j`, on the same connection. */
  lemma AcknowledgedIsSettled(ss: seq<Sys>, es: seq<SysEvent>, n: nat, c: nat) returns (k: nat, g: nat, j: nat)
    requires IsSysRun(ss, es) && n < |ss| && c in ss[n].acked
    ensures RequestAt(ss, es, n, c, k)
    ensures c <= ss[k].w.o.curCfg ||
      (&& k < g < j <= n && PutAt(ss, es, g) && LiveThrough(ss, g, j)
       && AnsweredBelow(ss[j].w, ss[g + 1].w.net.nextXid))
  {
    SysRunKeeps(ss, es, n);
    k := InfoMeans(ss, es, n, c);
    g, j := 0, 0;
    if ss[k].w.o.curCfg < c {
      var i :| i in ss[n].settled && ss[n].info[c].since <= i;
      g, j := SettledMeans(ss, es, n, i);
      LivePut(ss, es, g);
      if g < k {
        RunLive(ss, es);
        PutsGrow(ss, g + 1, k);
      }
    }
  }

  /** For any other request the next `ofctrl_seqno_run` does not wait: it is
      acknowledged without a put, exactly if its configuration is not above the
      current one. */
  lemma AcknowledgedAtOnce(s: Sys, t: nat, cfg: nat)
    requires SysInv(s)
    ensures s.reqSeqno + 1 in Next(Next(s, Request(t, cfg)), SeqnoRun).acked <==> s.reqSeqno + 1 <= s.w.o.curCfg
  {
    var c, s1, f := s.reqSeqno + 1, Next(s, Request(t, cfg)), s.w.o.curCfg;
    assert s1.flight[|s.flight|] == Seqno.Update(t, c, cfg);
    forall u ensures u in Seqno.UpTo(s1.flight, f) <==> u in s1.flight && u.flowCfg <= f {
      Seqno.InUpTo(s1.flight, f, u);
    }
  }

  // -------------------------------------------------------------- two particular runs

  lemma Extended(ss: seq<Sys>, es: seq<SysEvent>, e: SysEvent) returns (ss': seq<Sys>, es': seq<SysEvent>)
    requires IsSysRun(ss, es) && MayHappen(ss[|es|], e)
    ensures IsSysRun(ss', es') && es' == es + [e] && ss' == ss + [Next(ss[|es|], e)]
  {
    ss', es' := ss + [Next(ss[|es|], e)], es + [e];
    assert forall i | 0 <= i <= |es| :: ss'[i] == ss[i];
    assert forall i | 0 <= i < |es| :: es'[i] == es[i];
  }

  /** No wait is configured, and no zone is to be flushed. */
  predicate Plain(s: Sys) {
    s.w.o.waitTime == 0 && s.w.o.zones == map[]
  }

  /** Connected, with existing flows cleared and nothing put yet. */
  predicate Ready(s: Sys) {
    && Plain(s) && s.up && s.w.o.phase.SUpdateFlows?
    && s.w.o.initialClear && s.w.o.flowUpdates == [] && s.w.net.inFlight == []
    && s.w.h.batches == [] && s.epoch == |s.puts|
  }

  predicate SameRequests(s: Sys, s': Sys) {
    s'.reqSeqno == s.reqSeqno && s'.flight == s.flight && s'.info == s.info && s'.acked == s.acked
  }

  /** From `s` on, everything was negotiated and nothing was put. */
  predicate Waiting(s: Sys, s': Sys) {
    && Plain(s') && s'.up && s'.w.net.inFlight == []
    && SameRequests(s, s') && s'.w.o.curCfg == s.w.o.curCfg && s'.puts == s.puts
  }

  lemma RunNegotiate(ss: seq<Sys>, es: seq<SysEvent>) returns (ss': seq<Sys>, es': seq<SysEvent>)
    requires IsSysRun(ss, es) && Plain(ss[|es|])
    ensures IsSysRun(ss', es') && ss'[0] == ss[0] && |es'| == |es| + 3
    ensures Waiting(ss[|es|], ss'[|es'|]) && ss'[|es'|].w.o.phase.SWaitBeforeClear?
  {
    ss', es' := Extended(ss, es, Connection(Reconnect));
    var x := ss'[|es'|].w.net.nextXid;
    ss', es' := Extended(ss', es', Connection(Iterate(0, None)));
    ss', es' := Extended(ss', es', Connection(Iterate(0, Some(TlvReply(x, HasOvnOption)))));
  }

  lemma RunWait(ss: seq<Sys>, es: seq<SysEvent>) returns (ss': seq<Sys>, es': seq<SysEvent>)
    requires IsSysRun(ss, es) && Plain(ss[|es|])
    ensures IsSysRun(ss', es') && ss'[0] == ss[0] && |es'| == |es| + 4
    ensures Waiting(ss[|es|], ss'[|es'|]) && ss'[|es'|].w.o.phase.SClearFlows?
  {
    ss', es' := RunNegotiate(ss, es);
    ss', es' := Extended(ss', es', Connection(Iterate(0, None)));
  }

  /** A connection is made, the switch has OVN's tunnel option mapped already, and
      existing flows are cleared without a wait. */
  lemma RunConnect(ss: seq<Sys>, es: seq<SysEvent>) returns (ss': seq<Sys>, es': seq<SysEvent>)
    requires IsSysRun(ss, es) && Plain(ss[|es|])
    ensures IsSysRun(ss', es') && ss'[0] == ss[0] && |es'| == |es| + 5
    ensures Ready(ss'[|es'|]) && Waiting(ss[|es|], ss'[|es'|])
  {
    ss', es' := RunWait(ss, es);
    ss', es' := Extended(ss', es', Connection(Iterate(0, None)));
  }

  /** The first put after that. */
  lemma RunSend(ss: seq<Sys>, es: seq<SysEvent>) returns (ss': seq<Sys>, es': seq<SysEvent>)
    requires IsSysRun(ss, es) && Ready(ss[|es|])
    ensures IsSysRun(ss', es') && es' == es + [Connection(Put(ss[|es|].reqSeqno, true, true, false, []))]
    ensures ss' == ss + [ss'[|es'|]]
    ensures var s, s' := ss[|es|], ss'[|es'|];
      && Plain(s') && s'.up && !s'.afresh && SameRequests(s, s')
      && s'.w.net.inFlight == [s.w.net.nextXid] && s'.w.net.nextXid == s.w.net.nextXid + 1
      && s'.w.h.batches == [Batch(s.w.net.nextXid, s.reqSeqno)]
      && s'.puts == s.puts + [s'.w.net.nextXid] && s'.epoch == s.epoch
      && s'.w.o == s.w.o.(oldReqCfg := s.reqSeqno, skippedLastTime := false, initialClear := false,
                          flowUpdates := [Update(s.w.net.nextXid, s.reqSeqno)])
  {
    var s := ss[|es|];
    ss', es' := Extended(ss, es, Connection(Put(s.reqSeqno, true, true, false, [])));
    assert ss'[|es'|].w.o.zones == map[];
  }

  /** And the reply to its barrier. */
  lemma RunPut(ss: seq<Sys>, es: seq<SysEvent>) returns (ss': seq<Sys>, es': seq<SysEvent>)
    requires IsSysRun(ss, es) && Ready(ss[|es|])
    ensures IsSysRun(ss', es') && ss'[0] == ss[0] && |es'| == |es| + 2
    ensures var s, s' := ss[|es|], ss'[|es'|];
      && Plain(s') && s'.up && !s'.afresh && SameRequests(s, s')
      && s'.w.o == s.w.o.(curCfg := Max(s.reqSeqno, s.w.o.curCfg), oldReqCfg := s.reqSeqno,
                          skippedLastTime := false, initialClear := false)
  {
    ss', es' := RunSend(ss, es);
    ss', es' := Extended(ss', es', Connection(Iterate(0, Some(BarrierReply))));
    assert ss'[|es'|].w.o.zones == map[];
  }

  lemma RunEarly(ss: seq<Sys>, es: seq<SysEvent>, t: nat, cfg: nat) returns (ss': seq<Sys>, es': seq<SysEvent>)
    requires IsSysRun(ss, es)
    requires var s := ss[|es|]; s.up && s.w.o.curCfg >= 1
    ensures IsSysRun(ss', es') && ss'[0] == ss[0]
    ensures var s := ss'[|es'|]; 1 in s.acked && s.info == map[1 := Info(true, |s.puts|)]
  {
    ss', es' := Extended(ss, es, Lost);
    ss', es' := Extended(ss', es', Request(t, cfg));
    var s := ss'[|es'|];
    Seqno.AllUpTo(s.flight, s.w.o.curCfg);
    ss', es' := Extended(ss', es', SeqnoRun);
    assert Seqno.Update(t, 1, cfg) in s.flight;
  }

  /** A request can be acknowledged without any put: losing the connection starts
      the requests from 1 again, but keeps the current configuration. */
  lemma EarlyRequest(s0: Sys, t: nat, cfg: nat) returns (ss: seq<Sys>, es: seq<SysEvent>)
    requires SysInit(s0)
    ensures IsSysRun(ss, es) && ss[0] == s0
    ensures var s := ss[|es|]; 1 in s.acked && s.info == map[1 := Info(true, |s.puts|)]
  {
    ss, es := RunConnect([s0], []);
    ss, es := Extended(ss, es, Request(t, cfg));
    ss, es := RunPut(ss, es);
    ss, es := Extended(ss, es, SeqnoRun);
    ss, es := RunEarly(ss, es, t, cfg);
  }

  /** And for the same reason a put can take the current configuration back. */
  lemma ConfigurationGoesBack(s0: Sys, t: nat, cfg: nat) returns (ss: seq<Sys>, es: seq<SysEvent>)
    requires SysInit(s0)
    ensures IsSysRun(ss, es) && ss[0] == s0
    ensures |es| > 0 && ss[|es|].w.o.curCfg < ss[|es| - 1].w.o.curCfg
  {
    ss, es := Extended([s0], [], Request(t, cfg));
    ss, es := Extended(ss, es, Request(t, cfg));
    ss, es := RunConnect(ss, es);
    ss, es := RunPut(ss, es);
    ss, es := Extended(ss, es, Lost);
    ss, es := RunConnect(ss, es);
    ss, es := RunPut(ss, es);
    ss, es := Extended(ss, es, Request(t, cfg));
    assert ss[|es|].w.o.curCfg == 2 && ss[|es|].w.o.oldReqCfg == 0;
    ss, es := Extended(ss, es, Connection(Put(1, false, false, false, [])));
  }
}
