/** The flow-mods that controller/ofctrl.c puts, on their way to the switch: what
    the barriers it gets answered say about the flows the switch has held. */
module Delivery {
  import opened Options
  import opened Lists
  import opened FlowModel
  import opened OfctrlState
  import opened OfctrlProofs
  import opened Acknowledged

  /** The flow-mods before barrier `xid`. */
  datatype Sent = Sent(xid: nat, mods: seq<FlowMod>)

  /** The connection and the switch behind it:
      `queue`: what was sent on this connection and the switch has not processed;
      `sw`: the flows the switch holds;
      `virt`: the flows it holds once it has processed everything;
      `held`: for each put that took its configuration up, the flows the switch
      holds once it has processed everything up to that put;
      `reached`: the puts for which it has held them at some time since, on the
      same connection. */
  datatype Wire = Wire(s: Sys, queue: seq<Sent>, sw: Switch, virt: Switch, held: seq<Switch>, reached: set<nat>)

  function Drain(sw: Switch, queue: seq<Sent>): Switch
    decreases |queue|
  {
    if queue == [] then sw else Drain(ApplyAll(sw, queue[0].mods), queue[1..])
  }

  /** `ofctrl_put` gets to the flow tables. */
  predicate Effective(o: Ofctrl, ev: Event) {
    ev.Put? && NeedPut(o, ev.req, ev.changed).0 && o.phase.SUpdateFlows? && !ev.backlog
  }

  /** And has messages to send. */
  predicate Sends(o: Ofctrl, ev: Event) {
    Effective(o, ev) && (ev.flushes != [] || ev.otherMsgs || o.initialClear)
  }

  ghost predicate Queued(queue: seq<Sent>, x: nat) {
    exists q :: q in queue && q.xid == x
  }

  /** The switch answers a barrier after it has processed what came before it,
      section 6.2 of the OpenFlow Switch Specification 1.5.1. */
  ghost predicate MayPass(d: Wire, ev: Event, mods: seq<FlowMod>) {
    && MayHappen(d.s, Connection(ev))
    && (ev.Iterate? && ev.msg == Some(BarrierReply) ==> !Queued(d.queue, d.s.w.net.inFlight[0]))
    && (Effective(d.s.w.o, ev) && !Sends(d.s.w.o, ev) ==> mods == [])
  }

  /** The switch now has what it should after these puts. */
  function NowReached(s: Sys, sw: Switch, held: seq<Switch>): set<nat> {
    if Live(s) then set i: nat | s.epoch <= i < |held| && held[i] == sw else {}
  }

  function Watched(d: Wire): Wire {
    d.(reached := d.reached + NowReached(d.s, d.sw, d.held))
  }

  /** An event on the connection. `mods` are the flow-mods of a put; on a new
      connection the switch, which may have restarted, has the flows `flows`. */
  ghost function Passed(d: Wire, ev: Event, mods: seq<FlowMod>, flows: Switch): Wire
    requires MayPass(d, ev, mods)
  {
    var o := d.s.w.o;
    var sw' := if ev.Reconnect? then flows else d.sw;
    var virt' := if Clears(o, ev) then d.sw else if Effective(o, ev) then ApplyAll(d.virt, mods) else d.virt;
    Watched(Wire(
      Next(d.s, Connection(ev)),
      if ev.Reconnect? then [] else if Sends(o, ev) then d.queue + [Sent(d.s.w.net.nextXid, mods)] else d.queue,
      sw', virt', if PutTakesUp(o, ev) then d.held + [virt'] else d.held, d.reached))
  }

  /** The switch processes the next messages. */
  function Processed(d: Wire): Wire
    requires d.queue != []
  {
    Watched(d.(queue := d.queue[1..], sw := ApplyAll(d.sw, d.queue[0].mods)))
  }

  // ------------------------------------------------------------------ what is kept

  ghost predicate IsBatch(batches: seq<Batch>, x: nat) {
    exists b :: b in batches && b.xid == x
  }

  /** What is queued waits for its barrier. */
  ghost predicate QueueOk(queue: seq<Sent>, w: World) {
    forall q | q in queue :: q.xid in w.net.inFlight && IsBatch(w.h.batches, q.xid)
  }

  /** The switch holds `flows` once it has processed some of the messages sent
      before `m`. */
  ghost predicate Ahead(sw: Switch, queue: seq<Sent>, flows: Switch, m: nat) {
    exists k | 0 < k <= |queue| :: queue[k - 1].xid < m && flows == Drain(sw, queue[..k])
  }

  ghost predicate Flowing(d: Wire) {
    && QueueOk(d.queue, d.s.w) && d.virt == Drain(d.sw, d.queue)
    && forall i | d.s.epoch <= i < |d.held| && i < |d.s.puts| ::
         i in d.reached || Ahead(d.sw, d.queue, d.held[i], d.s.puts[i])
  }

  ghost predicate WireInv(d: Wire) {
    && NetInv(d.s.w) && PutsOk(d.s) && |d.held| == |d.s.puts| && d.s.settled <= d.reached
    && (forall i | i in d.reached :: i < |d.held|)
    && (Live(d.s) ==> Flowing(d))
    && (!d.s.w.o.phase.SUpdateFlows? ==> d.queue == [])
  }

  // --------------------------------------------------------------------- the queue

  lemma {:induction false} DrainPush(sw: Switch, queue: seq<Sent>, q: Sent)
    ensures Drain(sw, queue + [q]) == ApplyAll(Drain(sw, queue), q.mods)
    decreases |queue|
  {
    if queue == [] {
      assert queue + [q] == [q];
    } else {
      DrainPush(ApplyAll(sw, queue[0].mods), queue[1..], q);
      assert (queue + [q])[1..] == queue[1..] + [q];
    }
  }

  lemma AheadPush(sw: Switch, queue: seq<Sent>, q: Sent, flows: Switch, m: nat)
    requires Ahead(sw, queue, flows, m)
    ensures Ahead(sw, queue + [q], flows, m)
  {
    var k :| 0 < k <= |queue| && queue[k - 1].xid < m && flows == Drain(sw, queue[..k]);
    assert (queue + [q])[..k] == queue[..k] && (queue + [q])[k - 1] == queue[k - 1];
  }

  /** What the switch holds at the end of the queue. */
  lemma AheadEnd(sw: Switch, queue: seq<Sent>, m: nat)
    requires queue != [] && forall q | q in queue :: q.xid < m
    ensures Ahead(sw, queue, Drain(sw, queue), m)
  {
    var k := |queue|;
    assert queue[..k] == queue && queue[k - 1] in queue;
  }

  lemma AheadProcessed(sw: Switch, queue: seq<Sent>, flows: Switch, m: nat)
    requires queue != [] && Ahead(sw, queue, flows, m)
    ensures var sw' := ApplyAll(sw, queue[0].mods); flows == sw' || Ahead(sw', queue[1..], flows, m)
  {
    var sw' := ApplyAll(sw, queue[0].mods);
    var k :| 0 < k <= |queue| && queue[k - 1].xid < m && flows == Drain(sw, queue[..k]);
    assert queue[..k][1..] == queue[1..][..k - 1];
    assert flows == Drain(sw', queue[1..][..k - 1]);
    if k > 1 {
      assert queue[1..][k - 2] == queue[k - 1];
    }
  }

  /** The switch may process messages at any time. */
  lemma ProcessedKeeps(d: Wire)
    requires WireInv(d) && d.queue != []
    ensures WireInv(Processed(d))
  {
    var d' := Processed(d);
    assert forall q | q in d'.queue :: q in d.queue;
    forall i | Live(d.s) && d.s.epoch <= i < |d.held| && i !in d'.reached
      ensures Ahead(d'.sw, d'.queue, d.held[i], d.s.puts[i])
    {
      AheadProcessed(d.sw, d.queue, d.held[i], d.s.puts[i]);
    }
  }

  /** Once everything up to a put is answered, the switch has held its flows. */
  lemma AnsweredReached(d: Wire, i: nat)
    requires NetInv(d.s.w) && d.s.w.o.phase.SUpdateFlows? && Flowing(d)
    requires d.s.epoch <= i < |d.held| && i < |d.s.puts| && AnsweredBelow(d.s.w, d.s.puts[i])
    ensures i in d.reached
  {
    forall q | q in d.queue ensures d.s.puts[i] <= q.xid {
    }
  }

  lemma NothingQueued(d: Wire)
    requires NetInv(d.s.w) && d.s.w.o.phase.SUpdateFlows? && Flowing(d) && d.s.w.o.flowUpdates == []
    ensures d.queue == [] && d.virt == d.sw
  {
    NothingWaits(d.s.w);
    OneOf(d.queue);
  }

  // ----------------------------------------------------------- events on the connection

  /** What becomes known about puts when everything up to them is answered. */
  lemma SettledReached(s: Sys, d: Wire)
    requires NetInv(d.s.w) && PutsOk(d.s) && |d.held| == |d.s.puts| && d.s.w.o.phase.SUpdateFlows? && Flowing(d)
    requires d.s.settled <= s.settled + NowSettled(d.s.w, d.s.puts, d.s.epoch) && s.settled <= d.reached
    ensures d.s.settled <= d.reached
  {
    forall i | i in d.s.settled ensures i in d.reached {
      if i !in s.settled {
        AnsweredReached(d, i);
      }
    }
  }

  /** With barriers processed, it is enough that messages are on their way as they
      should be. */
  lemma FlowingKeeps(d: Wire, ev: Event, mods: seq<FlowMod>, flows: Switch)
    requires SysInv(d.s) && WireInv(d) && MayPass(d, ev, mods)
    requires var d' := Passed(d, ev, mods, flows); d'.s.w.o.phase.SUpdateFlows? && Flowing(d')
    ensures WireInv(Passed(d, ev, mods, flows))
  {
    var d' := Passed(d, ev, mods, flows);
    assert NetInv(d'.s.w) && PutsOk(d'.s) by { ConnectionKeeps(d.s, ev); }
    SettledReached(d.s, d');
  }

  /** While barriers are not processed, nothing becomes known about puts. */
  lemma AsideKeeps(d: Wire, ev: Event, flows: Switch)
    requires SysInv(d.s) && WireInv(d) && MayPass(d, ev, [])
    requires ev.Reconnect? || (!Live(d.s) && !Clears(d.s.w.o, ev))
    ensures WireInv(Passed(d, ev, [], flows))
  {
    var d' := Passed(d, ev, [], flows);
    assert NetInv(d'.s.w) && PutsOk(d'.s) by { ConnectionKeeps(d.s, ev); }
    StillAside(d.s, ev);
  }

  /** While barriers are not processed, no put gets to the flow tables. */
  lemma NotEffective(s: Sys, ev: Event)
    requires PutPending(s) && MayHappen(s, Connection(ev)) && !Live(s)
    ensures !Effective(s.w.o, ev) && !PutTakesUp(s.w.o, ev)
  {
    if PutTakesUp(s.w.o, ev) {
      TakesUpLive(s, ev);
    }
  }

  lemma StillAside(s: Sys, ev: Event)
    requires PutPending(s) && MayHappen(s, Connection(ev)) && (ev.Reconnect? || (!Live(s) && !Clears(s.w.o, ev)))
    ensures var s' := Next(s, Connection(ev));
      && !Live(s') && s'.puts == s.puts && s'.settled == s.settled && !Effective(s.w.o, ev)
      && (s.w.o.phase.SUpdateFlows? && !ev.Reconnect? ==> s'.w.o.phase.SUpdateFlows?)
  {
    if ev.Put? {
      NotEffective(s, ev);
      PutFrame(s.w, ev.req, ev.changed, ev.otherMsgs, ev.backlog, ev.flushes);
    } else if ev.Iterate? {
      RunStateCalm(s.w, ev.now);
    }
  }

  /** Flows are cleared: the switch has what it has, and nothing is on its way. */
  lemma ClearKeeps(d: Wire, ev: Event, flows: Switch)
    requires SysInv(d.s) && WireInv(d) && MayPass(d, ev, []) && Clears(d.s.w.o, ev)
    ensures WireInv(Passed(d, ev, [], flows))
  {
    var w1 := RunState(d.s.w, ev.now);
    assert NetInv(Step(d.s.w, ev)) && PutsOk(Next(d.s, Connection(ev))) by { ConnectionKeeps(d.s, ev); }
    assert w1.h.batches == [] && w1.o.flowUpdates == [] && w1.o.phase.SUpdateFlows?;
    assert Step(d.s.w, ev).h.batches == [] && Step(d.s.w, ev).o.phase.SUpdateFlows?;
  }

  /** The batches and the barriers are the same. */
  ghost predicate SameTraffic(w: World, w': World) {
    w'.net == w.net && w'.h.batches == w.h.batches && w'.h.answered == w.h.answered && w'.o.phase == w.o.phase
  }

  /** In S_UPDATE_FLOWS, an event that neither puts, answers nor reconnects. */
  lemma OtherSame(w: World, ev: Event)
    requires Enabled(w, ev) && w.o.phase.SUpdateFlows?
    requires !ev.Reconnect? && !ev.Put? && !(ev.Iterate? && ev.msg == Some(BarrierReply))
    ensures SameTraffic(w, Step(w, ev))
  {
  }

  /** A put that does not get to the flow tables. */
  lemma IneffectiveSame(w: World, ev: Event)
    requires Enabled(w, ev) && w.o.phase.SUpdateFlows? && ev.Put? && !Effective(w.o, ev)
    ensures SameTraffic(w, Step(w, ev)) && (PutTakesUp(w.o, ev) ==> w.o.flowUpdates == [])
  {
  }

  lemma SameKeeps(d: Wire, ev: Event, flows: Switch)
    requires SysInv(d.s) && WireInv(d) && MayPass(d, ev, []) && Live(d.s)
    requires !ev.Reconnect? && !Effective(d.s.w.o, ev) && !(ev.Iterate? && ev.msg == Some(BarrierReply))
    ensures WireInv(Passed(d, ev, [], flows))
  {
    if ev.Put? {
      IneffectiveSame(d.s.w, ev);
    } else {
      OtherSame(d.s.w, ev);
    }
    if PutTakesUp(d.s.w.o, ev) {
      NothingQueued(d);
    }
    assert Flowing(Passed(d, ev, [], flows));
    FlowingKeeps(d, ev, [], flows);
  }

  lemma BarrierTraffic(w: World, ev: Event)
    requires Enabled(w, ev) && w.o.phase.SUpdateFlows? && ev.Iterate? && ev.msg == Some(BarrierReply)
    ensures var w' := Step(w, ev);
      && w'.o.phase == w.o.phase && w'.h.batches == w.h.batches
      && forall y | y in w.net.inFlight && y != w.net.inFlight[0] :: y in w'.net.inFlight
  {
    assert Step(w, ev) == Recv(w, BarrierReply);
    assert w.net.inFlight == [w.net.inFlight[0]] + w.net.inFlight[1..];
  }

  /** The oldest barrier is answered. */
  lemma BarrierKeeps(d: Wire, ev: Event, flows: Switch)
    requires SysInv(d.s) && WireInv(d) && MayPass(d, ev, []) && Live(d.s)
    requires ev.Iterate? && ev.msg == Some(BarrierReply)
    ensures WireInv(Passed(d, ev, [], flows))
  {
    BarrierTraffic(d.s.w, ev);
    assert Flowing(Passed(d, ev, [], flows));
    FlowingKeeps(d, ev, [], flows);
  }

  /** What a put that gets to the flow tables does to the traffic. */
  lemma EffectiveTraffic(w: World, ev: Event)
    requires Enabled(w, ev) && Effective(w.o, ev)
    ensures var w' := Step(w, ev);
      && PutTakesUp(w.o, ev) && w'.h.answered == w.h.answered && w'.o.phase == w.o.phase
      && (Sends(w.o, ev) ==>
            && w'.net.nextXid == w.net.nextXid + 1 && w'.net.inFlight == w.net.inFlight + [w.net.nextXid]
            && w'.h.batches == w.h.batches + [Batch(w.net.nextXid, ev.req)])
      && (!Sends(w.o, ev) ==> w'.net == w.net && w'.h.batches == w.h.batches)
  {
    PutIs(w, ev);
  }

  lemma QueueXids(queue: seq<Sent>, w: World)
    requires NetInv(w) && QueueOk(queue, w)
    ensures forall q | q in queue :: q.xid < w.net.nextXid
  {
  }

  lemma QuietFlowing(d: Wire, ev: Event, flows: Switch)
    requires WireInv(d) && Live(d.s) && MayPass(d, ev, []) && Effective(d.s.w.o, ev) && !Sends(d.s.w.o, ev)
    ensures Flowing(Passed(d, ev, [], flows))
  {
    EffectiveTraffic(d.s.w, ev);
    QueueXids(d.queue, d.s.w);
    if d.queue != [] {
      AheadEnd(d.sw, d.queue, d.s.w.net.nextXid);
    }
  }

  lemma QuietKeeps(d: Wire, ev: Event, flows: Switch)
    requires SysInv(d.s) && WireInv(d) && Live(d.s)
    requires MayPass(d, ev, []) && Effective(d.s.w.o, ev) && !Sends(d.s.w.o, ev)
    ensures WireInv(Passed(d, ev, [], flows))
  {
    EffectiveTraffic(d.s.w, ev);
    QuietFlowing(d, ev, flows);
    FlowingKeeps(d, ev, [], flows);
  }

  lemma SendQueue(d: Wire, ev: Event, mods: seq<FlowMod>)
    requires QueueOk(d.queue, d.s.w) && Enabled(d.s.w, ev) && Sends(d.s.w.o, ev)
    ensures QueueOk(d.queue + [Sent(d.s.w.net.nextXid, mods)], Step(d.s.w, ev))
  {
    EffectiveTraffic(d.s.w, ev);
    assert Batch(d.s.w.net.nextXid, ev.req) in Step(d.s.w, ev).h.batches;
  }

  lemma SendFlowing(d: Wire, ev: Event, mods: seq<FlowMod>, flows: Switch)
    requires WireInv(d) && Live(d.s) && MayPass(d, ev, mods) && Sends(d.s.w.o, ev)
    ensures Flowing(Passed(d, ev, mods, flows))
  {
    var d', q := Passed(d, ev, mods, flows), Sent(d.s.w.net.nextXid, mods);
    EffectiveTraffic(d.s.w, ev);
    SendQueue(d, ev, mods);
    DrainPush(d.sw, d.queue, q);
    assert Ahead(d.sw, d'.queue, d'.virt, d'.s.w.net.nextXid) by {
      QueueXids(d.queue, d.s.w);
      AheadEnd(d.sw, d'.queue, d'.s.w.net.nextXid);
    }
    forall i | d.s.epoch <= i < |d.held| && i !in d'.reached
      ensures Ahead(d'.sw, d'.queue, d'.held[i], d'.s.puts[i])
    {
      AheadPush(d.sw, d.queue, q, d.held[i], d.s.puts[i]);
    }
  }

  lemma SendKeeps(d: Wire, ev: Event, mods: seq<FlowMod>, flows: Switch)
    requires SysInv(d.s) && WireInv(d) && Live(d.s) && MayPass(d, ev, mods) && Sends(d.s.w.o, ev)
    ensures WireInv(Passed(d, ev, mods, flows))
  {
    EffectiveTraffic(d.s.w, ev);
    SendFlowing(d, ev, mods, flows);
    FlowingKeeps(d, ev, mods, flows);
  }

  /** Every event on the connection keeps what is known about the switch. */
  lemma PassedKeeps(d: Wire, ev: Event, mods: seq<FlowMod>, flows: Switch)
    requires SysInv(d.s) && WireInv(d) && MayPass(d, ev, mods)
    ensures WireInv(Passed(d, ev, mods, flows))
  {
    if ev.Reconnect? || (!Live(d.s) && !Clears(d.s.w.o, ev)) {
      StillAside(d.s, ev);
      assert Passed(d, ev, mods, flows) == Passed(d, ev, [], flows);
      AsideKeeps(d, ev, flows);
    } else if Sends(d.s.w.o, ev) {
      SendKeeps(d, ev, mods, flows);
    } else if Effective(d.s.w.o, ev) {
      QuietKeeps(d, ev, flows);
    } else {
      assert Passed(d, ev, mods, flows) == Passed(d, ev, [], flows);
      if Clears(d.s.w.o, ev) {
        ClearKeeps(d, ev, flows);
      } else if ev.Iterate? && ev.msg == Some(BarrierReply) {
        BarrierKeeps(d, ev, flows);
      } else {
        SameKeeps(d, ev, flows);
      }
    }
  }
}
