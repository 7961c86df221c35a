/** controller/ofctrl-seqno.c: requests for a notification once the switch has
    caught up with a flow-table configuration. */
module Seqno {

  /** `struct ofctrl_seqno_update` */
  datatype Update = Update(seqnoType: nat, flowCfg: nat, reqCfg: nat)

  /** `struct ofctrl_seqno_state` */
  datatype TypeState = TypeState(acked: seq<Update>, curCfg: nat, reqCfg: nat)

  function OfType(us: seq<Update>, t: nat): seq<Update> {
    if us == [] then []
    else
      var rest := OfType(us[..|us| - 1], t);
      if us[|us| - 1].seqnoType == t then rest + [us[|us| - 1]] else rest
  }

  function Reqs(us: seq<Update>): (r: seq<nat>)
    ensures |r| == |us| && forall i | 0 <= i < |r| :: r[i] == us[i].reqCfg
  {
    seq(|us|, i requires 0 <= i < |us| => us[i].reqCfg)
  }

  /** The requests that configuration `f` answers, and those it does not. */
  function UpTo(us: seq<Update>, f: nat): seq<Update> {
    if us == [] then []
    else
      var rest := UpTo(us[..|us| - 1], f);
      if us[|us| - 1].flowCfg <= f then rest + [us[|us| - 1]] else rest
  }

  function Beyond(us: seq<Update>, f: nat): seq<Update> {
    if us == [] then []
    else
      var rest := Beyond(us[..|us| - 1], f);
      if us[|us| - 1].flowCfg <= f then rest else rest + [us[|us| - 1]]
  }

  ghost predicate InOrder(us: seq<Update>) {
    forall i, j | 0 <= i < j < |us| :: us[i].flowCfg < us[j].flowCfg
  }

  /** The configuration of the last of `us`, or `cfg` if there is none. */
  function LastCfg(us: seq<Update>, cfg: nat): nat {
    if us == [] then cfg else us[|us| - 1].reqCfg
  }

  lemma OfTypePush(us: seq<Update>, u: Update, t: nat)
    ensures OfType(us + [u], t) == if u.seqnoType == t then OfType(us, t) + [u] else OfType(us, t)
  {
    assert (us + [u])[..|us|] == us;
  }

  lemma {:induction false} OfTypeConcat(a: seq<Update>, b: seq<Update>, t: nat)
    ensures OfType(a + b, t) == OfType(a, t) + OfType(b, t)
  {
    if b == [] {
      assert a + b == a;
    } else {
      var b', u := b[..|b| - 1], b[|b| - 1];
      assert a + b == (a + b') + [u] && b == b' + [u];
      OfTypePush(a + b', u, t);
      OfTypePush(b', u, t);
      OfTypeConcat(a, b', t);
    }
  }

  lemma ReqsConcat(a: seq<Update>, b: seq<Update>)
    ensures Reqs(a + b) == Reqs(a) + Reqs(b)
  {
  }

  lemma {:induction false} AllUpTo(us: seq<Update>, f: nat)
    requires forall u | u in us :: u.flowCfg <= f
    ensures UpTo(us, f) == us && Beyond(us, f) == []
  {
    if us != [] {
      AllUpTo(us[..|us| - 1], f);
      assert us == us[..|us| - 1] + [us[|us| - 1]];
    }
  }

  lemma {:induction false} NoneUpTo(us: seq<Update>, more: seq<Update>, f: nat)
    requires forall u | u in more :: f < u.flowCfg
    ensures UpTo(us + more, f) == UpTo(us, f) && Beyond(us + more, f) == Beyond(us, f) + more
  {
    if more == [] {
      assert us + more == us;
    } else {
      var init := more[..|more| - 1];
      assert more[|more| - 1] in more && more == init + [more[|more| - 1]];
      NoneUpTo(us, init, f);
      assert (us + more)[..|us + more| - 1] == us + init;
    }
  }

  /** In a list ordered by configuration, stopping at the first request that is
      not answered yet misses none: what comes before is what `f` answers. */
  lemma PrefixIsUpTo(us: seq<Update>, n: nat, f: nat)
    requires InOrder(us) && n <= |us|
    requires forall i | 0 <= i < n :: us[i].flowCfg <= f
    requires n < |us| ==> f < us[n].flowCfg
    ensures UpTo(us, f) == us[..n] && Beyond(us, f) == us[n..]
  {
    SplitUpTo(us[..n], us[n..], f);
    assert us == us[..n] + us[n..];
  }

  lemma SplitUpTo(a: seq<Update>, b: seq<Update>, f: nat)
    requires forall u | u in a :: u.flowCfg <= f
    requires forall u | u in b :: f < u.flowCfg
    ensures UpTo(a + b, f) == a && Beyond(a + b, f) == b
  {
    AllUpTo(a, f);
    NoneUpTo(a, b, f);
  }

  /** `ofctrl_seqno_run` moves requests of the type from one list to the other. */
  lemma SplitType(us: seq<Update>, f: nat, t: nat) returns (n: nat)
    requires InOrder(us)
    ensures OfType(UpTo(us, f), t) + OfType(Beyond(us, f), t) == OfType(us, t)
    ensures n <= |us| && Beyond(us, f) == us[n..]
  {
    n := 0;
    while n < |us| && us[n].flowCfg <= f
      invariant 0 <= n <= |us| && forall i | 0 <= i < n :: us[i].flowCfg <= f
    {
      n := n + 1;
    }
    PrefixIsUpTo(us, n, f);
    OfTypeConcat(us[..n], us[n..], t);
    assert us == us[..n] + us[n..];
  }

  lemma {:induction false} InOfType(us: seq<Update>, t: nat, u: Update)
    ensures u in OfType(us, t) <==> u in us && u.seqnoType == t
  {
    if us != [] {
      var n := |us| - 1;
      InOfType(us[..n], t, u);
      assert us == us[..n] + [us[n]];
    }
  }

  lemma {:induction false} InUpTo(us: seq<Update>, f: nat, u: Update)
    ensures u in UpTo(us, f) <==> u in us && u.flowCfg <= f
    ensures u in Beyond(us, f) <==> u in us && f < u.flowCfg
  {
    if us != [] {
      var n := |us| - 1;
      InUpTo(us[..n], f, u);
      assert us == us[..n] + [us[n]];
    }
  }

  /** Nothing is lost, invented, repeated or reordered: what was requested is
      what was handed out, then what is acked, then what is in flight. */
  ghost predicate Conserved(created: seq<nat>, consumed: seq<nat>, acked: seq<Update>, inFlight: seq<Update>) {
    created == consumed + Reqs(acked) + Reqs(inFlight)
  }

  ghost predicate AllConserved(created: seq<seq<nat>>, consumed: seq<seq<nat>>, states: seq<TypeState>,
                               updates: seq<Update>) {
    && |created| == |consumed| == |states|
    && forall t {:trigger created[t]} | 0 <= t < |states| ::
      Conserved(created[t], consumed[t], states[t].acked, OfType(updates, t))
  }

  /** An acknowledged request moves from the in-flight to the acked part. */
  lemma AckConserves(created: seq<nat>, consumed: seq<nat>, acked: seq<Update>, done: seq<Update>, rest: seq<Update>,
                     t: nat)
    requires Conserved(created, consumed, acked, OfType(done + rest, t))
    ensures Conserved(created, consumed, acked + OfType(done, t), OfType(rest, t))
  {
    OfTypeConcat(done, rest, t);
    ReqsConcat(OfType(done, t), OfType(rest, t));
    ReqsConcat(acked, OfType(done, t));
  }

  lemma RanConserves(created: seq<seq<nat>>, consumed: seq<seq<nat>>, states: seq<TypeState>, states': seq<TypeState>,
                     us: seq<Update>, n: nat)
    requires AllConserved(created, consumed, states, us) && n <= |us| && |states'| == |states|
    requires forall t | 0 <= t < |states| :: states'[t].acked == states[t].acked + OfType(us[..n], t)
    ensures AllConserved(created, consumed, states', us[n..])
  {
    assert us == us[..n] + us[n..];
    forall t | 0 <= t < |states| ensures Conserved(created[t], consumed[t], states'[t].acked, OfType(us[n..], t)) {
      AckConserves(created[t], consumed[t], states[t].acked, us[..n], us[n..], t);
    }
  }

  lemma CreateConserves(created: seq<nat>, consumed: seq<nat>, acked: seq<Update>, us: seq<Update>, u: Update, t: nat)
    requires Conserved(created, consumed, acked, OfType(us, t))
    ensures Conserved(if u.seqnoType == t then created + [u.reqCfg] else created, consumed, acked, OfType(us + [u], t))
  {
    OfTypePush(us, u, t);
    ReqsConcat(OfType(us, t), [u]);
  }

  lemma ConsumeConserves(created: seq<nat>, consumed: seq<nat>, acked: seq<Update>, inFlight: seq<Update>)
    requires Conserved(created, consumed, acked, inFlight)
    ensures Conserved(created, consumed + Reqs(acked), [], inFlight)
  {
  }

  lemma {:induction false} NoneOfNewType(us: seq<Update>, t: nat)
    requires forall u | u in us :: u.seqnoType < t
    ensures OfType(us, t) == []
  {
    if us != [] {
      NoneOfNewType(us[..|us| - 1], t);
      assert us[|us| - 1] in us;
    }
  }

  // ------------------------------------------------------- the static data, as a value

  datatype Tracking = Tracking(updates: seq<Update>, reqSeqno: nat, states: seq<TypeState>)

  /** A request is made; asking for the same configuration again is none. */
  function Created(k: Tracking, t: nat, cfg: nat): Tracking
    requires t < |k.states|
  {
    if cfg == k.states[t].reqCfg then k
    else
      Tracking(k.updates + [Update(t, k.reqSeqno + 1, cfg)], k.reqSeqno + 1,
               k.states[t := k.states[t].(reqCfg := cfg)])
  }

  function AckedUpTo(us: seq<Update>, f: nat, states: seq<TypeState>): (r: seq<TypeState>)
    ensures |r| == |states|
    ensures forall t | 0 <= t < |r| ::
      var done := OfType(UpTo(us, f), t);
      r[t] == TypeState(states[t].acked + done, LastCfg(done, states[t].curCfg), states[t].reqCfg)
  {
    seq(|states|, t requires 0 <= t < |states| =>
      var done := OfType(UpTo(us, f), t);
      TypeState(states[t].acked + done, LastCfg(done, states[t].curCfg), states[t].reqCfg))
  }

  /** The requests that configuration `f` answers are acked. */
  function Ran(k: Tracking, f: nat): Tracking {
    Tracking(Beyond(k.updates, f), k.reqSeqno, AckedUpTo(k.updates, f, k.states))
  }

  /** The acked requests of a type are handed out. */
  function HandedOut(k: Tracking, t: nat): Tracking
    requires t < |k.states|
  {
    k.(states := k.states[t := k.states[t].(acked := [])])
  }

  function NoneAcked(states: seq<TypeState>): (r: seq<TypeState>)
    ensures |r| == |states| && forall t | 0 <= t < |r| :: r[t] == states[t].(acked := [])
  {
    seq(|states|, t requires 0 <= t < |states| => states[t].(acked := []))
  }

  function Flushed(k: Tracking): Tracking {
    Tracking([], 0, NoneAcked(k.states))
  }

  // ------------------------------------------------------------------ the module

  class Tracker {
    // static data of ofctrl-seqno.c
    var updates: seq<Update>
    var reqSeqno: nat
    var states: seq<TypeState>
    // per type, what was requested and what was handed out since the last flush
    ghost var created: seq<seq<nat>>
    ghost var consumed: seq<seq<nat>>

    ghost function State(): Tracking
      reads this
    {
      Tracking(updates, reqSeqno, states)
    }

    ghost predicate Valid()
      reads this
    {
      && InOrder(updates)
      && (forall u | u in updates :: u.flowCfg <= reqSeqno && u.seqnoType < |states|)
      && AllConserved(created, consumed, states, updates)
    }

    /** `ofctrl_seqno_init` */
    constructor ()
      ensures Valid() && updates == [] && states == [] && reqSeqno == 0
    {
      updates, reqSeqno, states := [], 0, [];
      created, consumed := [], [];
    }

    /** `ofctrl_seqno_add_type`: of the earlier types only the acked lists are
        carried over, their counters start again from 0. */
    method AddType() returns (t: nat)
      requires Valid()
      modifies this
      ensures Valid() && t == |old(states)| && |states| == t + 1
      ensures updates == old(updates) && reqSeqno == old(reqSeqno)
      ensures states[t] == TypeState([], 0, 0)
      ensures forall i | 0 <= i < t :: states[i] == TypeState(old(states)[i].acked, 0, 0)
      ensures created == old(created) + [[]] && consumed == old(consumed) + [[]]
    {
      t := |states|;
      var moved := [];
      while |moved| < t
        invariant |moved| <= t
        invariant forall i | 0 <= i < |moved| :: moved[i] == TypeState(states[i].acked, 0, 0)
      {
        moved := moved + [TypeState(states[|moved|].acked, 0, 0)];
      }
      NoneOfNewType(updates, t);
      states := moved + [TypeState([], 0, 0)];
      created, consumed := created + [[]], consumed + [[]];
      assert Conserved([], [], [], []);
    }

    /** `ofctrl_seqno_update_create` */
    method UpdateCreate(t: nat, cfg: nat)
      requires Valid() && t < |states|
      modifies this
      ensures Valid() && State() == Created(old(State()), t, cfg) && consumed == old(consumed)
      ensures created == if cfg == old(states)[t].reqCfg then old(created)
                         else old(created)[t := old(created)[t] + [cfg]]
    {
      if cfg == states[t].reqCfg {
        return;
      }
      states := states[t := states[t].(reqCfg := cfg)];
      reqSeqno := reqSeqno + 1;
      updates := updates + [Update(t, reqSeqno, cfg)];
      created := created[t := created[t] + [cfg]];
      assert forall i | 0 <= i < |old(updates)| :: old(updates)[i] in old(updates);
      forall i | 0 <= i < |states| ensures Conserved(created[i], consumed[i], states[i].acked, OfType(updates, i)) {
        CreateConserves(old(created)[i], consumed[i], states[i].acked, old(updates), Update(t, reqSeqno, cfg), i);
      }
    }

    /** `ofctrl_seqno_cfg_run` */
    method CfgRun(u: Update)
      requires u.seqnoType < |states|
      modifies this`states
      ensures |states| == |old(states)|
      ensures forall t | 0 <= t < |states| ::
        && states[t].acked == old(states)[t].acked + (if t == u.seqnoType then [u] else [])
        && states[t].curCfg == (if t == u.seqnoType then u.reqCfg else old(states)[t].curCfg)
        && states[t].reqCfg == old(states)[t].reqCfg
    {
      var t := u.seqnoType;
      states := states[t := states[t].(acked := states[t].acked + [u], curCfg := u.reqCfg)];
    }

    /** The loop of `ofctrl_seqno_run`. */
    method RunPrefix(f: nat) returns (ghost n: nat)
      requires forall u | u in updates :: u.seqnoType < |states|
      modifies this`updates, this`states
      ensures n <= |old(updates)| && updates == old(updates)[n..] && |states| == |old(states)|
      ensures forall i | 0 <= i < n :: old(updates)[i].flowCfg <= f
      ensures n < |old(updates)| ==> f < old(updates)[n].flowCfg
      ensures forall t | 0 <= t < |states| ::
        && states[t].acked == old(states)[t].acked + OfType(old(updates)[..n], t)
        && states[t].curCfg == LastCfg(OfType(old(updates)[..n], t), old(states)[t].curCfg)
        && states[t].reqCfg == old(states)[t].reqCfg
    {
      n := 0;
      while updates != [] && updates[0].flowCfg <= f
        invariant n <= |old(updates)| && updates == old(updates)[n..] && |states| == |old(states)|
        invariant forall i | 0 <= i < n :: old(updates)[i].flowCfg <= f
        invariant forall t | 0 <= t < |states| ::
          && states[t].acked == old(states)[t].acked + OfType(old(updates)[..n], t)
          && states[t].curCfg == LastCfg(OfType(old(updates)[..n], t), old(states)[t].curCfg)
          && states[t].reqCfg == old(states)[t].reqCfg
        decreases |updates|
      {
        var u := updates[0];
        assert u == old(updates)[n];
        updates := updates[1..];
        CfgRun(u);
        forall t | 0 <= t < |states|
          ensures OfType(old(updates)[..n + 1], t) ==
            OfType(old(updates)[..n], t) + (if t == u.seqnoType then [u] else [])
        {
          assert old(updates)[..n + 1] == old(updates)[..n] + [u];
          OfTypePush(old(updates)[..n], u, t);
        }
        n := n + 1;
      }
    }

    /** `ofctrl_seqno_run`: exactly the requests that configuration `f` answers
        become acked, in order, although the loop stops at the first other. */
    method Run(f: nat)
      requires Valid()
      modifies this`updates, this`states
      ensures Valid() && State() == Ran(old(State()), f)
    {
      ghost var us := updates;
      ghost var n := RunPrefix(f);
      PrefixIsUpTo(us, n, f);
      RanConserves(created, consumed, old(states), states, us, n);
    }

    /** `ofctrl_acked_seqnos_get`: the acked requests of a type are handed out. */
    method AckedGet(t: nat) returns (acked: seq<nat>, lastAcked: nat)
      requires Valid() && t < |states|
      modifies this
      ensures Valid() && State() == HandedOut(old(State()), t) && created == old(created)
      ensures acked == Reqs(old(states)[t].acked)
      ensures lastAcked == if acked == [] then old(states)[t].curCfg else acked[|acked| - 1]
      ensures consumed == old(consumed)[t := old(consumed)[t] + acked]
    {
      acked, lastAcked := [], states[t].curCfg;
      ghost var us, was := states[t].acked, states;
      ghost var n := 0;
      assert us[0..] == us;
      while states[t].acked != []
        invariant 0 <= n <= |us|
        invariant states == was[t := was[t].(acked := us[n..])]
        invariant acked == Reqs(us[..n])
        invariant lastAcked == if n == 0 then was[t].curCfg else us[n - 1].reqCfg
        invariant updates == old(updates) && reqSeqno == old(reqSeqno)
        invariant created == old(created) && consumed == old(consumed)
        decreases |us| - n
      {
        var u := states[t].acked[0];
        assert us[..n + 1] == us[..n] + [u];
        states := states[t := states[t].(acked := states[t].acked[1..])];
        lastAcked := u.reqCfg;
        acked := acked + [u.reqCfg];
        n := n + 1;
      }
      assert us[..n] == us;
      consumed := consumed[t := consumed[t] + acked];
      ConsumeConserves(created[t], old(consumed)[t], us, OfType(updates, t));
    }

    /** `ofctrl_seqno_flush`, when the OpenFlow connection is lost. */
    method Flush()
      requires Valid()
      modifies this
      ensures Valid() && State() == Flushed(old(State()))
    {
      var t := 0;
      while t < |states|
        invariant 0 <= t <= |states| == |old(states)|
        invariant forall i | 0 <= i < |states| ::
          states[i] == if i < t then old(states)[i].(acked := []) else old(states)[i]
      {
        states := states[t := states[t].(acked := [])];
        t := t + 1;
      }
      updates := [];
      reqSeqno := 0;
      created := seq(|states|, i => []);
      consumed := created;
      assert Conserved([], [], [], []);
    }
  }
}
