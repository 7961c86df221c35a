/** controller/ha-chassis.c: which chassis of an HA chassis group is the master. */
module HaChassis {
  import opened Options

  type Name = string

  /** The range of column HA_Chassis.priority in ovn-sb.ovsschema. */
  type Priority = p: int | 0 <= p <= 32767

  /** `struct sbrec_ha_chassis` */
  datatype Member = Member(chassis: Option<Name>, priority: Priority)

  /** `struct sbrec_ha_chassis_group` */
  datatype Group = Group(members: seq<Member>, refs: seq<Name>)

  /** A member whose chassis is set. */
  datatype Candidate = Candidate(name: Name, priority: Priority)

  // ------------------------------------------------------------------ comparing

  /** The sign of `strcmp`. */
  function StrCmp(a: Name, b: Name): int {
    if a == "" && b == "" then 0
    else if a == "" then -1
    else if b == "" then 1
    else if a[0] < b[0] then -1
    else if a[0] > b[0] then 1
    else StrCmp(a[1..], b[1..])
  }

  /** Conversion to `int`. */
  function ToInt(x: int): int {
    var r := x % 0x1_0000_0000;
    if r < 0x8000_0000 then r else r - 0x1_0000_0000
  }

  /** `compare_chassis_prio_` */
  function Compare(a: Candidate, b: Candidate): int {
    var diff := ToInt(b.priority - a.priority);
    if diff == 0 then StrCmp(b.name, a.name) else diff
  }

  /** The first difference decides, and a proper prefix comes first. */
  lemma {:induction false} StrCmpAt(a: Name, b: Name, i: nat)
    requires i <= |a| && i <= |b| && a[..i] == b[..i]
    ensures i < |a| && i < |b| && a[i] < b[i] ==> StrCmp(a, b) < 0
    ensures i < |a| && i < |b| && a[i] > b[i] ==> StrCmp(a, b) > 0
    ensures i == |a| < |b| ==> StrCmp(a, b) < 0
    ensures i == |b| < |a| ==> StrCmp(a, b) > 0
  {
    if i > 0 {
      assert a[0] == a[..i][0] == b[..i][0] == b[0];
      assert a[1..][..i - 1] == a[..i][1..] == b[..i][1..] == b[1..][..i - 1];
      StrCmpAt(a[1..], b[1..], i - 1);
    }
  }

  lemma {:induction false} StrCmpZero(a: Name, b: Name)
    ensures StrCmp(a, b) == 0 <==> a == b
  {
    if a != "" && b != "" {
      StrCmpZero(a[1..], b[1..]);
      assert a == [a[0]] + a[1..] && b == [b[0]] + b[1..];
    }
  }

  lemma {:induction false} StrCmpSwap(a: Name, b: Name)
    ensures StrCmp(a, b) == -StrCmp(b, a)
  {
    if a != "" && b != "" {
      StrCmpSwap(a[1..], b[1..]);
    }
  }

  lemma {:induction false} StrCmpTrans(a: Name, b: Name, c: Name)
    requires StrCmp(a, b) <= 0 && StrCmp(b, c) <= 0
    ensures StrCmp(a, c) <= 0
  {
    if a != "" && b != "" && c != "" && a[0] == b[0] == c[0] {
      StrCmpTrans(a[1..], b[1..], c[1..]);
    }
  }

  /** `a` comes before `b`: greater priority, then greater name. */
  predicate Before(a: Candidate, b: Candidate) {
    a.priority > b.priority || (a.priority == b.priority && StrCmp(b.name, a.name) <= 0)
  }

  lemma BeforeTrans(a: Candidate, b: Candidate, c: Candidate)
    requires Before(a, b) && Before(b, c)
    ensures Before(a, c)
  {
    if a.priority == b.priority == c.priority {
      StrCmpTrans(c.name, b.name, a.name);
    }
  }

  lemma BeforeTotal(a: Candidate, b: Candidate)
    ensures Before(a, b) || Before(b, a)
    ensures Before(a, b) && Before(b, a) ==> a == b
  {
    StrCmpSwap(a.name, b.name);
    StrCmpZero(a.name, b.name);
  }

  /** Priorities of the column's range are too close for the conversion to `int`
      to matter. */
  lemma CompareIsBefore(a: Candidate, b: Candidate)
    ensures Compare(a, b) <= 0 <==> Before(a, b)
  {
  }

  // -------------------------------------------------------------------- sorting

  ghost predicate Ordered(s: seq<Candidate>) {
    forall i, j | 0 <= i < j < |s| :: Before(s[i], s[j])
  }

  /** Where `x` goes in a sorted list. */
  method FindPlace(s: seq<Candidate>, x: Candidate) returns (k: nat)
    requires Ordered(s)
    ensures k <= |s| && Ordered(s[..k] + [x] + s[k..])
  {
    k := |s|;
    while k > 0 && Compare(s[k - 1], x) > 0
      invariant 0 <= k <= |s|
      invariant forall j | k <= j < |s| :: Before(x, s[j])
      decreases k
    {
      CompareIsBefore(s[k - 1], x);
      BeforeTotal(s[k - 1], x);
      k := k - 1;
    }
    if k > 0 {
      CompareIsBefore(s[k - 1], x);
      forall i | 0 <= i < k ensures Before(s[i], x) {
        if i < k - 1 {
          BeforeTrans(s[i], s[k - 1], x);
        }
      }
    }
  }

  /** `qsort` with the comparison above. */
  method Sort(s: seq<Candidate>) returns (r: seq<Candidate>)
    ensures multiset(r) == multiset(s) && Ordered(r)
  {
    r := [];
    for i := 0 to |s|
      invariant multiset(r) == multiset(s[..i]) && Ordered(r)
    {
      var x := s[i];
      assert s[..i + 1] == s[..i] + [x];
      var k := FindPlace(r, x);
      assert r == r[..k] + r[k..];
      r := r[..k] + [x] + r[k..];
    }
    assert s[..|s|] == s;
  }

  // ------------------------------------------------------------------- candidates

  /** A member takes part if its chassis is set and is local or has a tunnel. */
  predicate TakesPart(m: Member, tunnels: Option<set<Name>>, local: Option<Name>) {
    m.chassis.Some? && (m.chassis == local || tunnels.None? || m.chassis.value in tunnels.value)
  }

  function Candidates(members: seq<Member>, tunnels: Option<set<Name>>, local: Option<Name>): seq<Candidate> {
    if members == [] then []
    else
      var n := |members| - 1;
      Candidates(members[..n], tunnels, local) +
      if TakesPart(members[n], tunnels, local) then [Candidate(members[n].chassis.value, members[n].priority)] else []
  }

  lemma {:induction false} CandidatesAre(members: seq<Member>, tunnels: Option<set<Name>>, local: Option<Name>)
    ensures forall c :: c in Candidates(members, tunnels, local) <==>
      Member(Some(c.name), c.priority) in members && TakesPart(Member(Some(c.name), c.priority), tunnels, local)
  {
    if members != [] {
      var n := |members| - 1;
      CandidatesAre(members[..n], tunnels, local);
      assert members == members[..n] + [members[n]];
      assert members[n].chassis.Some? ==> members[n] == Member(Some(members[n].chassis.value), members[n].priority);
    }
  }

  predicate SeesRef(g: Group, tunnels: set<Name>) {
    exists r | r in g.refs :: r in tunnels
  }

  /** `get_ordered_ha_chassis_list` */
  method GetOrdered(g: Group, tunnels: Option<set<Name>>, local: Option<Name>) returns (r: Option<seq<Candidate>>)
    ensures var cs := Candidates(g.members, tunnels, local);
      if cs == [] || (|cs| == 1 && tunnels.Some? && !SeesRef(g, tunnels.value)) then r.None?
      else r.Some? && multiset(r.value) == multiset(cs) && Ordered(r.value)
  {
    var cs := [];
    for i := 0 to |g.members|
      invariant cs == Candidates(g.members[..i], tunnels, local)
    {
      assert g.members[..i + 1][..i] == g.members[..i];
      var m := g.members[i];
      if m.chassis.None? {
        continue;
      }
      if m.chassis != local && tunnels.Some? && m.chassis.value !in tunnels.value {
        continue;
      }
      cs := cs + [Candidate(m.chassis.value, m.priority)];
    }
    assert g.members[..|g.members|] == g.members;
    if cs == [] {
      return None;
    }
    if |cs| == 1 {
      if tunnels.Some? {
        var seen := false;
        for i := 0 to |g.refs|
          invariant seen <==> exists j :: 0 <= j < i && g.refs[j] in tunnels.value
        {
          if g.refs[i] in tunnels.value {
            seen := true;
            break;
          }
        }
        if !seen {
          return None;
        }
      }
      assert cs == [cs[0]];
      return Some(cs);
    }
    var sorted := Sort(cs);
    return Some(sorted);
  }

  /** `is_local_chassis_only_candidate` */
  method IsLocalOnlyCandidate(g: Group, local: Name) returns (r: bool)
    ensures r <==> OnlyCandidate(g, local)
  {
    var n, present := 0, false;
    for i := 0 to |g.members|
      invariant n == |Candidates(g.members[..i], None, None)|
      invariant present <==> exists j :: 0 <= j < i && g.members[j].chassis == Some(local)
    {
      assert g.members[..i + 1][..i] == g.members[..i];
      if g.members[i].chassis.Some? {
        n := n + 1;
        if g.members[i].chassis == Some(local) {
          present := true;
        }
      }
    }
    assert g.members[..|g.members|] == g.members;
    return present && n == 1;
  }

  ghost predicate OnlyCandidate(g: Group, local: Name) {
    (exists m | m in g.members :: m.chassis == Some(local)) && |Candidates(g.members, None, None)| == 1
  }

  /** The first candidate: it comes before all others. */
  ghost predicate First(cs: seq<Candidate>, c: Candidate) {
    c in cs && forall d | d in cs :: Before(c, d)
  }

  /** Who is the master, said without sorting. */
  ghost predicate Master(og: Option<Group>, tunnels: set<Name>, local: Name) {
    && og.Some? && og.value.members != []
    && var g := og.value;
    if |g.members| == 1 then g.members[0].chassis == Some(local)
    else
      || OnlyCandidate(g, local)
      || (&& tunnels != {}
          && var cs := Candidates(g.members, Some(tunnels), Some(local));
             && (|cs| == 1 ==> SeesRef(g, tunnels))
             && exists p :: First(cs, Candidate(local, p)))
  }

  /** `ha_chassis_group_is_active` */
  method IsActive(og: Option<Group>, tunnels: set<Name>, local: Name) returns (r: bool)
    ensures r <==> Master(og, tunnels, local)
  {
    if og.None? || og.value.members == [] {
      return false;
    }
    var g := og.value;
    if |g.members| == 1 {
      return g.members[0].chassis == Some(local);
    }
    var only := IsLocalOnlyCandidate(g, local);
    if only {
      return true;
    }
    if tunnels == {} {
      return false;
    }
    var ordered := GetOrdered(g, Some(tunnels), Some(local));
    ghost var cs := Candidates(g.members, Some(tunnels), Some(local));
    if ordered.None? {
      return false;
    }
    FirstOfOrdered(cs, ordered.value);
    r := ordered.value[0].name == local;
    if exists p :: First(cs, Candidate(local, p)) {
      var p :| First(cs, Candidate(local, p));
      BeforeTotal(Candidate(local, p), ordered.value[0]);
    }
    assert r ==> First(cs, Candidate(local, ordered.value[0].priority));
  }

  lemma FirstOfOrdered(cs: seq<Candidate>, r: seq<Candidate>)
    requires cs != [] && multiset(r) == multiset(cs) && Ordered(r)
    ensures r != [] && First(cs, r[0])
  {
    assert |multiset(r)| == |multiset(cs)|;
    assert r[0] in multiset(cs);
    forall d | d in cs ensures Before(r[0], d) {
      assert d in multiset(r);
      var i :| 0 <= i < |r| && r[i] == d;
      BeforeTotal(d, d);
    }
  }

  // --------------------------------------------------------------------- agreement

  ghost predicate DistinctNames(g: Group) {
    forall i, j | 0 <= i < j < |g.members| && g.members[i].chassis.Some? :: g.members[i].chassis != g.members[j].chassis
  }

  ghost predicate InGroup(g: Group, n: Name) {
    exists m | m in g.members :: m.chassis == Some(n)
  }

  /** `n` sees exactly the other live members of the group. */
  ghost predicate SeesOthers(g: Group, live: set<Name>, n: Name, tunnels: set<Name>) {
    forall o | InGroup(g, o) && o != n :: o in tunnels <==> o in live
  }

  /** All live members have the same candidates. */
  lemma SameCandidates(g: Group, live: set<Name>, n: Name, tunnels: set<Name>)
    requires n in live && SeesOthers(g, live, n, tunnels)
    ensures forall c :: c in Candidates(g.members, Some(tunnels), Some(n)) <==>
      c.name in live && Member(Some(c.name), c.priority) in g.members
  {
    CandidatesAre(g.members, Some(tunnels), Some(n));
  }

  lemma MemberOf(g: Group, n: Name) returns (c: Candidate)
    requires InGroup(g, n)
    ensures c.name == n && Member(Some(n), c.priority) in g.members
  {
    var m :| m in g.members && m.chassis == Some(n);
    c := Candidate(n, m.priority);
    assert m == Member(Some(n), c.priority);
  }

  lemma TwoCandidates(cs: seq<Candidate>, a: Candidate, b: Candidate)
    requires a in cs && b in cs && a != b
    ensures |cs| >= 2
  {
    var i :| 0 <= i < |cs| && cs[i] == a;
    var j :| 0 <= j < |cs| && cs[j] == b;
    assert i != j;
  }

  /** With at least two live members, a live member is the master iff it is the
      greatest of them by priority, then name. */
  lemma MasterIsGreatest(g: Group, live: set<Name>, n: Name, tunnels: set<Name>)
    requires forall o | o in live :: InGroup(g, o)
    requires |live| >= 2 && n in live && SeesOthers(g, live, n, tunnels)
    ensures Master(Some(g), tunnels, n) <==> Greatest(g, live, n)
  {
    assert |live - {n}| >= 1;
    var o :| o in live - {n};
    var cn := MemberOf(g, n);
    var co := MemberOf(g, o);
    var cs, all := Candidates(g.members, Some(tunnels), Some(n)), Candidates(g.members, None, None);
    SameCandidates(g, live, n, tunnels);
    CandidatesAre(g.members, None, None);
    TwoCandidates(cs, cn, co);
    TwoCandidates(all, cn, co);
    assert o in tunnels && |g.members| != 1;
  }

  /** Some entry of `n` comes before every entry of every live chassis. */
  ghost predicate Greatest(g: Group, live: set<Name>, n: Name) {
    exists p :: IsGreatest(g, live, Candidate(n, p))
  }

  ghost predicate IsGreatest(g: Group, live: set<Name>, c: Candidate) {
    c.name in live && Member(Some(c.name), c.priority) in g.members &&
    forall d: Candidate | d.name in live && Member(Some(d.name), d.priority) in g.members :: Before(c, d)
  }

  /** Exactly one live member finds itself to be the master. */
  lemma OneMaster(g: Group, live: set<Name>, tunnels: map<Name, set<Name>>) returns (master: Name)
    requires forall o | o in live :: InGroup(g, o)
    requires |live| >= 2 && forall n | n in live :: n in tunnels && SeesOthers(g, live, n, tunnels[n])
    ensures master in live && forall n | n in live :: Master(Some(g), tunnels[n], n) <==> n == master
  {
    var n0 :| n0 in live;
    var cs := Candidates(g.members, Some(tunnels[n0]), Some(n0));
    SameCandidates(g, live, n0, tunnels[n0]);
    var c0 := MemberOf(g, n0);
    var c := FirstExists(cs);
    master := c.name;
    assert IsGreatest(g, live, c);
    forall n | n in live ensures Master(Some(g), tunnels[n], n) <==> n == master {
      MasterIsGreatest(g, live, n, tunnels[n]);
      if Greatest(g, live, n) {
        var p :| IsGreatest(g, live, Candidate(n, p));
        BeforeTotal(c, Candidate(n, p));
      }
    }
  }

  lemma {:induction false} FirstExists(cs: seq<Candidate>) returns (c: Candidate)
    requires cs != []
    ensures First(cs, c)
  {
    var n := |cs| - 1;
    var last := cs[n];
    BeforeTotal(last, last);
    if n == 0 {
      c := last;
    } else {
      var d := FirstExists(cs[..n]);
      assert cs == cs[..n] + [last];
      BeforeTotal(d, last);
      if Before(d, last) {
        c := d;
      } else {
        c := last;
        forall e | e in cs[..n] ensures Before(last, e) {
          BeforeTrans(last, d, e);
        }
      }
    }
  }

  ghost predicate UniqueNames(cs: seq<Candidate>) {
    forall i, j | 0 <= i < j < |cs| :: cs[i].name != cs[j].name
  }

  lemma {:induction false} OneEach(members: seq<Member>, tunnels: Option<set<Name>>, local: Option<Name>)
    requires forall i, j | 0 <= i < j < |members| && members[i].chassis.Some? ::
      members[i].chassis != members[j].chassis
    ensures UniqueNames(Candidates(members, tunnels, local))
  {
    if members != [] {
      var n := |members| - 1;
      OneEach(members[..n], tunnels, local);
      CandidatesAre(members[..n], tunnels, local);
      var cs := Candidates(members[..n], tunnels, local);
      forall i | 0 <= i < |cs| ensures members[n].chassis != Some(cs[i].name) {
        assert cs[i] in cs;
        var k :| 0 <= k < n && members[..n][k] == Member(Some(cs[i].name), cs[i].priority);
        assert members[k].chassis != members[n].chassis;
      }
      var all := Candidates(members, tunnels, local);
      assert all == cs || (all == cs + [all[|cs|]] && members[n].chassis == Some(all[|cs|].name));
      assert forall i | 0 <= i < |cs| :: all[i] == cs[i];
    }
  }

  lemma NotAllCalled(cs: seq<Candidate>, n: Name)
    requires UniqueNames(cs) && |cs| >= 2
    ensures exists c | c in cs :: c.name != n
  {
    assert cs[0] in cs && cs[1] in cs && cs[0].name != cs[1].name;
  }

  /** A live member that sees no other one. */
  lemma AloneMaster(g: Group, n: Name, tunnels: set<Name>)
    requires InGroup(g, n) && DistinctNames(g) && SeesOthers(g, {n}, n, tunnels)
    ensures Master(Some(g), tunnels, n) <==>
      |g.members| == 1 || OnlyCandidate(g, n) || (tunnels != {} && SeesRef(g, tunnels))
  {
    SameCandidates(g, {n}, n, tunnels);
    var cs := Candidates(g.members, Some(tunnels), Some(n));
    var c := MemberOf(g, n);
    assert c in cs;
    OneEach(g.members, Some(tunnels), Some(n));
    if |cs| >= 2 {
      NotAllCalled(cs, n);
    }
    if |g.members| == 1 {
      assert g.members == [g.members[0]];
    } else {
      var d := FirstExists(cs);
      assert First(cs, Candidate(n, d.priority));
    }
  }
}
