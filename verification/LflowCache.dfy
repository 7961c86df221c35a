/** controller/lflow-cache.c: the bounded cache of translated logical flows. */
module LflowCache {
  import opened Options
  import opened Ints

  const UINT64: nat := 0x1_0000_0000_0000_0000

  type Uuid = nat

  /** An expression tree or a set of matches; opaque to the cache. */
  datatype Value = Expr(expr: nat) | Matches(matches: nat, conjIdOfs: nat, nConjs: nat)

  /** `struct lflow_cache_entry` */
  datatype Entry = Entry(lflow: Uuid, size: nat, value: Value)

  function Total(s: seq<Entry>): nat {
    if s == [] then 0 else Total(s[..|s| - 1]) + s[|s| - 1].size
  }

  function Removed(s: seq<Entry>, i: nat): seq<Entry>
    requires i < |s|
  {
    s[..i] + s[i + 1..]
  }

  ghost predicate Evicted(was: seq<Entry>, now: seq<Entry>) {
    exists i | 0 <= i < |was| :: now == Removed(was, i)
  }

  lemma TotalPush(s: seq<Entry>, e: Entry)
    ensures Total(s + [e]) == Total(s) + e.size
  {
    assert (s + [e])[..|s|] == s;
  }

  lemma {:induction false} TotalConcat(a: seq<Entry>, b: seq<Entry>)
    ensures Total(a + b) == Total(a) + Total(b)
  {
    if b == [] {
      assert a + b == a;
    } else {
      var b', e := b[..|b| - 1], b[|b| - 1];
      assert a + b == (a + b') + [e] && b == b' + [e];
      TotalPush(a + b', e);
      TotalPush(b', e);
      TotalConcat(a, b');
    }
  }

  lemma TotalMiddle(a: seq<Entry>, e: Entry, b: seq<Entry>)
    ensures Total(a + [e] + b) == Total(a + b) + e.size
  {
    TotalConcat(a + [e], b);
    TotalPush(a, e);
    TotalConcat(a, b);
  }

  lemma TotalRemoved(s: seq<Entry>, i: nat)
    requires i < |s|
    ensures Total(Removed(s, i)) == Total(s) - s[i].size
  {
    TotalMiddle(s[..i], s[i], s[i + 1..]);
    assert s == s[..i] + [s[i]] + s[i + 1..];
  }

  /** Each logical flow is cached at most once, in either tier. */
  ghost predicate Unique(s: seq<Entry>) {
    forall i, j | 0 <= i < j < |s| :: s[i].lflow != s[j].lflow
  }

  ghost predicate AllLast(s: seq<Entry>, last: map<Uuid, Value>) {
    forall i | 0 <= i < |s| :: s[i].lflow in last && last[s[i].lflow] == s[i].value
  }

  /** What is cached, in either tier, is what was added last. */
  ghost predicate Current(exprs: seq<Entry>, matches: seq<Entry>, last: map<Uuid, Value>) {
    && Unique(exprs) && Unique(matches)
    && (forall i, j | 0 <= i < |exprs| && 0 <= j < |matches| :: exprs[i].lflow != matches[j].lflow)
    && AllLast(exprs, last) && AllLast(matches, last)
  }

  predicate Cached(s: seq<Entry>, u: Uuid) {
    exists i :: 0 <= i < |s| && s[i].lflow == u
  }

  lemma RemovedAt(s: seq<Entry>, i: nat)
    requires i < |s|
    ensures var t := Removed(s, i); |t| == |s| - 1 && forall j | 0 <= j < |t| :: t[j] == s[if j < i then j else j + 1]
  {
  }

  lemma CurrentRemoved(a: seq<Entry>, b: seq<Entry>, i: nat, last: map<Uuid, Value>)
    requires i < |a|
    ensures Current(a, b, last) ==> Current(Removed(a, i), b, last)
    ensures Current(b, a, last) ==> Current(b, Removed(a, i), last)
    ensures Current(a, b, last) || Current(b, a, last) ==> !Cached(Removed(a, i), a[i].lflow) && !Cached(b, a[i].lflow)
    ensures forall u | Cached(Removed(a, i), u) :: Cached(a, u)
  {
    RemovedAt(a, i);
  }

  /** Adding a value keeps the cache current exactly if it missed before. */
  lemma PushCurrent(a: seq<Entry>, b: seq<Entry>, e: Entry, last: map<Uuid, Value>)
    requires Current(a, b, last)
    ensures Current(a + [e], b, last[e.lflow := e.value]) <==> !Cached(a, e.lflow) && !Cached(b, e.lflow)
    ensures Current(a, b + [e], last[e.lflow := e.value]) <==> !Cached(a, e.lflow) && !Cached(b, e.lflow)
  {
    var a', b' := a + [e], b + [e];
    assert a'[|a|] == e && b'[|b|] == e;
    assert forall i | 0 <= i < |a| :: a'[i] == a[i];
    assert forall i | 0 <= i < |b| :: b'[i] == b[i];
  }

  /** What trimming makes of the watermark. The limit is computed in 32 bits. */
  function Trimmed(force: bool, highWatermark: nat, nEntries: nat, trimLimit: nat, perc: nat): nat {
    if !force && (highWatermark <= trimLimit || nEntries > highWatermark * perc % UINT32 / 100) then highWatermark
    else nEntries
  }

  /** An unforced trim lowers the watermark exactly if it is above the limit, and
      above the count, which is at most the percentage of it. */
  lemma TrimmedMeans(high: nat, n: nat, trimLimit: nat, perc: nat)
    requires n <= high
    ensures var t := Trimmed(false, high, n, trimLimit, perc);
      && t == (if t < high then n else high)
      && (t < high <==> trimLimit < high && n < high && n * 100 <= high * perc % UINT32)
      && (high * perc < UINT32 ==> (t < high <==> trimLimit < high && n < high && n * 100 <= high * perc))
    ensures Trimmed(true, high, n, trimLimit, perc) == n
  {
    var x := high * perc % UINT32;
    assert n <= x / 100 <==> n * 100 <= x;
    if high * perc < UINT32 {
      assert x == high * perc;
    }
  }

  /** `struct lflow_cache` */
  class Cache {
    const entrySize: nat
    var exprs: seq<Entry>
    var matches: seq<Entry>
    var nEntries: nat
    var highWatermark: nat
    var capacity: nat
    var memUsage: nat
    var maxMemUsage: nat
    var trimLimit: nat
    var trimWmarkPerc: nat
    var trimCount: nat
    var enabled: bool
    /** The value added last for each logical flow. */
    ghost var last: map<Uuid, Value>

    ghost predicate Counted()
      reads this
    {
      && nEntries == |exprs| + |matches|
      && memUsage == Total(exprs) + Total(matches)
      && nEntries <= highWatermark
      && (forall e | e in exprs :: e.value.Expr?)
      && (forall e | e in matches :: e.value.Matches?)
    }

    ghost predicate Valid()
      reads this
    {
      && Counted()
      && nEntries <= capacity && memUsage <= maxMemUsage
      && (!enabled ==> exprs == [] && matches == [])
    }

    ghost predicate UpToDate()
      reads this
    {
      Current(exprs, matches, last)
    }

    predicate Hit(u: Uuid)
      reads this`exprs, this`matches
    {
      Cached(exprs, u) || Cached(matches, u)
    }

    /** `lflow_cache_create` */
    constructor (entrySize: nat)
      ensures Valid() && UpToDate() && !enabled
    {
      this.entrySize := entrySize;
      exprs, matches, nEntries, highWatermark, capacity := [], [], 0, 0, 0;
      memUsage, maxMemUsage, trimLimit, trimWmarkPerc, trimCount := 0, 0, 0, 0, 0;
      enabled, last := false, map[];
    }

    /** `lflow_cache_delete__` for an entry of the first tier. */
    method DeleteExpr(i: nat)
      requires Counted() && i < |exprs|
      modifies this`exprs, this`nEntries, this`memUsage
      ensures Counted() && exprs == Removed(old(exprs), i)
      ensures nEntries == old(nEntries) - 1 && memUsage == old(memUsage) - old(exprs)[i].size
      ensures old(UpToDate()) ==> UpToDate() && !Hit(old(exprs)[i].lflow)
    {
      TotalRemoved(exprs, i);
      CurrentRemoved(exprs, matches, i, last);
      nEntries, memUsage := nEntries - 1, memUsage - exprs[i].size;
      exprs := Removed(exprs, i);
    }

    /** `lflow_cache_delete__` for an entry of the second tier. */
    method DeleteMatches(i: nat)
      requires Counted() && i < |matches|
      modifies this`matches, this`nEntries, this`memUsage
      ensures Counted() && matches == Removed(old(matches), i)
      ensures nEntries == old(nEntries) - 1 && memUsage == old(memUsage) - old(matches)[i].size
      ensures old(UpToDate()) ==> UpToDate() && !Hit(old(matches)[i].lflow)
    {
      TotalRemoved(matches, i);
      CurrentRemoved(matches, exprs, i, last);
      nEntries, memUsage := nEntries - 1, memUsage - matches[i].size;
      matches := Removed(matches, i);
    }

    /** `lflow_cache_trim__` */
    method Trim(force: bool)
      requires nEntries <= highWatermark
      modifies this`highWatermark, this`trimCount
      ensures highWatermark == Trimmed(force, old(highWatermark), nEntries, trimLimit, trimWmarkPerc)
      ensures force ==> highWatermark == nEntries
      ensures !force ==>
        && (highWatermark < old(highWatermark) <==>
              && trimLimit < old(highWatermark) && nEntries < old(highWatermark)
              && nEntries * 100 <= old(highWatermark) * trimWmarkPerc % UINT32)
        && (highWatermark < old(highWatermark) ==> highWatermark == nEntries)
    {
      TrimmedMeans(highWatermark, nEntries, trimLimit, trimWmarkPerc);
      var upper := highWatermark * trimWmarkPerc % UINT32 / 100;
      if !force && (highWatermark <= trimLimit || nEntries > upper) {
        return;
      }
      highWatermark := nEntries;
      trimCount := trimCount + 1;
    }

    /** `lflow_cache_flush` */
    method Flush()
      requires Counted()
      modifies this`exprs, this`matches, this`nEntries, this`memUsage, this`highWatermark, this`trimCount
      ensures Counted() && exprs == [] && matches == [] && highWatermark == 0
    {
      while exprs != []
        invariant Counted()
        decreases |exprs|
      {
        DeleteExpr(0);
      }
      while matches != []
        invariant Counted() && exprs == []
        decreases |matches|
      {
        DeleteMatches(0);
      }
      Trim(true);
    }

    /** `lflow_cache_enable` */
    method Enable(on: bool, newCapacity: nat, maxMemKb: nat, newTrimLimit: nat, wmarkPerc: nat)
      requires Valid() && newCapacity < UINT32 && maxMemKb < UINT64
      modifies this`exprs, this`matches, this`nEntries, this`memUsage, this`highWatermark, this`trimCount
      modifies this`enabled, this`capacity, this`maxMemUsage, this`trimLimit, this`trimWmarkPerc
      ensures Valid()
      ensures enabled == on && capacity == newCapacity && maxMemUsage == maxMemKb * 1024 % UINT64
      ensures trimLimit == newTrimLimit && trimWmarkPerc == if wmarkPerc > 100 then 100 else wmarkPerc
      ensures var keeps := !(old(enabled) && !on) && newCapacity >= old(nEntries) && maxMemUsage >= old(memUsage);
        if keeps then exprs == old(exprs) && matches == old(matches) else exprs == [] && matches == []
    {
      var perc := if wmarkPerc > 100 then 100 else wmarkPerc;
      var maxMem := maxMemKb * 1024 % UINT64;
      var needFlush, needTrim := false, false;
      if (enabled && !on) || newCapacity < nEntries || maxMem < memUsage {
        needFlush := true;
      } else if enabled && (trimLimit != newTrimLimit || trimWmarkPerc != perc) {
        needTrim := true;
      }
      enabled, capacity, maxMemUsage, trimLimit, trimWmarkPerc := on, newCapacity, maxMem, newTrimLimit, perc;
      FlushOrTrim(needFlush, needTrim);
    }

    method FlushOrTrim(needFlush: bool, needTrim: bool)
      requires Counted()
      modifies this`exprs, this`matches, this`nEntries, this`memUsage, this`highWatermark, this`trimCount
      ensures Counted()
      ensures if needFlush then exprs == [] && matches == [] else exprs == old(exprs) && matches == old(matches)
      ensures !needFlush ==> nEntries == old(nEntries)
      ensures !needFlush && needTrim ==>
        highWatermark == Trimmed(false, old(highWatermark), nEntries, trimLimit, trimWmarkPerc)
      ensures !needFlush && !needTrim ==> highWatermark == old(highWatermark)
    {
      if needFlush {
        Flush();
      } else if needTrim {
        Trim(false);
      }
    }

    /** Position of a logical flow in a tier. */
    method Lookup(s: seq<Entry>, u: Uuid) returns (i: nat)
      ensures i <= |s| && forall j | 0 <= j < i :: s[j].lflow != u
      ensures if i < |s| then s[i].lflow == u else !Cached(s, u)
    {
      i := 0;
      while i < |s| && s[i].lflow != u
        invariant 0 <= i <= |s| && forall j | 0 <= j < i :: s[j].lflow != u
      {
        i := i + 1;
      }
    }

    /** `lflow_cache_get` */
    method Get(u: Uuid) returns (r: Option<Value>)
      requires Valid()
      ensures r.None? <==> !Hit(u)
      ensures UpToDate() && r.Some? ==> u in last && r.value == last[u]
    {
      if !enabled {
        return None;
      }
      var i := Lookup(exprs, u);
      if i < |exprs| {
        return Some(exprs[i].value);
      }
      var j := Lookup(matches, u);
      if j < |matches| {
        return Some(matches[j].value);
      }
      return None;
    }

    /** `lflow_cache_delete` */
    method Delete(u: Uuid)
      requires Valid()
      modifies this`exprs, this`matches, this`nEntries, this`memUsage, this`highWatermark, this`trimCount
      ensures Valid()
      ensures old(UpToDate()) ==> UpToDate() && !Hit(u)
      ensures !old(Hit(u)) ==> exprs == old(exprs) && matches == old(matches) && highWatermark == old(highWatermark)
      ensures old(Hit(u)) ==> nEntries == old(nEntries) - 1
      ensures old(Hit(u)) ==> highWatermark == Trimmed(false, old(highWatermark), nEntries, trimLimit, trimWmarkPerc)
    {
      if enabled {
        var found := DeleteCached(u);
        if found {
          FlushOrTrim(false, true);
        }
      }
    }

    method DeleteCached(u: Uuid) returns (found: bool)
      requires Counted()
      modifies this`exprs, this`matches, this`nEntries, this`memUsage
      ensures Counted() && nEntries == old(nEntries) - (if found then 1 else 0) && memUsage <= old(memUsage)
      ensures old(UpToDate()) ==> UpToDate() && !Hit(u)
      ensures found <==> old(Hit(u))
      ensures !found ==> exprs == old(exprs) && matches == old(matches)
    {
      var i := Lookup(exprs, u);
      if i < |exprs| {
        DeleteExpr(i);
        return true;
      }
      var j := Lookup(matches, u);
      if j < |matches| {
        DeleteMatches(j);
        return true;
      }
      return false;
    }

    /** `lflow_cache_make_room__`: makes room for matches by evicting some
        expression, and never evicts matches. */
    method MakeRoom(forMatches: bool) returns (made: bool)
      requires Counted()
      modifies this`exprs, this`nEntries, this`memUsage
      ensures Counted() && (made <==> forMatches && old(exprs) != [])
      ensures made ==> Evicted(old(exprs), exprs)
      ensures made ==> nEntries == old(nEntries) - 1 && memUsage <= old(memUsage)
      ensures !made ==> exprs == old(exprs) && nEntries == old(nEntries) && memUsage == old(memUsage)
      ensures old(UpToDate()) ==> UpToDate()
      ensures forall u | Hit(u) :: old(Hit(u))
    {
      if !forMatches || exprs == [] {
        return false;
      }
      var i :| 0 <= i < |exprs|;
      DeleteExpr(i);
      return true;
    }

    /** `lflow_cache_add__`, with the value stored by its callers. The new entry
        and the cached ones are in memory together. */
    method Add(u: Uuid, value: Value, valueSize: nat) returns (added: bool)
      requires Valid() && entrySize + valueSize + memUsage < UINT64
      modifies this`exprs, this`matches, this`nEntries, this`memUsage, this`highWatermark, this`last
      ensures Valid()
      ensures added <==>
        && old(enabled) && entrySize + valueSize + old(memUsage) <= maxMemUsage
        && (old(nEntries) < capacity || (value.Matches? && old(exprs) != []))
      ensures !added ==> exprs == old(exprs) && matches == old(matches) && last == old(last)
      ensures added ==> last == old(last)[u := value] && Hit(u)
      ensures added ==>
        matches == old(matches) + if value.Matches? then [Entry(u, entrySize + valueSize, value)] else []
      ensures added && value.Expr? ==> exprs == old(exprs) + [Entry(u, entrySize + valueSize, value)]
      ensures added && value.Matches? ==>
        exprs == old(exprs) || (old(nEntries) == capacity && Evicted(old(exprs), exprs))
      ensures added && old(UpToDate()) && !old(Hit(u)) ==> UpToDate()
    {
      if !enabled {
        return false;
      }
      var size := entrySize + valueSize;
      if size + memUsage > maxMemUsage {
        return false;
      }
      var room := EnsureRoom(value.Matches?);
      if !room {
        return false;
      }
      Insert(Entry(u, size, value));
      return true;
    }

    method EnsureRoom(forMatches: bool) returns (room: bool)
      requires Counted() && nEntries <= capacity
      modifies this`exprs, this`nEntries, this`memUsage
      ensures Counted() && memUsage <= old(memUsage)
      ensures room <==> old(nEntries) < capacity || (forMatches && old(exprs) != [])
      ensures room ==> nEntries < capacity
      ensures exprs == old(exprs) || Evicted(old(exprs), exprs)
      ensures old(nEntries) < capacity || !room ==> exprs == old(exprs) && nEntries == old(nEntries)
      ensures old(UpToDate()) ==> UpToDate()
      ensures forall u | Hit(u) :: old(Hit(u))
    {
      room := true;
      if nEntries == capacity {
        room := MakeRoom(forMatches);
      }
    }

    method Insert(e: Entry)
      requires Counted()
      modifies this`exprs, this`matches, this`nEntries, this`memUsage, this`highWatermark, this`last
      ensures Counted() && nEntries == old(nEntries) + 1 && memUsage == old(memUsage) + e.size
      ensures e.value.Expr? ==> exprs == old(exprs) + [e] && matches == old(matches)
      ensures e.value.Matches? ==> exprs == old(exprs) && matches == old(matches) + [e]
      ensures last == old(last)[e.lflow := e.value]
      ensures old(UpToDate()) ==> (UpToDate() <==> !old(Hit(e.lflow)))
    {
      if UpToDate() {
        PushCurrent(exprs, matches, e, last);
      }
      Store(e);
      last := last[e.lflow := e.value];
    }

    method Store(e: Entry)
      requires Counted()
      modifies this`exprs, this`matches, this`nEntries, this`memUsage, this`highWatermark
      ensures Counted() && nEntries == old(nEntries) + 1 && memUsage == old(memUsage) + e.size
      ensures e.value.Expr? ==> exprs == old(exprs) + [e] && matches == old(matches)
      ensures e.value.Matches? ==> exprs == old(exprs) && matches == old(matches) + [e]
    {
      if e.value.Expr? {
        TotalPush(exprs, e);
        exprs := exprs + [e];
      } else {
        TotalPush(matches, e);
        matches := matches + [e];
      }
      memUsage := memUsage + e.size;
      nEntries := nEntries + 1;
      highWatermark := if highWatermark >= nEntries then highWatermark else nEntries;
    }
  }
}
