/** The segment table on values: second-chance sweep, accounting under overcommit, and the match with the processes. */
module SegmentFacts {
  import opened KernelState

  // ------------------------------------------------------------ the sweep of one segment

  /** Unused pages among those numbered from i up to m. */
  function Unused(used: seq<bool>, i: nat, m: nat): nat
    requires i <= m <= |used|
  {
    if i == m then 0 else (if used[m - 1] then 0 else 1) + Unused(used, i, m - 1)
  }

  predicate Cleared(used: seq<bool>, used': seq<bool>, i: nat, m: nat)
    requires i <= m <= |used|
  {
    && |used'| == |used|
    && (forall j | i <= j < m :: !used'[j])
    && (forall j | 0 <= j < |used| && !(i <= j < m) :: used'[j] == used[j])
  }

  /** The sweep stops right after page m - 1: the first that brings freed to size, or the last one. */
  predicate StopsAt(used: seq<bool>, i: nat, m: nat, freed: int, size: int)
    requires i <= m <= |used|
  {
    && (i < |used| ==> i < m)
    && (m < |used| ==> freed + PAGE_SIZE * Unused(used, i, m) >= size)
    && (forall j | i < j < m :: freed + PAGE_SIZE * Unused(used, i, j) < size)
  }

  lemma {:induction false} UnusedFromFirst(used: seq<bool>, i: nat, m: nat)
    requires i < m <= |used|
    ensures Unused(used, i, m) == (if used[i] then 0 else 1) + Unused(used, i + 1, m)
  {
    if i + 1 < m {
      UnusedFromFirst(used, i, m - 1);
    }
  }

  lemma {:induction false} UnusedSame(used: seq<bool>, used': seq<bool>, i: nat, m: nat)
    requires i <= m <= |used| && |used'| == |used| && forall j | i <= j < m :: used[j] == used'[j]
    ensures Unused(used, i, m) == Unused(used', i, m)
  {
    if i < m {
      UnusedSame(used, used', i, m - 1);
    }
  }

  /** The sweep of one segment clears exactly the pages it examines and counts exactly those unused on entry. */
  lemma {:induction false} SweepPagesEffect(used: seq<bool>, i: nat, freed: int, size: int) returns (m: nat)
    requires i <= |used|
    ensures i <= m <= |used| && StopsAt(used, i, m, freed, size)
    ensures var (used', freed') := SweepPages(used, i, freed, size);
            Cleared(used, used', i, m) && freed' == freed + PAGE_SIZE * Unused(used, i, m)
    decreases |used| - i
  {
    m := i;
    if i < |used| {
      var freed1 := if used[i] then freed else freed + PAGE_SIZE;
      UnusedFromFirst(used, i, i + 1);
      if freed1 >= size {
        m := i + 1;
      } else {
        var used1 := used[i := false];
        m := SweepPagesEffect(used1, i + 1, freed1, size);
        forall j | i < j <= m
          ensures freed + PAGE_SIZE * Unused(used, i, j) == freed1 + PAGE_SIZE * Unused(used1, i + 1, j)
        {
          UnusedFromFirst(used, i, j);
          UnusedSame(used, used1, i + 1, j);
        }
      }
    }
  }

  // ------------------------------------------------------------ the sweep of the whole table

  predicate SameButUsed(seg: Seg, seg': Seg) {
    seg.id == seg'.id && seg.size == seg'.size && seg.code == seg'.code && |seg.used| == |seg'.used|
  }

  predicate SameButUsedAll(list: seq<Seg>, list': seq<Seg>) {
    |list| == |list'| && forall i | 0 <= i < |list| :: SameButUsed(list[i], list'[i])
  }

  lemma {:induction false} SweepKeeps(list: seq<Seg>, freed: int, size: int)
    ensures var (list', freed') := SweepSegs(list, freed, size); SameButUsedAll(list, list') && freed' >= freed
  {
    if list != [] {
      var m := SweepPagesEffect(list[0].used, 0, freed, size);
      SweepKeeps(list[1..], SweepPages(list[0].used, 0, freed, size).1, size);
    }
  }

  /** Pages that the sweep of the table examines, segment by segment. */
  ghost predicate Examines(list: seq<Seg>, ms: seq<nat>) {
    |ms| == |list| && forall j | 0 <= j < |list| :: ms[j] <= |list[j].used|
  }

  ghost function UnusedIn(list: seq<Seg>, ms: seq<nat>): nat
    requires Examines(list, ms)
  {
    if list == [] then 0
    else
      assert Examines(list[1..], ms[1..]);
      Unused(list[0].used, 0, ms[0]) + UnusedIn(list[1..], ms[1..])
  }

  /** The stretch of segment j ends with the page that makes what is freed so far enough, counting what the segments
      before it gave; it is one page where they already gave enough, and all pages where nothing is enough. */
  ghost predicate StretchEnds(list: seq<Seg>, ms: seq<nat>, j: nat, freed: int, size: int)
    requires Examines(list, ms) && j < |list|
  {
    StopsAt(list[j].used, 0, ms[j], freed + PAGE_SIZE * UnusedIn(list[..j], ms[..j]), size)
  }

  lemma StretchEndsLater(list: seq<Seg>, ms: seq<nat>, j: nat, freed: int, size: int)
    requires Examines(list, ms) && 0 < j < |list| && Examines(list[1..], ms[1..])
    requires StretchEnds(list[1..], ms[1..], j - 1, freed + PAGE_SIZE * Unused(list[0].used, 0, ms[0]), size)
    ensures StretchEnds(list, ms, j, freed, size)
  {
    assert list[..j][1..] == list[1..][..j - 1] && ms[..j][1..] == ms[1..][..j - 1];
  }

  /** One sweep: in each segment a first stretch of pages is examined; their used bits are cleared, and what is freed
      is a page for each of them that was unused on entry. */
  lemma {:induction false} SweepEffect(list: seq<Seg>, freed: int, size: int) returns (ms: seq<nat>)
    ensures Examines(list, ms)
    ensures var (list', freed') := SweepSegs(list, freed, size);
            && freed' == freed + PAGE_SIZE * UnusedIn(list, ms)
            && (forall j | 0 <= j < |list| :: Cleared(list[j].used, list'[j].used, 0, ms[j]))
            && (forall j | 0 <= j < |list| :: StretchEnds(list, ms, j, freed, size))
            && (forall j | 0 <= j < |list| :: list[j].used != [] ==> ms[j] > 0)
  {
    ms := [];
    if list != [] {
      var m := SweepPagesEffect(list[0].used, 0, freed, size);
      var freed1 := SweepPages(list[0].used, 0, freed, size).1;
      var rest := SweepEffect(list[1..], freed1, size);
      ms := [m] + rest;
      assert ms[1..] == rest;
      var list' := SweepSegs(list, freed, size).0;
      forall j | 0 <= j < |list|
        ensures Cleared(list[j].used, list'[j].used, 0, ms[j])
        ensures StretchEnds(list, ms, j, freed, size) && (list[j].used != [] ==> ms[j] > 0)
      {
        if j > 0 {
          assert list[j] == list[1..][j - 1] && list'[j] == SweepSegs(list[1..], freed1, size).0[j - 1];
          StretchEndsLater(list, ms, j, freed, size);
        } else {
          assert UnusedIn(list[..0], ms[..0]) == 0;
        }
      }
    }
  }

  lemma {:induction false} SweepPagesBound(used: seq<bool>, i: nat, freed: int, size: int)
    requires i <= |used|
    ensures var freed' := SweepPages(used, i, freed, size).1;
            freed <= freed' && (freed' < size || freed' < Max(size, freed + 1) + PAGE_SIZE)
    decreases |used| - i
  {
    if i < |used| {
      var freed1 := if used[i] then freed else freed + PAGE_SIZE;
      if freed1 < size {
        SweepPagesBound(used[i := false], i + 1, freed1, size);
      }
    }
  }

  /** The break leaves the inner loop only, so the sweep may overshoot, by less than a page per segment. */
  lemma {:induction false} SweepBound(list: seq<Seg>, freed: int, size: int, n: nat)
    requires freed < size + PAGE_SIZE * n
    ensures SweepSegs(list, freed, size).1 < size + PAGE_SIZE * (n + |list|)
  {
    if list != [] {
      SweepPagesBound(list[0].used, 0, freed, size);
      SweepBound(list[1..], SweepPages(list[0].used, 0, freed, size).1, size, n + 1);
    }
  }

  // ------------------------------------------------------------ the second chance

  function AllPages(list: seq<Seg>): nat {
    if list == [] then 0 else |list[0].used| + AllPages(list[1..])
  }

  lemma {:induction false} NoneUsed(used: seq<bool>, m: nat)
    requires m <= |used| && forall j | 0 <= j < m :: !used[j]
    ensures Unused(used, 0, m) == m
  {
    if m > 0 {
      NoneUsed(used, m - 1);
    }
  }

  lemma {:induction false} UnusedAtMost(used: seq<bool>, m: nat)
    requires m <= |used|
    ensures Unused(used, 0, m) <= m
  {
    if m > 0 {
      UnusedAtMost(used, m - 1);
    }
  }

  /** A second sweep over one segment, started no worse off than the first, reaches the size or frees every page and
      stays no worse off. */
  lemma SecondPages(used: seq<bool>, f1: int, f2: int, size: int)
    requires f2 >= f1 || f2 >= size
    ensures var (used1, g1) := SweepPages(used, 0, f1, size);
            var (used2, g2) := SweepPages(used1, 0, f2, size);
            g2 >= size || (g2 == f2 + PAGE_SIZE * |used| && g2 >= g1)
  {
    var (used1, g1) := SweepPages(used, 0, f1, size);
    var (used2, g2) := SweepPages(used1, 0, f2, size);
    var m1 := SweepPagesEffect(used, 0, f1, size);
    var m2 := SweepPagesEffect(used1, 0, f2, size);
    UnusedAtMost(used, m1);
    if g2 < size {
      assert m2 == |used|;
      NoneUsed(used1, m1);
      UnusedPrefix(used1, m1, m2);
      assert m1 == |used|;
    }
  }

  lemma {:induction false} UnusedPrefix(used: seq<bool>, m: nat, n: nat)
    requires m <= n <= |used|
    ensures Unused(used, 0, m) <= Unused(used, 0, n)
  {
    if m < n {
      UnusedPrefix(used, m, n - 1);
    }
  }

  /** With no execution in between, a second sweep frees the size it is asked for, or every page there is. */
  lemma {:induction false} SecondSweep(list: seq<Seg>, f1: int, f2: int, size: int)
    requires f2 >= f1 || f2 >= size
    ensures var (list1, g1) := SweepSegs(list, f1, size);
            SweepSegs(list1, f2, size).1 >= Min(size, f2 + PAGE_SIZE * AllPages(list))
  {
    if list != [] {
      var (used1, h1) := SweepPages(list[0].used, 0, f1, size);
      var (list1, g1) := SweepSegs(list, f1, size);
      assert list1[0].used == used1 && list1[1..] == SweepSegs(list[1..], h1, size).0;
      SecondPages(list[0].used, f1, f2, size);
      SecondSweep(list[1..], h1, SweepPages(used1, 0, f2, size).1, size);
    }
  }

  // ------------------------------------------------------------ accounting

  function TotalSize(list: seq<Seg>): int {
    if list == [] then 0 else list[0].size + TotalSize(list[1..])
  }

  ghost predicate Sized(list: seq<Seg>) {
    forall i | 0 <= i < |list| :: list[i].size >= 0
  }

  /** The free memory is never negative, with the live segments it covers the whole memory, and without any it is the
      whole memory. */
  ghost predicate Accounted(t: Segs) {
    && Sized(t.list) && t.remaining >= 0 && t.remaining + TotalSize(t.list) >= MAX_MEM_SIZE
    && (t.list == [] ==> t.remaining == MAX_MEM_SIZE)
  }

  /** No overcommit so far. */
  ghost predicate Exact(t: Segs) {
    Accounted(t) && t.remaining + TotalSize(t.list) == MAX_MEM_SIZE
  }

  lemma {:induction false} TotalSizeAppend(list: seq<Seg>, seg: Seg)
    ensures TotalSize(list + [seg]) == TotalSize(list) + seg.size
  {
    if list != [] {
      assert (list + [seg])[1..] == list[1..] + [seg];
      TotalSizeAppend(list[1..], seg);
    }
  }

  lemma {:induction false} TotalSizeRemove(list: seq<Seg>, i: nat)
    requires i < |list|
    ensures TotalSize(list[..i] + list[i + 1..]) == TotalSize(list) - list[i].size
  {
    var rest := list[..i] + list[i + 1..];
    if i == 0 {
      assert rest == list[1..];
    } else {
      assert rest[1..] == list[1..][..i - 1] + list[1..][i..] && rest[0] == list[0];
      TotalSizeRemove(list[1..], i - 1);
    }
  }

  lemma {:induction false} TotalSizeSame(list: seq<Seg>, list': seq<Seg>)
    requires SameButUsedAll(list, list')
    ensures TotalSize(list) == TotalSize(list')
  {
    if list != [] {
      assert forall i | 0 <= i < |list| - 1 :: list[1..][i] == list[i + 1] && list'[1..][i] == list'[i + 1];
      TotalSizeSame(list[1..], list'[1..]);
    }
  }

  lemma {:induction false} TotalSizeNonNegative(list: seq<Seg>)
    requires Sized(list)
    ensures TotalSize(list) >= 0
  {
    if list != [] {
      TotalSizeNonNegative(list[1..]);
    }
  }

  /** A load keeps the account covered, and keeps it exact as long as no page swap is needed. */
  lemma LoadAccounted(t: Segs, seg: Seg)
    requires Accounted(t) && seg.size >= 0
    ensures Accounted(Load(t, seg))
    ensures Exact(t) && seg.size <= t.remaining ==> Exact(Load(t, seg))
  {
    TotalSizeAppend(t.list, seg);
    SweepKeeps(t.list, 0, seg.size);
    var list := SweepSegs(t.list, 0, seg.size).0;
    TotalSizeSame(t.list, list);
    TotalSizeAppend(list, seg);
  }

  /** What a load leads to, page by page: enough free memory is reduced by the size; otherwise a sweep examines a first
      stretch of pages in each segment, and what they free is all that is free afterwards. */
  ghost predicate LoadedPages(t: Segs, seg: Seg, t': Segs, ms: seq<nat>) {
    && t'.listSize == t.listSize + 1 && |t'.list| == |t.list| + 1 && t'.list[|t.list|] == seg
    && if seg.size <= t.remaining then t'.remaining == t.remaining - seg.size && t'.list[..|t.list|] == t.list
       else
         && Examines(t.list, ms) && t'.remaining == PAGE_SIZE * UnusedIn(t.list, ms)
         && forall j | 0 <= j < |t.list| ::
              && SameButUsed(t.list[j], t'.list[j])
              && Cleared(t.list[j].used, t'.list[j].used, 0, ms[j])
              && StretchEnds(t.list, ms, j, 0, seg.size)
  }

  lemma LoadEffect(t: Segs, seg: Seg) returns (ms: seq<nat>)
    ensures LoadedPages(t, seg, Load(t, seg), ms)
  {
    ms := SweepEffect(t.list, 0, seg.size);
    SweepKeeps(t.list, 0, seg.size);
  }

  /** Freeing keeps the account covered and, when it was exact, exact. */
  lemma FreeAccounted(t: Segs, id: int)
    requires Accounted(t) && SegIndex(t.list, id) < |t.list|
    ensures Accounted(Free(t, id))
    ensures Exact(t) ==> Exact(Free(t, id))
  {
    var i := SegIndex(t.list, id);
    TotalSizeRemove(t.list, i);
    TotalSizeNonNegative(Free(t, id).list);
  }

  // ------------------------------------------------------------ segments and processes

  ghost predicate Owned(procs: map<Id, Proc>, sid: int) {
    exists id :: id in procs && procs[id].segId == sid
  }

  predicate Holds(list: seq<Seg>, p: Proc) {
    var i := SegIndex(list, p.segId);
    i < |list| && list[i].code == p.code
  }

  predicate SegOk(seg: Seg) {
    |seg.used| == PageCount(|seg.code|)
  }

  /** Live processes and segments correspond one to one by segment id, and a process' segment holds its program. */
  ghost predicate Matched(procs: map<Id, Proc>, list: seq<Seg>) {
    && (forall i, j | 0 <= i < j < |list| :: list[i].id != list[j].id)
    && (forall i | 0 <= i < |list| :: Owned(procs, list[i].id) && SegOk(list[i]))
    && (forall id | id in procs :: Holds(list, procs[id]))
    && (forall id, id' | id in procs && id' in procs && id != id' :: procs[id].segId != procs[id'].segId)
  }

  lemma HoldsAt(procs: map<Id, Proc>, list: seq<Seg>, id: Id)
    requires Matched(procs, list) && id in procs
    ensures Holds(list, procs[id]) && SegOk(list[SegIndex(list, procs[id].segId)])
  {
    assert Holds(list, procs[id]);
  }

  lemma {:induction false} SegIndexSame(list: seq<Seg>, list': seq<Seg>, sid: int)
    requires SameButUsedAll(list, list')
    ensures SegIndex(list, sid) == SegIndex(list', sid)
  {
    if list != [] {
      assert forall i | 0 <= i < |list| - 1 :: list[1..][i] == list[i + 1] && list'[1..][i] == list'[i + 1];
      SegIndexSame(list[1..], list'[1..], sid);
    }
  }

  /** Scheduling, executing and sweeping leave the match alone. */
  lemma MatchedKept(procs: map<Id, Proc>, list: seq<Seg>, procs': map<Id, Proc>, list': seq<Seg>)
    requires Matched(procs, list) && SameButUsedAll(list, list') && procs'.Keys == procs.Keys
    requires forall id | id in procs :: procs'[id].segId == procs[id].segId && procs'[id].code == procs[id].code
    ensures Matched(procs', list')
  {
    forall i | 0 <= i < |list'|
      ensures Owned(procs', list'[i].id) && SegOk(list'[i])
    {
      assert Owned(procs, list[i].id) && SegOk(list[i]) && SameButUsed(list[i], list'[i]);
      var id :| id in procs && procs[id].segId == list[i].id;
      assert id in procs' && procs'[id].segId == list'[i].id;
    }
    forall id | id in procs'
      ensures Holds(list', procs'[id])
    {
      assert Holds(list, procs[id]);
      SegIndexSame(list, list', procs[id].segId);
      assert SameButUsed(list[SegIndex(list, procs[id].segId)], list'[SegIndex(list, procs[id].segId)]);
    }
    forall i, j | 0 <= i < j < |list'|
      ensures list'[i].id != list'[j].id
    {
      assert SameButUsed(list[i], list'[i]) && SameButUsed(list[j], list'[j]);
    }
  }

  lemma SegIndexIs(list: seq<Seg>, i: nat)
    requires i < |list| && forall j, k | 0 <= j < k < |list| :: list[j].id != list[k].id
    ensures SegIndex(list, list[i].id) == i
  {
    var j := SegIndex(list, list[i].id);
    assert j <= i && list[j].id == list[i].id;
  }

  lemma {:induction false} SegIndexAppend(list: seq<Seg>, seg: Seg, sid: int)
    ensures SegIndex(list + [seg], sid) ==
            if SegIndex(list, sid) < |list| then SegIndex(list, sid)
            else if seg.id == sid then |list| else |list| + 1
  {
    if list != [] {
      assert (list + [seg])[1..] == list[1..] + [seg];
      SegIndexAppend(list[1..], seg, sid);
    }
  }

  lemma OwnedAfterAdd(procs: map<Id, Proc>, id: Id, p: Proc, sid: int)
    requires id !in procs && (Owned(procs, sid) || p.segId == sid)
    ensures Owned(procs[id := p], sid)
  {
    var x :| (x == id && p.segId == sid) || (x in procs && procs[x].segId == sid);
    assert x in procs[id := p] && procs[id := p][x].segId == sid;
  }

  /** A creation with an unused segment id. */
  lemma MatchedAdd(procs: map<Id, Proc>, list: seq<Seg>, id: Id, p: Proc, seg: Seg)
    requires Matched(procs, list) && id !in procs && p.segId == seg.id && p.code == seg.code && SegOk(seg)
    requires forall x | x in procs :: procs[x].segId != p.segId
    ensures Matched(procs[id := p], list + [seg])
  {
    var procs', list' := procs[id := p], list + [seg];
    forall i | 0 <= i < |list'|
      ensures Owned(procs', list'[i].id) && SegOk(list'[i]) && (i < |list| ==> list[i].id != seg.id)
    {
      if i < |list| {
        assert Owned(procs, list[i].id) && list'[i] == list[i];
      }
      OwnedAfterAdd(procs, id, p, list'[i].id);
    }
    forall x | x in procs'
      ensures Holds(list', procs'[x])
    {
      SegIndexAppend(list, seg, procs'[x].segId);
      if x == id {
        NotOwnedNotThere(procs, list, seg.id);
      } else {
        assert Holds(list, procs[x]);
      }
    }
  }

  lemma NotOwnedNotThere(procs: map<Id, Proc>, list: seq<Seg>, sid: int)
    requires Matched(procs, list) && forall x | x in procs :: procs[x].segId != sid
    ensures SegIndex(list, sid) == |list|
  {
    var i := SegIndex(list, sid);
    assert i < |list| ==> Owned(procs, list[i].id);
  }

  lemma HoldsAfterFree(list: seq<Seg>, i: nat, p: Proc)
    requires i < |list| && forall j, k | 0 <= j < k < |list| :: list[j].id != list[k].id
    requires Holds(list, p) && p.segId != list[i].id
    ensures Holds(list[..i] + list[i + 1..], p)
  {
    var list' := list[..i] + list[i + 1..];
    var at := SegIndex(list, p.segId);
    var now := if at < i then at else at - 1;
    assert list'[now] == list[at];
    SegIndexIs(list', now);
  }

  function Dropped(list: seq<Seg>, i: nat): (r: seq<Seg>)
    requires i < |list|
    ensures |r| == |list| - 1 && forall j | 0 <= j < |r| :: r[j] == list[if j < i then j else j + 1]
  {
    list[..i] + list[i + 1..]
  }

  lemma OwnersAfterFree(procs: map<Id, Proc>, list: seq<Seg>, id: Id, i: nat, j: nat)
    requires Matched(procs, list) && id in procs && i < |list| && list[i].id == procs[id].segId && j < |list| - 1
    ensures Owned(procs - {id}, Dropped(list, i)[j].id) && SegOk(Dropped(list, i)[j])
  {
    var was := if j < i then j else j + 1;
    assert Owned(procs, list[was].id) && SegOk(list[was]);
    OwnedAfterRemove(procs, id, list[was].id);
  }

  /** A teardown frees the segment of its process and no other. */
  lemma MatchedFree(procs: map<Id, Proc>, list: seq<Seg>, id: Id)
    requires Matched(procs, list) && id in procs
    ensures var i := SegIndex(list, procs[id].segId);
            i < |list| && Matched(procs - {id}, list[..i] + list[i + 1..])
  {
    hide Owned, SegOk;
    assert Holds(list, procs[id]);
    var i := SegIndex(list, procs[id].segId);
    var list' := Dropped(list, i);
    forall j | 0 <= j < |list'|
      ensures Owned(procs - {id}, list'[j].id) && SegOk(list'[j])
    {
      OwnersAfterFree(procs, list, id, i, j);
    }
    forall x | x in procs - {id}
      ensures Holds(list', (procs - {id})[x])
    {
      assert Holds(list, procs[x]);
      HoldsAfterFree(list, i, procs[x]);
    }
  }

  lemma OwnedAfterRemove(procs: map<Id, Proc>, id: Id, sid: int)
    requires Owned(procs, sid) && id in procs && procs[id].segId != sid
    ensures Owned(procs - {id}, sid)
  {
    var x :| x in procs && procs[x].segId == sid;
    assert x in procs - {id} && (procs - {id})[x].segId == sid;
  }
}
