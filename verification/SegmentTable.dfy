/** The segment table of memory/memory.c: pages of instructions filled in place, used bits, and the free memory. */
module SegmentTables {
  import opened Program
  import opened KernelState

  function PageNumber(i: nat): nat {
    i / INSTRUCTIONS_PER_PAGE
  }

  function PageOffset(i: nat): nat {
    i % INSTRUCTIONS_PER_PAGE
  }

  /** Different instructions go to different places of the page table. */
  lemma PlacesDiffer(i: nat, j: nat)
    ensures PageNumber(i) == PageNumber(j) && PageOffset(i) == PageOffset(j) ==> i == j
  {
  }

  /** Every instruction of a program has its place in the page table. */
  lemma PlaceExists(i: nat, n: nat)
    requires i < n
    ensures PageNumber(i) < PageCount(n) && PageOffset(i) < INSTRUCTIONS_PER_PAGE
  {
  }

  class Segment {
    const id: int
    const size: int
    const pageCount: nat
    const code: array2<Instr>
    const used: array<bool>
    /** The program that the pages hold. */
    ghost var program: seq<Instr>

    ghost predicate Shaped()
    {
      code.Length0 == pageCount && code.Length1 == INSTRUCTIONS_PER_PAGE && used.Length == pageCount
    }

    /** Every instruction of the program is where a fetch looks for it. */
    ghost predicate Valid()
      reads this`program, code
    {
      && Shaped() && pageCount == PageCount(|program|)
      && forall i | 0 <= i < |program| :: HoldsAt(program, i)
    }

    ghost predicate HoldsAt(p: seq<Instr>, i: nat)
      requires i < |p| && Shaped()
      reads code
    {
      PageNumber(i) < pageCount && PageOffset(i) < INSTRUCTIONS_PER_PAGE && code[PageNumber(i), PageOffset(i)] == p[i]
    }

    ghost function View(): Seg
      reads this`program, used
    {
      Seg(id, size, program, used[..])
    }

    /** segment_create: pages are counted by rounding up; their contents are arbitrary. */
    constructor (id: int, kilobytes: int, codeLen: nat)
      ensures this.id == id && size == kilobytes * 1024 && pageCount == PageCount(codeLen)
      ensures Shaped() && fresh(code) && fresh(used)
    {
      var pages := (codeLen + INSTRUCTIONS_PER_PAGE - 1) / INSTRUCTIONS_PER_PAGE;
      this.id, size, pageCount := id, kilobytes * 1024, pages;
      code := new Instr[pages, INSTRUCTIONS_PER_PAGE];
      used := new bool[pages];
    }

    /** segment_populate: one loop clears the used bits, the other copies the code page by page. */
    method Populate(p: seq<Instr>)
      requires Shaped() && pageCount == PageCount(|p|)
      modifies this`program, code, used
      ensures Valid() && program == p && forall k | 0 <= k < pageCount :: !used[k]
    {
      for i := 0 to |p|
        invariant forall j | 0 <= j < i :: PageNumber(j) < pageCount && !used[PageNumber(j)]
        modifies used
      {
        PlaceExists(i, |p|);
        used[PageNumber(i)] := false;
      }
      for i := 0 to |p|
        invariant forall j | 0 <= j < i :: HoldsAt(p, j)
        modifies code
      {
        PlaceExists(i, |p|);
        label written:
        code[PageNumber(i), PageOffset(i)] := p[i];
        forall j | 0 <= j < i
          ensures HoldsAt(p, j)
        {
          PlacesDiffer(i, j);
          assert old@written(HoldsAt(p, j));
        }
      }
      program := p;
      forall k | 0 <= k < pageCount
        ensures !used[k]
      {
        var first := k * INSTRUCTIONS_PER_PAGE;
        assert 0 <= first < |p| && PageNumber(first) == k;
      }
    }

    /** A fetch through page number and offset returns the instruction of the program, and marks the page. */
    method Fetch(pc: nat) returns (instr: Instr)
      requires Valid() && pc < |program|
      modifies used
      ensures instr == program[pc]
      ensures pc / INSTRUCTIONS_PER_PAGE < used.Length
      ensures View() == old(View()).(used := old(used[..])[pc / INSTRUCTIONS_PER_PAGE := true])
    {
      assert HoldsAt(program, pc);
      instr := code[PageNumber(pc), PageOffset(pc)];
      if !used[PageNumber(pc)] {
        used[PageNumber(pc)] := true;
      }
    }

    /** The inner loop of the sweep, which its break leaves as soon as enough is freed. */
    method SweepPagesOf(freed0: int, wanted: int) returns (freed: int)
      modifies used
      ensures (used[..], freed) == SweepPages(old(used[..]), 0, freed0, wanted)
    {
      freed := freed0;
      var i := 0;
      while i < used.Length
        invariant i <= used.Length
        invariant SweepPages(used[..], i, freed, wanted) == SweepPages(old(used[..]), 0, freed0, wanted)
      {
        ghost var before := used[..];
        if used[i] {
          used[i] := false;
        } else {
          freed := freed + PAGE_SIZE;
        }
        assert used[..] == before[i := false];
        if freed >= wanted {
          return;
        }
        i := i + 1;
      }
    }
  }

  class SegmentTable {
    var segList: seq<Segment>
    var segListSize: int
    var remaining: int
    /** The segments as values. */
    ghost var contents: seq<Seg>

    /** The segments are well formed and share no pages. */
    ghost predicate Valid()
      reads this`segList, this`contents, segList`program
      reads set seg | seg in segList :: seg.code, set seg | seg in segList :: seg.used
    {
      && (forall i | 0 <= i < |segList| :: segList[i].Valid())
      && Apart(segList)
      && |contents| == |segList|
      && (forall i {:trigger segList[i]} | 0 <= i < |segList| :: contents[i] == segList[i].View())
    }

    ghost function View(): Segs
      reads this`contents, this`segListSize, this`remaining
    {
      Segs(contents, segListSize, remaining)
    }

    /** The objects that its methods change. */
    ghost function Objects(): set<object>
      reads this`segList
    {
      {this} + set seg | seg in segList :: seg.used
    }

    constructor ()
      ensures Valid() && View() == Init().segs && segList == [] && fresh(Objects())
    {
      segList, segListSize, remaining, contents := [], 0, 1024 * 1024 * 1024, [];
    }

    /** The place of the segment with that id; the length of the list if there is none. */
    method Find(id: int) returns (at: nat)
      requires Valid()
      ensures at == SegIndex(contents, id)
    {
      at := 0;
      while at < |segList|
        invariant at <= |segList| && forall i | 0 <= i < at :: contents[i].id != id
      {
        if segList[at].id == id {
          FirstSeg(contents, id, at);
          return;
        }
        at := at + 1;
      }
      FirstSeg(contents, id, at);
    }

    /** The fetch of the CPU from the segment at that place. */
    method FetchAt(at: nat, pc: nat) returns (instr: Instr)
      requires Valid() && at < |segList| && pc < |segList[at].program|
      modifies this`contents, segList[at].used
      ensures Valid() && instr == segList[at].program[pc]
      ensures pc / INSTRUCTIONS_PER_PAGE < segList[at].used.Length
      ensures View() == old(View()).(list := Touch(old(View()).list, at, pc))
    {
      instr := segList[at].Fetch(pc);
      contents := contents[at := segList[at].View()];
    }

    /** One segment of a sweep that leads from before to swept: the segments before it are swept already. */
    method SweepAt(at: nat, freed0: int, wanted: int, ghost before: seq<Seg>, ghost swept: seq<Seg>, ghost total: int)
      returns (freed: int)
      requires Valid() && at < |segList| == |before| == |swept| && contents == swept[..at] + before[at..]
      requires SweepSegs(before[at..], freed0, wanted) == (swept[at..], total)
      modifies this`contents, segList[at].used
      ensures Valid() && contents == swept[..at + 1] + before[at + 1..]
      ensures SweepSegs(before[at + 1..], freed, wanted) == (swept[at + 1..], total)
    {
      SweepNext(before, swept, total, at, freed0, wanted);
      freed := segList[at].SweepPagesOf(freed0, wanted);
      contents := contents[at := segList[at].View()];
    }

    /** The second-chance sweep: the break leaves the inner loop only. */
    method PageSwap(wanted: int) returns (freed: int)
      requires Valid()
      modifies this`contents, set seg | seg in segList :: seg.used
      ensures Valid() && (contents, freed) == SweepSegs(old(contents), 0, wanted)
    {
      freed := 0;
      ghost var before := contents;
      ghost var (swept, total) := SweepSegs(before, 0, wanted);
      SweptAll(before, swept);
      for i := 0 to |segList|
        invariant Valid() && contents == swept[..i] + before[i..]
        invariant SweepSegs(before[i..], freed, wanted) == (swept[i..], total)
      {
        freed := SweepAt(i, freed, wanted, before, swept, total);
      }
    }

    /** The free memory after a request of that size: never below zero, with what a swap frees added. */
    method Reserve(size: int)
      requires Valid()
      modifies this`remaining, this`contents, set seg | seg in segList :: seg.used
      ensures Valid()
      ensures var free := old(remaining) - size;
              var (swept, freed) := SweepSegs(old(contents), 0, size);
              && remaining == (if free >= 0 then free else freed)
              && contents == (if free >= 0 then old(contents) else swept)
    {
      var newRemaining := remaining - size;
      remaining := Max(0, newRemaining);
      if newRemaining < 0 {
        var freed := PageSwap(size);
        remaining := remaining + freed;
      }
    }

    method AddSegment(seg: Segment)
      requires Valid() && seg.Valid()
      requires forall i | 0 <= i < |segList| ::
                 segList[i] != seg && segList[i].code != seg.code && segList[i].used != seg.used
      modifies this`segList, this`segListSize, this`contents
      ensures Valid() && segList == old(segList) + [seg] && segListSize == old(segListSize) + 1
      ensures contents == old(contents) + [seg.View()]
    {
      segList, contents := segList + [seg], contents + [seg.View()];
      segListSize := segListSize + 1;
    }

    method NewSegment(id: int, kilobytes: int, code: seq<Instr>) returns (seg: Segment)
      ensures seg.Valid() && seg.View() == NewSeg(id, kilobytes, code)
      ensures fresh(seg) && fresh(seg.code) && fresh(seg.used)
    {
      seg := new Segment(id, kilobytes, |code|);
      seg.Populate(code);
    }

    /** mem_req_load: a segment with the program, after its memory has been reserved. */
    method LoadRequest(id: int, kilobytes: int, code: seq<Instr>)
      requires Valid()
      modifies this, set seg | seg in segList :: seg.used
      ensures Valid() && View() == Load(old(View()), NewSeg(id, kilobytes, code))
      ensures forall o | o in Objects() :: o in old(Objects()) || fresh(o)
      ensures |segList| == |old(segList)| + 1 && segList[..|old(segList)|] == old(segList)
      ensures var seg := segList[|old(segList)|]; fresh(seg) && fresh(seg.code) && fresh(seg.used)
    {
      Reserve(kilobytes * 1024);
      var seg := NewSegment(id, kilobytes, code);
      AddSegment(seg);
    }

    method DropSegment(at: nat)
      requires Valid() && at < |segList|
      modifies this`segList, this`contents
      ensures Valid() && contents == old(contents)[..at] + old(contents)[at + 1..]
      ensures forall seg | seg in segList :: seg in old(segList)
    {
      ApartWithout(segList, at);
      segList, contents := segList[..at] + segList[at + 1..], contents[..at] + contents[at + 1..];
    }

    /** segment_free: the segment leaves the table, and its size is free again, up to the whole memory. */
    method FreeSegment(id: int)
      requires Valid() && SegIndex(contents, id) < |contents|
      modifies this`segList, this`remaining, this`contents
      ensures Valid() && View() == Free(old(View()), id) && Objects() <= old(Objects())
      ensures forall seg | seg in segList :: seg in old(segList)
    {
      var at := Find(id);
      remaining := Min(MAX_MEM_SIZE, remaining + segList[at].size);
      DropSegment(at);
    }
  }

  lemma ApartWithout(list: seq<Segment>, at: nat)
    requires Apart(list) && at < |list|
    ensures var rest := list[..at] + list[at + 1..];
            Apart(rest) && forall i | 0 <= i < |rest| :: rest[i] == list[if i < at then i else i + 1]
  {
  }

  lemma SweepNext(list: seq<Seg>, swept: seq<Seg>, total: int, i: nat, freed: int, size: int)
    requires i < |list| == |swept| && SweepSegs(list[i..], freed, size) == (swept[i..], total)
    ensures var (used, freed') := SweepPages(list[i].used, 0, freed, size);
            && SweepSegs(list[i + 1..], freed', size) == (swept[i + 1..], total)
            && (swept[..i] + list[i..])[i] == list[i]
            && (swept[..i] + list[i..])[i := list[i].(used := used)] == swept[..i + 1] + list[i + 1..]
  {
    var (used, freed') := SweepPages(list[i].used, 0, freed, size);
    assert list[i..][0] == list[i] && list[i..][1..] == list[i + 1..];
    assert swept[i..][0] == swept[i] && swept[i..][1..] == swept[i + 1..];
    assert swept[i] == list[i].(used := used);
  }

  lemma SweptAll(list: seq<Seg>, swept: seq<Seg>)
    requires |list| == |swept|
    ensures swept[..0] + list[0..] == list == list[0..] && swept[0..] == swept
    ensures swept[..|list|] + list[|list|..] == swept && list[|list|..] == []
  {
  }

  ghost predicate Apart(list: seq<Segment>) {
    forall i, j | 0 <= i < j < |list| ::
      list[i] != list[j] && list[i].code != list[j].code && list[i].used != list[j].used
  }

  lemma {:induction false} FirstSeg(list: seq<Seg>, id: int, at: nat)
    requires at <= |list| && (forall i | 0 <= i < at :: list[i].id != id) && (at < |list| ==> list[at].id == id)
    ensures SegIndex(list, id) == at
  {
    if at > 0 {
      FirstSeg(list[1..], id, at - 1);
    }
  }
}
