/** The disk of disk/disk.c: the arm, and the pending requests on the linked list that is walked while it is emptied. */
module DiskSchedulers {
  import opened Program
  import opened Scan
  import opened KernelState
  import opened Scheduling
  import opened LinkedList

  datatype DiskRequest = DiskRequest(process: Process, track: int, read: bool, turnaround: int) {
    ghost function View(): Request {
      Request(process.id, track, read, turnaround)
    }
  }

  ghost function RequestsOf(nodes: seq<Node<DiskRequest>>): (r: seq<Request>)
    ensures |r| == |nodes| && forall i | 0 <= i < |nodes| :: r[i] == nodes[i].content.View()
  {
    seq(|nodes|, i requires 0 <= i < |nodes| => nodes[i].content.View())
  }

  lemma RequestsOfAppend(nodes: seq<Node<DiskRequest>>, node: Node<DiskRequest>)
    ensures RequestsOf(nodes + [node]) == RequestsOf(nodes) + [node.content.View()]
  {
  }

  lemma AroundNode(kept: seq<Node<DiskRequest>>, node: Node<DiskRequest>, rest: seq<Node<DiskRequest>>)
    ensures var all := kept + [node] + rest;
            all[|kept|] == node && all[..|kept|] + all[|kept| + 1..] == kept + rest
  {
  }

  lemma RequestsOfFirst(node: Node<DiskRequest>, rest: seq<Node<DiskRequest>>)
    ensures RequestsOf([node] + rest) == [node.content.View()] + RequestsOf(rest)
  {
  }

  lemma Regroup(a: seq<Request>, r: Request, b: seq<Request>)
    ensures a + ([r] + b) == (a + [r]) + b && a + ([] + b) == a + b
  {
  }

  lemma FirstRequest(r: Request, rest: seq<Request>, track: int)
    ensures NotOn([r] + rest, track) == (if r.track == track then [] else [r]) + NotOn(rest, track)
    ensures Served([r] + rest, track) ==
            if r.track == track then [r.proc] + Served(rest, track) else Served(rest, track)
  {
    assert ([r] + rest)[1..] == rest;
  }

  lemma UnblockFirst(q: Sched, id: Id, ids: seq<Id>)
    ensures UnblockAll(q, [id] + ids) == UnblockAll(Unblock(q, id, false), ids)
  {
    assert ([id] + ids)[1..] == ids;
  }

  /** One step of the walk: the request stays among those kept, or it goes and its process is unblocked. */
  lemma WalkStep(q: Sched, kept: seq<Node<DiskRequest>>, node: Node<DiskRequest>, rest: seq<Node<DiskRequest>>,
                 track: int)
    ensures var (r, all) := (node.content.View(), RequestsOf([node] + rest));
            var on := r.track == track;
            && RequestsOf(kept) + NotOn(all, track) ==
               RequestsOf(if on then kept else kept + [node]) + NotOn(RequestsOf(rest), track)
            && UnblockAll(q, Served(all, track)) ==
               UnblockAll(if on then Unblock(q, r.proc, false) else q, Served(RequestsOf(rest), track))
  {
    hide NotOn, Served, UnblockAll, Unblock, RequestsOf;
    var r := node.content.View();
    RequestsOfFirst(node, rest);
    FirstRequest(r, RequestsOf(rest), track);
    UnblockFirst(q, r.proc, Served(RequestsOf(rest), track));
    RequestsOfAppend(kept, node);
    Regroup(RequestsOf(kept), r, NotOn(RequestsOf(rest), track));
  }

  /** Before the walk nothing is kept; after it nothing is left to see. */
  lemma WalkEnds(nodes: seq<Node<DiskRequest>>, track: int)
    ensures RequestsOf([]) + NotOn(RequestsOf(nodes), track) == NotOn(RequestsOf(nodes), track)
    ensures RequestsOf(nodes) + NotOn(RequestsOf([]), track) == RequestsOf(nodes)
    ensures Served(RequestsOf([]), track) == [] && nodes + [] == [] + nodes == nodes
  {
  }

  class DiskScheduler {
    const pendingRequests: List<DiskRequest>
    var forwardDir: bool
    var currTrack: int

    ghost predicate Valid()
      reads pendingRequests, pendingRequests.nodes`next, pendingRequests.nodes`prev
    {
      pendingRequests.Valid()
    }

    ghost predicate RequestersAmong(live: map<Id, Process>)
      reads pendingRequests`nodes
    {
      forall n | n in pendingRequests.nodes :: Among(live, n.content.process)
    }

    lemma RequestersWith(live: map<Id, Process>, proc: Process)
      requires RequestersAmong(live) && proc.id !in live
      ensures RequestersAmong(live[proc.id := proc])
    {
    }

    lemma RequestersWithout(live: map<Id, Process>, gone: Id)
      requires RequestersAmong(live) && forall r | r in Pending() :: r.proc != gone
      ensures RequestersAmong(live - {gone})
    {
      forall n | n in pendingRequests.nodes
        ensures Among(live - {gone}, n.content.process)
      {
        var i :| 0 <= i < |pendingRequests.nodes| && pendingRequests.nodes[i] == n;
        assert Pending()[i] == n.content.View();
      }
    }

    ghost function Pending(): seq<Request>
      reads pendingRequests`nodes
    {
      RequestsOf(pendingRequests.nodes)
    }

    ghost function View(): Disk
      reads this`currTrack, this`forwardDir, pendingRequests`nodes
    {
      Disk(Pending(), Arm(currTrack, forwardDir))
    }

    /** The objects that its methods change. */
    ghost function Objects(): set<object>
      reads pendingRequests`nodes
    {
      {this, pendingRequests} + set n | n in pendingRequests.nodes
    }

    constructor ()
      ensures Valid() && View() == Init().disk && pendingRequests.nodes == [] && fresh(Objects())
    {
      pendingRequests := new List<DiskRequest>();
      forwardDir, currTrack := true, 0;
    }

    method Turnaround(track: int) returns (time: int)
      ensures time == Charge(View().arm, track)
    {
      time := OPERATION_TIME;
      if forwardDir {
        if track >= currTrack {
          time := time + (track - currTrack) * TRACK_MOVE_TIME;
        } else {
          time := time + ((TRACK_LIMIT - currTrack) + (TRACK_LIMIT - track)) * TRACK_MOVE_TIME;
        }
      } else {
        if track < currTrack {
          time := time + (currTrack - track) * TRACK_MOVE_TIME;
        } else {
          time := time + (currTrack + track) * TRACK_MOVE_TIME;
        }
      }
    }

    method Append(request: DiskRequest)
      requires Valid()
      modifies pendingRequests, pendingRequests.nodes
      ensures Valid() && pendingRequests.Contents() == old(pendingRequests.Contents()) + [request]
      ensures |pendingRequests.nodes| == |old(pendingRequests.nodes)| + 1
      ensures pendingRequests.nodes[..|old(pendingRequests.nodes)|] == old(pendingRequests.nodes)
      ensures fresh(pendingRequests.nodes[|old(pendingRequests.nodes)|])
      ensures forall o | o in Objects() :: o in old(Objects()) || fresh(o)
      ensures Pending() == old(Pending()) + [request.View()]
    {
      pendingRequests.Add(request);
      ghost var n := |old(pendingRequests.nodes)|;
      assert pendingRequests.Contents()[n] == request;
      assert pendingRequests.nodes == old(pendingRequests.nodes) + [pendingRequests.nodes[n]];
      RequestsOfAppend(old(pendingRequests.nodes), pendingRequests.nodes[n]);
    }

    /** Queues a request and charges its turnaround to the process. */
    method MakeRequest(process: Process, track: int, read: bool, sched: Scheduler)
      requires Valid() && sched.Valid() && sched.IsLive(process)
      modifies pendingRequests, pendingRequests.nodes, sched`contents, process`remaining
      ensures Valid() && sched.Valid() && process.id in old(sched.contents).procs
      ensures |pendingRequests.nodes| == |old(pendingRequests.nodes)| + 1
      ensures pendingRequests.nodes[..|old(pendingRequests.nodes)|] == old(pendingRequests.nodes)
      ensures fresh(pendingRequests.nodes[|old(pendingRequests.nodes)|])
      ensures forall o | o in Objects() :: o in old(Objects()) || fresh(o)
      ensures pendingRequests.nodes[|old(pendingRequests.nodes)|].content.process == process
      ensures var time := Charge(old(View()).arm, track);
              && View() == old(View()).(pending := old(View()).pending + [Request(process.id, track, read, time)])
              && sched.contents == SetRemaining(old(sched.contents), process.id,
                                                old(sched.contents).procs[process.id].remaining - time)
    {
      hide Scheduler.Valid, DiskScheduler.Valid, DiskScheduler.Objects, Scan.Charge, SetRemaining;
      var time := Turnaround(track);
      var request := DiskRequest(process, track, read, time);
      Append(request);
      assert pendingRequests.Contents()[|old(pendingRequests.nodes)|] == request;
      sched.Charge(process, time);
    }

    /** Serves one request: its process goes to the low queue, and its node leaves the list, keeping its own links. */
    method ServeNode(node: Node<DiskRequest>, sched: Scheduler, ghost kept: seq<Node<DiskRequest>>,
                     ghost rest: seq<Node<DiskRequest>>, ghost frame: set<Node<DiskRequest>>)
      requires Valid() && sched.Valid() && sched.IsLive(node.content.process)
      requires pendingRequests.nodes == kept + [node] + rest && forall n | n in pendingRequests.nodes :: n in frame
      modifies pendingRequests, frame, sched`contents, sched`high, sched`low, sched`blocked
      ensures Valid() && sched.Valid() && pendingRequests.nodes == kept + rest
      ensures sched.contents == Unblock(old(sched.contents), node.content.process.id, false)
    {
      sched.UnblockProcess(node.content.process, false);
      AroundNode(kept, node, rest);
      pendingRequests.RemoveNode(node, |kept|);
    }

    /** One iteration of the walk: kept are the nodes passed and left in the list, rest those still to see. */
    method WalkOne(curr: Node<DiskRequest>, track: int, sched: Scheduler, ghost kept: seq<Node<DiskRequest>>,
                   ghost rest: seq<Node<DiskRequest>>, ghost frame: set<Node<DiskRequest>>)
      returns (next: Node?<DiskRequest>, ghost kept': seq<Node<DiskRequest>>, ghost rest': seq<Node<DiskRequest>>)
      requires Valid() && sched.Valid() && pendingRequests.nodes == kept + rest && rest != [] && rest[0] == curr
      requires sched.IsLive(curr.content.process) && forall n | n in pendingRequests.nodes :: n in frame
      modifies pendingRequests, frame, sched`contents, sched`high, sched`low, sched`blocked
      ensures Valid() && sched.Valid() && pendingRequests.nodes == kept' + rest'
      ensures rest == [curr] + rest' && (kept' == kept || kept' == kept + [curr])
      ensures next == if rest' == [] then null else rest'[0]
      ensures RequestsOf(kept') + NotOn(RequestsOf(rest'), track) == RequestsOf(kept) + NotOn(RequestsOf(rest), track)
      ensures UnblockAll(sched.contents, Served(RequestsOf(rest'), track)) ==
              UnblockAll(old(sched.contents), Served(RequestsOf(rest), track))
    {
      rest' := rest[1..];
      assert rest == [curr] + rest' && kept + rest == kept + [curr] + rest';
      WalkStep(sched.contents, kept, curr, rest', track);
      assert pendingRequests.LinkedAt(|kept|);
      next := curr.next;
      if curr.content.track == track {
        ServeNode(curr, sched, kept, rest', frame);
        kept' := kept;
      } else {
        kept' := kept + [curr];
      }
    }

    /** Serves the requests on the track: each leaves the list during the walk, and its process goes to the low queue. */
    method Resolve(track: int, sched: Scheduler)
      requires Valid() && sched.Valid()
      requires forall n | n in pendingRequests.nodes :: sched.IsLive(n.content.process)
      modifies pendingRequests, pendingRequests.nodes, sched`contents, sched`high, sched`low, sched`blocked
      ensures Valid() && sched.Valid()
      ensures forall n | n in pendingRequests.nodes :: n in old(pendingRequests.nodes)
      ensures Pending() == NotOn(old(Pending()), track)
      ensures sched.contents == UnblockAll(old(sched.contents), Served(old(Pending()), track))
    {
      hide NotOn, Served, RequestsOf, Scheduler.Valid;
      WalkEnds(pendingRequests.nodes, track);
      ghost var frame := set n | n in pendingRequests.nodes;
      ghost var live := sched.live;
      assert forall n: Node<DiskRequest> | n in frame :: Among(live, n.content.process);
      ghost var kept: seq<Node<DiskRequest>>, rest := [], pendingRequests.nodes;
      var curr := pendingRequests.head;
      while curr != null
        invariant Valid() && sched.Valid() && pendingRequests.nodes == kept + rest
        invariant curr == if rest == [] then null else rest[0]
        invariant sched.live == live
        invariant forall n | n in kept || n in rest :: n in frame
        invariant RequestsOf(kept) + NotOn(RequestsOf(rest), track) == NotOn(old(Pending()), track)
        invariant UnblockAll(sched.contents, Served(RequestsOf(rest), track)) ==
                  UnblockAll(old(sched.contents), Served(old(Pending()), track))
        decreases |rest|
      {
        curr, kept, rest := WalkOne(curr, track, sched, kept, rest, frame);
      }
      WalkEnds(kept, track);
    }

    method MoveArm()
      modifies this`currTrack, this`forwardDir
      ensures Arm(currTrack, forwardDir) == Move(old(Arm(currTrack, forwardDir)))
    {
      if forwardDir {
        if currTrack == TRACK_LIMIT {
          forwardDir := false;
        } else {
          currTrack := currTrack + 1;
        }
      } else {
        if currTrack == 0 {
          forwardDir := true;
        } else {
          currTrack := currTrack - 1;
        }
      }
    }

    /** One turn of the disk loop. */
    method Turn(sched: Scheduler)
      requires Valid() && sched.Valid()
      requires RequestersAmong(sched.live)
      modifies this`currTrack, this`forwardDir, pendingRequests, pendingRequests.nodes
      modifies sched`contents, sched`high, sched`low, sched`blocked
      ensures Valid() && sched.Valid() && RequestersAmong(sched.live) && Objects() <= old(Objects())
      ensures var disk := old(View());
              && View() == Disk(NotOn(disk.pending, disk.arm.track), Move(disk.arm))
              && sched.contents == UnblockAll(old(sched.contents), Served(disk.pending, disk.arm.track))
    {
      Resolve(currTrack, sched);
      MoveArm();
    }
  }
}
