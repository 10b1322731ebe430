/** Inode reference counts: the open-file table of file/file.c against the o_files lists of the live processes. */
module FileCounts {
  import opened KernelState

  /** The live processes that list the inode. */
  ghost function Users(open: map<Id, seq<int>>, num: int): set<Id> {
    set id | id in open && num in open[id]
  }

  predicate Distinct(s: seq<int>) {
    forall i, j | 0 <= i < j < |s| :: s[i] != s[j]
  }

  predicate Active(inodes: seq<Inode>, num: int) {
    InodeIndex(inodes, num) < |inodes|
  }

  ghost predicate CountOk(f: Files, i: nat)
    requires i < |f.inodes|
  {
    f.inodes[i].count == |Users(f.open, f.inodes[i].id)| >= 1
  }

  predicate ListOk(f: Files, id: Id)
    requires id in f.open
  {
    Distinct(f.open[id]) && forall n | n in f.open[id] :: Active(f.inodes, n)
  }

  /** Active inodes are distinct, each counts its users and has one, and what a process lists is active and listed once. */
  ghost predicate FilesOk(f: Files) {
    && (forall i, j | 0 <= i < j < |f.inodes| :: f.inodes[i].id != f.inodes[j].id)
    && (forall i | 0 <= i < |f.inodes| :: CountOk(f, i))
    && (forall id | id in f.open :: ListOk(f, id))
  }

  lemma ActiveIs(inodes: seq<Inode>, num: int)
    ensures Active(inodes, num) <==> exists i :: 0 <= i < |inodes| && inodes[i].id == num
  {
  }

  lemma UsersUpdate(open: map<Id, seq<int>>, id: Id, list: seq<int>, num: int)
    requires id in open
    ensures num in list ==> Users(open[id := list], num) == Users(open, num) + {id}
    ensures num !in list ==> Users(open[id := list], num) == Users(open, num) - {id}
  {
  }

  lemma UsersRemoved(open: map<Id, seq<int>>, id: Id, num: int)
    ensures Users(open - {id}, num) == Users(open, num) - {id}
  {
  }

  lemma UsersNew(open: map<Id, seq<int>>, id: Id, num: int)
    requires id !in open
    ensures Users(open[id := []], num) == Users(open, num)
  {
  }

  lemma FirstAccessCounts(f: Files, id: Id, num: int, i: nat)
    requires FilesOk(f) && id in f.open && num !in f.open[id] && i < |Access(f, id, num).inodes|
    ensures CountOk(Access(f, id, num), i)
  {
    var list := f.open[id] + [num];
    var n := Access(f, id, num).inodes[i].id;
    UsersUpdate(f.open, id, list, n);
    assert n in list <==> n == num || n in f.open[id];
    if n == num && i == |f.inodes| {
      NotActiveNoUsers(f, num);
    } else {
      assert CountOk(f, i);
      assert n == num ==> id !in Users(f.open, num);
      assert n != num ==> Users(f.open[id := list], n) == Users(f.open, n);
    }
  }

  lemma FirstAccessLists(f: Files, id: Id, num: int, p: Id)
    requires FilesOk(f) && id in f.open && num !in f.open[id] && p in f.open
    ensures ListOk(Access(f, id, num), p)
  {
    var f' := Access(f, id, num);
    assert ListOk(f, p);
    forall n | n in f'.open[p]
      ensures Active(f'.inodes, n)
    {
      ActiveIs(f'.inodes, n);
      if n == num {
        assert f'.inodes[InodeIndex(f.inodes, num)].id == num;
      } else {
        assert Active(f.inodes, n) && f'.inodes[InodeIndex(f.inodes, n)].id == n;
      }
    }
  }

  /** The first access by a process: a new or known inode gains exactly that user. */
  lemma FirstAccessOk(f: Files, id: Id, num: int)
    requires FilesOk(f) && id in f.open && num !in f.open[id]
    ensures FilesOk(Access(f, id, num))
  {
    var f' := Access(f, id, num);
    forall i | 0 <= i < |f'.inodes|
      ensures CountOk(f', i)
    {
      FirstAccessCounts(f, id, num, i);
    }
    forall p | p in f'.open
      ensures ListOk(f', p)
    {
      FirstAccessLists(f, id, num, p);
    }
  }

  lemma NotActiveNoUsers(f: Files, num: int)
    requires FilesOk(f) && !Active(f.inodes, num)
    ensures Users(f.open, num) == {}
  {
    forall id | id in f.open
      ensures num !in f.open[id]
    {
      assert ListOk(f, id);
    }
  }

  lemma UsedIsActive(f: Files, id: Id, num: int)
    requires FilesOk(f) && id in f.open && num in f.open[id]
    ensures Active(f.inodes, num) && Access(f, id, num) == f
  {
    assert ListOk(f, id);
    assert f.open[id := f.open[id]] == f.open;
  }

  lemma AccessOk(f: Files, id: Id, num: int)
    requires FilesOk(f) && id in f.open
    ensures FilesOk(Access(f, id, num)) && Access(f, id, num).open.Keys == f.open.Keys
  {
    if num in f.open[id] {
      UsedIsActive(f, id, num);
    } else {
      FirstAccessOk(f, id, num);
    }
  }

  lemma OnlyOne(s: set<Id>, x: Id, y: Id)
    requires |s| == 1 && x in s && y in s
    ensures x == y
  {
    var rest := s - {x};
    assert |rest| == 0;
    assert y !in rest;
  }

  /** Closing one file of a process that lists it first. */
  ghost function CloseFirst(f: Files, id: Id): Files
    requires id in f.open && f.open[id] != []
  {
    Files(Close(f.inodes, f.open[id][0]), f.open[id := f.open[id][1..]])
  }

  lemma CloseFirstCounts(f: Files, id: Id, i: nat)
    requires FilesOk(f) && id in f.open && f.open[id] != [] && i < |CloseFirst(f, id).inodes|
    ensures CountOk(CloseFirst(f, id), i)
  {
    var num, rest := f.open[id][0], f.open[id][1..];
    var f' := CloseFirst(f, id);
    var n := f'.inodes[i].id;
    assert ListOk(f, id) && f.open[id] == [num] + rest && num !in rest;
    UsersUpdate(f.open, id, rest, n);
    var at := InodeIndex(f.inodes, num);
    assert num in f.open[id] && Active(f.inodes, num);
    assert CountOk(f, at);
    if n == num {
      assert id in Users(f.open, num);
    } else {
      assert n in rest <==> n in f.open[id];
      assert Users(f'.open, n) == Users(f.open, n);
      assert exists j :: 0 <= j < |f.inodes| && f.inodes[j] == f'.inodes[i] && CountOk(f, j) by {
        if f.inodes[at].count == 1 && i >= at {
          assert f'.inodes[i] == f.inodes[i + 1] && CountOk(f, i + 1);
        } else {
          assert f'.inodes[i] == f.inodes[i] && CountOk(f, i);
        }
      }
    }
  }

  lemma CloseFirstLists(f: Files, id: Id, p: Id)
    requires FilesOk(f) && id in f.open && f.open[id] != [] && p in f.open
    ensures ListOk(CloseFirst(f, id), p)
  {
    var num, rest := f.open[id][0], f.open[id][1..];
    var f' := CloseFirst(f, id);
    var at := InodeIndex(f.inodes, num);
    assert ListOk(f, id) && ListOk(f, p) && f.open[id] == [num] + rest;
    assert num in f.open[id] && Active(f.inodes, num);
    assert CountOk(f, at);
    forall n | n in f'.open[p]
      ensures Active(f'.inodes, n)
    {
      assert n in f.open[p];
      ActiveIs(f'.inodes, n);
      var j := InodeIndex(f.inodes, n);
      if f.inodes[at].count != 1 {
        assert f'.inodes[j].id == n;
      } else {
        assert n != num by {
          if n == num {
            assert id in Users(f.open, num) && p in Users(f.open, num);
            OnlyOne(Users(f.open, num), id, p);
          }
        }
        assert f'.inodes[if j < at then j else j - 1] == f.inodes[j];
      }
    }
  }

  lemma CloseFirstOk(f: Files, id: Id)
    requires FilesOk(f) && id in f.open && f.open[id] != []
    ensures FilesOk(CloseFirst(f, id))
  {
    var f' := CloseFirst(f, id);
    forall i | 0 <= i < |f'.inodes|
      ensures CountOk(f', i)
    {
      CloseFirstCounts(f, id, i);
    }
    forall p | p in f'.open
      ensures ListOk(f', p)
    {
      CloseFirstLists(f, id, p);
    }
  }

  /** A finishing process gives up exactly its own uses. */
  lemma {:induction false} CloseAllOk(f: Files, id: Id)
    requires FilesOk(f) && id in f.open
    ensures FilesOk(Files(CloseAll(f.inodes, f.open[id]), f.open - {id}))
    decreases |f.open[id]|
  {
    if f.open[id] == [] {
      var f' := Files(f.inodes, f.open - {id});
      forall i | 0 <= i < |f'.inodes|
        ensures CountOk(f', i)
      {
        assert CountOk(f, i);
        UsersRemoved(f.open, id, f.inodes[i].id);
        assert id !in Users(f.open, f.inodes[i].id);
      }
      forall p | p in f'.open
        ensures ListOk(f', p)
      {
        assert ListOk(f, p);
      }
    } else {
      CloseFirstOk(f, id);
      CloseAllOk(CloseFirst(f, id), id);
      assert CloseFirst(f, id).open - {id} == f.open - {id};
    }
  }

  lemma OpenNewOk(f: Files, id: Id)
    requires FilesOk(f) && id !in f.open
    ensures FilesOk(f.(open := f.open[id := []]))
  {
    var f' := f.(open := f.open[id := []]);
    forall i | 0 <= i < |f'.inodes|
      ensures CountOk(f', i)
    {
      assert CountOk(f, i);
      UsersNew(f.open, id, f.inodes[i].id);
    }
    forall p | p in f'.open
      ensures ListOk(f', p)
    {
      assert p != id ==> ListOk(f, p);
    }
  }

  /** Without live processes no file is open. */
  lemma NobodyNothing(f: Files)
    requires FilesOk(f) && f.open == map[]
    ensures f.inodes == []
  {
    assert f.inodes != [] ==> CountOk(f, 0) && Users(f.open, f.inodes[0].id) == {};
  }

  /** Different tracks are different files, and the inverse macros lead back from the inode number to the block and
      from there to the track. */
  lemma InodeNumberInjective(t: int, u: int)
    ensures InodeNumber(t) == InodeNumber(u) <==> t == u
    ensures (InodeNumber(t) - 5) % 948 == 0 && ((InodeNumber(t) - 5) / 948 - 8) % 521 == 0
    ensures ((InodeNumber(t) - 5) / 948 - 8) / 521 == t
  {
    assert (InodeNumber(t) - 5) / 948 == t * 521 + 8;
  }
}
