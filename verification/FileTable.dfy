/** The table of open files of file/file.c, updated in place together with the o_files lists of the processes. */
module FileTables {
  import opened KernelState
  import opened Scheduling

  class OpenInode {
    const id: int
    var oCount: int

    constructor (id: int)
      ensures this.id == id && oCount == 0
    {
      this.id, oCount := id, 0;
    }
  }

  /** has_opened_file: whether the process lists the inode. */
  method HasOpened(process: Process, num: int) returns (found: bool)
    ensures found <==> num in process.oFiles
  {
    var i := 0;
    while i < |process.oFiles|
      invariant i <= |process.oFiles| && num !in process.oFiles[..i]
    {
      if process.oFiles[i] == num {
        return true;
      }
      i := i + 1;
    }
    found := false;
  }

  class FileTable {
    var inodes: seq<OpenInode>
    /** The active inodes as values. */
    ghost var contents: seq<Inode>

    ghost predicate Valid()
      reads this, inodes`oCount
    {
      && |contents| == |inodes|
      && (forall i {:trigger inodes[i]} | 0 <= i < |inodes| :: contents[i] == Inode(inodes[i].id, inodes[i].oCount))
      && forall i, j | 0 <= i < j < |inodes| :: inodes[i] != inodes[j]
    }

    /** The objects that its methods change. */
    ghost function Objects(): set<object>
      reads this`inodes
    {
      {this} + set i: OpenInode | i in inodes
    }

    constructor ()
      ensures Valid() && contents == [] && inodes == [] && fresh(Objects())
    {
      inodes, contents := [], [];
    }

    /** The place of the inode with that number; the length of the list if it is not active. */
    method FindInode(num: int) returns (at: nat)
      requires Valid()
      ensures at == InodeIndex(contents, num)
    {
      at := 0;
      while at < |inodes|
        invariant at <= |inodes| && forall i | 0 <= i < at :: contents[i].id != num
      {
        if inodes[at].id == num {
          FirstInode(contents, num, at);
          return;
        }
        at := at + 1;
      }
      FirstInode(contents, num, at);
    }

    /** A new inode, used by nobody yet, at the end of the list. */
    method OpenRequest(num: int)
      requires Valid()
      modifies this
      ensures Valid() && contents == old(contents) + [Inode(num, 0)]
      ensures |inodes| == |old(inodes)| + 1 && inodes[..|old(inodes)|] == old(inodes) && fresh(inodes[|old(inodes)|])
    {
      var inode := new OpenInode(num);
      inodes, contents := inodes + [inode], contents + [Inode(num, 0)];
    }

    /** fs_read_request and fs_write_request, which differ in the timestamps only. */
    method Request(process: Process, num: int)
      requires Valid()
      modifies this, inodes, process`oFiles
      ensures Valid() && process.oFiles == AccessList(old(process.oFiles), num)
      ensures contents == AccessInodes(old(contents), old(process.oFiles), num)
      ensures forall o | o in Objects() :: o in old(Objects()) || fresh(o)
      ensures inodes == old(inodes) || (|inodes| == |old(inodes)| + 1 && inodes[..|old(inodes)|] == old(inodes)
                                        && fresh(inodes[|old(inodes)|]))
    {
      var at := FindInode(num);
      if at == |inodes| {
        OpenRequest(num);
      }
      var listed := HasOpened(process, num);
      if !listed {
        process.oFiles := process.oFiles + [num];
        Count(inodes[at], 1, at);
      }
    }

    method Count(inode: OpenInode, delta: int, ghost at: nat)
      requires Valid() && at < |inodes| && inodes[at] == inode
      modifies this`contents, inode`oCount
      ensures Valid() && contents == old(contents)[at := Inode(old(contents)[at].id, old(contents)[at].count + delta)]
    {
      inode.oCount := inode.oCount + delta;
      contents := contents[at := Inode(inode.id, inode.oCount)];
    }

    method DropAt(at: nat)
      requires Valid() && at < |inodes|
      modifies this
      ensures Valid() && contents == old(contents)[..at] + old(contents)[at + 1..]
      ensures inodes == old(inodes)[..at] + old(inodes)[at + 1..]
    {
      inodes, contents := inodes[..at] + inodes[at + 1..], contents[..at] + contents[at + 1..];
    }

    /** One user less; the inode of nobody leaves the list. */
    method CloseRequest(num: int, ghost frame: set<OpenInode>)
      requires Valid() && forall n | n in inodes :: n in frame
      modifies this, frame
      ensures Valid() && contents == Close(old(contents), num)
      ensures forall n | n in inodes :: n in frame
    {
      var at := FindInode(num);
      if at < |inodes| {
        Count(inodes[at], -1, at);
        if inodes[at].oCount == 0 {
          DropAt(at);
        }
      }
    }

    /** The files of a finishing process are closed in the order of its list. */
    method CloseFiles(process: Process)
      requires Valid()
      modifies this, inodes
      ensures Valid() && contents == CloseAll(old(contents), process.oFiles) && Objects() <= old(Objects())
      ensures forall n | n in inodes :: n in old(inodes)
    {
      ghost var frame := set n | n in inodes;
      var files := process.oFiles;
      var i := 0;
      while i < |files|
        invariant i <= |files| && Valid()
        invariant forall n | n in inodes :: n in frame
        invariant CloseAll(contents, files[i..]) == CloseAll(old(contents), files)
      {
        CloseNext(contents, files, i);
        CloseRequest(files[i], frame);
        i := i + 1;
      }
    }
  }

  lemma CloseNext(inodes: seq<Inode>, files: seq<int>, i: nat)
    requires i < |files|
    ensures CloseAll(inodes, files[i..]) == CloseAll(Close(inodes, files[i]), files[i + 1..])
  {
    assert files[i..][0] == files[i] && files[i..][1..] == files[i + 1..];
  }

  lemma {:induction false} FirstInode(inodes: seq<Inode>, num: int, at: nat)
    requires at <= |inodes| && (forall i | 0 <= i < at :: inodes[i].id != num) && (at < |inodes| ==> inodes[at].id == num)
    ensures InodeIndex(inodes, num) == at
  {
    if at > 0 {
      FirstInode(inodes[1..], num, at - 1);
    }
  }
}
