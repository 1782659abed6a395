// A directory tree reached through descriptors, on a file system that tells names apart
// exactly or case aside, and whose calls may fail.
module DirectoryTree {
  import opened Prelude
  import opened Bytes
  import opened Faults

  datatype Object = Folder | File(bytes: Str)

  datatype Errno = Exist | NotDirectory | Fault

  type Path = seq<Str>

  class Tree {
    const foldsCase: bool
    // Everything below the root, by its path as it was spelled at creation.
    var nodes: map<Path, Object>
    // Whether each of the coming calls fails.
    var faults: seq<bool>

    constructor (foldsCase: bool, nodes: map<Path, Object>, faults: seq<bool>)
      ensures this.foldsCase == foldsCase && this.nodes == nodes && this.faults == faults
    {
      this.foldsCase, this.nodes, this.faults := foldsCase, nodes, faults;
    }

    predicate IsFolder(p: Path)
      reads this`nodes
    {
      p == [] || (p in nodes && nodes[p].Folder?)
    }

    predicate SameName(a: Str, b: Str) { if foldsCase then Lower(a) == Lower(b) else a == b }

    // What answers to the name `c` in the directory `parent`.
    function Answers(parent: Path, c: Str): set<Path>
      reads this`nodes
    {
      set q | q in nodes && |q| == |parent| + 1 && q[..|parent|] == parent && SameName(q[|parent|], c)
    }

    method Fails() returns (failed: bool)
      modifies this`faults
      ensures failed ==> !Calm(old(faults))
      ensures Calm(old(faults)) ==> Calm(faults)
    {
      failed, faults := NextCall(faults);
    }

    // `mkdirat`.
    method MkdirAt(parent: Path, c: Str) returns (r: Option<Errno>)
      requires IsFolder(parent)
      modifies this
      ensures Calm(old(faults)) ==> Calm(faults)
      ensures r == Some(Fault) ==> !Calm(old(faults))
      ensures r == Some(Exist) ==> old(Answers(parent, c)) != {}
      ensures r.None? ==> old(Answers(parent, c)) == {} && nodes == old(nodes)[parent + [c] := Folder]
      ensures r.Some? ==> nodes == old(nodes) && !r.value.NotDirectory?
    {
      var failed := Fails();
      if failed { return Some(Fault); }
      if Answers(parent, c) != {} { return Some(Exist); }
      nodes := nodes[parent + [c] := Folder];
      return None;
    }

    // `openat` of a directory, not following links.
    method OpenDirectoryAt(parent: Path, c: Str) returns (r: Result<Path, Errno>)
      requires IsFolder(parent) && Answers(parent, c) != {}
      modifies this`faults
      ensures Calm(old(faults)) ==> Calm(faults)
      ensures r == Err(Fault) ==> !Calm(old(faults))
      ensures r.Ok? ==> r.value in Answers(parent, c) && IsFolder(r.value)
      ensures r.Err? && !r.error.Fault? ==> exists q | q in Answers(parent, c) :: !IsFolder(q)
    {
      var failed := Fails();
      if failed { return Err(Fault); }
      var q :| q in Answers(parent, c);
      return if nodes[q].Folder? then Ok(q) else Err(NotDirectory);
    }

    // `openat` with CREATE and EXCL, then `write_all` and `sync_all`.
    method WriteNewFileAt(parent: Path, c: Str, bytes: Str) returns (r: Option<Errno>)
      requires IsFolder(parent)
      modifies this
      ensures Calm(old(faults)) ==> Calm(faults)
      ensures r == Some(Fault) ==> !Calm(old(faults))
      ensures r == Some(Exist) ==> old(Answers(parent, c)) != {}
      ensures r.Some? ==> !r.value.NotDirectory?
      ensures r.None? ==> old(Answers(parent, c)) == {} && nodes == old(nodes)[parent + [c] := File(bytes)]
    {
      var failed := Fails();
      if failed { return Some(Fault); }
      if Answers(parent, c) != {} { return Some(Exist); }
      nodes := nodes[parent + [c] := File([])];
      failed := Fails();
      if failed {
        var part: nat :| part <= |bytes|;
        nodes := nodes[parent + [c] := File(bytes[..part])];
        return Some(Fault);
      }
      nodes := nodes[parent + [c] := File(bytes)];
      failed := Fails();
      return if failed then Some(Fault) else None;
    }
  }
}
