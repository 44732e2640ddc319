/** The receive directory: names that lead to files, which an open handle may lead to as well. */
module Disk {
  import opened Bytes

  /** One object by whatever name or handle it is reached. */
  class StoredFile {
    var content: Bytes

    constructor ()
      ensures content == []
    {
      content := [];
    }
  }

  class ReceiveDirectory {
    var files: map<Bytes, StoredFile>
    ghost var contents: map<Bytes, Bytes>
    ghost var Repr: set<object>

    /** Every name leads to a file of its own, and `contents` is what they hold. */
    ghost predicate Valid()
      reads this, Repr
    {
      && this in Repr
      && (forall n :: n in files <==> n in contents)
      && (forall n :: n in files ==> files[n] in Repr && files[n].content == contents[n])
      && (forall m, n :: m in files && n in files && m != n ==> files[m] != files[n])
    }

    /** The handle leads to the file of that name. */
    ghost predicate LeadsTo(handle: StoredFile, name: Bytes)
      reads this
    {
      name in files && files[name] == handle
    }

    constructor ()
      ensures Valid() && contents == map[] && fresh(Repr)
    {
      files, contents := map[], map[];
      Repr := {this};
    }

    method Remove(name: Bytes)
      requires Valid()
      modifies this
      ensures Valid() && Repr == old(Repr) && contents == old(contents) - {name}
    {
      files := files - {name};
      contents := contents - {name};
    }

    /** Creates an empty file and opens it. */
    method Create(name: Bytes) returns (handle: StoredFile)
      requires Valid()
      modifies this
      ensures Valid() && fresh(Repr - old(Repr)) && contents == old(contents)[name := []]
      ensures LeadsTo(handle, name)
    {
      handle := new StoredFile();
      files := files[name := handle];
      contents := contents[name := []];
      Repr := Repr + {handle};
    }

    /** Appends through the handle as much as there is room for: what the name then leads to has grown. */
    method Write(handle: StoredFile, ghost name: Bytes, data: Bytes, room: nat) returns (written: nat)
      requires Valid() && LeadsTo(handle, name)
      modifies this, handle
      ensures Valid() && Repr == old(Repr) && LeadsTo(handle, name)
      ensures written == (if room < |data| then room else |data|)
      ensures contents == old(contents)[name := old(contents)[name] + data[..written]]
    {
      written := if room < |data| then room else |data|;
      handle.content := handle.content + data[..written];
      contents := contents[name := contents[name] + data[..written]];
    }

    /** The file goes on under the new name, if the system allows it and the name is free. */
    method Rename(name: Bytes, target: Bytes, allowed: bool) returns (renamed: bool)
      requires Valid() && name in contents && name != target
      modifies this
      ensures Valid() && Repr == old(Repr) && renamed == (allowed && target !in old(contents))
      ensures !renamed ==> files == old(files)
      ensures contents == if renamed then (old(contents) - {name})[target := old(contents)[name]] else old(contents)
    {
      if !allowed || target in files {
        return false;
      }
      files := (files - {name})[target := files[name]];
      contents := (contents - {name})[target := contents[name]];
      return true;
    }
  }
}
