/** The provider's file listing and the by-name search both OpenAI clients run
    over it before deciding whether a document has to be uploaded. */
module RemoteFiles {
  import opened Common

  /** One entry of `files.list().data`: the uploaded name and the provider's id. */
  datatype FileObject = FileObject(filename: string, id: string)

  /** Entry `i` is the first one in `files` named `name`. */
  predicate IsFirstMatch(files: seq<FileObject>, name: string, i: int) {
    0 <= i < |files| && files[i].filename == name &&
    forall j :: 0 <= j < i ==> files[j].filename != name
  }

  /** The id of the first listed entry named `name`, if there is one. */
  function Lookup(files: seq<FileObject>, name: string): Option<string> {
    if files == [] then None
    else if files[0].filename == name then Some(files[0].id)
    else Lookup(files[1..], name)
  }

  /** Lookup misses exactly when no entry carries the name, and otherwise
      answers with the id of the first entry that does. */
  lemma {:induction false} LookupIsFirstMatch(files: seq<FileObject>, name: string)
    ensures Lookup(files, name) == None <==> forall i :: 0 <= i < |files| ==> files[i].filename != name
    ensures forall i :: IsFirstMatch(files, name, i) ==> Lookup(files, name) == Some(files[i].id)
  {
    if files != [] {
      LookupIsFirstMatch(files[1..], name);
      if files[0].filename != name {
        forall i | IsFirstMatch(files, name, i)
          ensures Lookup(files, name) == Some(files[i].id)
        {
          assert IsFirstMatch(files[1..], name, i - 1);
        }
        if Lookup(files, name) == None {
          forall i | 0 <= i < |files| ensures files[i].filename != name {
            if i > 0 { assert files[i] == files[1..][i - 1]; }
          }
        }
      }
    }
  }

  /** Adding an entry at the end of the listing never changes an existing
      match, and makes a name that was missing resolve to the new entry. */
  lemma {:induction false} LookupAppend(files: seq<FileObject>, f: FileObject, name: string)
    ensures Lookup(files + [f], name) ==
      if Lookup(files, name).Some? then Lookup(files, name)
      else if f.filename == name then Some(f.id)
      else None
  {
    if files == [] {
      assert files + [f] == [f];
    } else {
      assert (files + [f])[1..] == files[1..] + [f];
      LookupAppend(files[1..], f, name);
    }
  }

  /** `get_file_id`'s scan: walk the listing in order and return the id of
      the first entry whose name equals `name`, or None. */
  method FindFileId(files: seq<FileObject>, name: string) returns (r: Option<string>)
    ensures r == Lookup(files, name)
    ensures r == None <==> forall i :: 0 <= i < |files| ==> files[i].filename != name
    ensures r.Some? ==> exists i :: IsFirstMatch(files, name, i) && files[i].id == r.value
  {
    for i := 0 to |files|
      invariant forall j :: 0 <= j < i ==> files[j].filename != name
      invariant Lookup(files, name) == Lookup(files[i..], name)
    {
      if files[i].filename == name {
        assert IsFirstMatch(files, name, i);
        assert files[i..][0] == files[i];
        return Some(files[i].id);
      }
      assert files[i..][1..] == files[i + 1..];
    }
    assert files[|files|..] == [];
    return None;
  }
}
