/** POSIX path helpers (`os.path.basename`, `os.path.join`) and the file system
    queries the program makes, given as predicates over paths. */
module Paths {
  import opened Common

  const Sep: char := '/'

  /** What `os.path.exists`, `os.path.isdir` and `os.path.isfile` answer. */
  datatype FileSystem = FileSystem(
    pathExists: string -> bool,
    isDir: string -> bool,
    isFile: string -> bool)

  /** `os.path.basename(p)`: everything after the last separator. */
  function Basename(p: string): (b: string)
    ensures Sep !in b
    ensures |b| <= |p|
    ensures |b| < |p| ==> p[|p| - |b| - 1] == Sep
    decreases |p|
  {
    if p == [] || p[|p| - 1] == Sep then [] else Basename(p[..|p| - 1]) + [p[|p| - 1]]
  }

  /** The basename is the tail of the path. */
  lemma {:induction false} BasenameIsSuffix(p: string)
    ensures Basename(p) == p[|p| - |Basename(p)|..]
    decreases |p|
  {
    if p != [] && p[|p| - 1] != Sep {
      var init := p[..|p| - 1];
      BasenameIsSuffix(init);
      assert p[|p| - |Basename(p)|..] == init[|init| - |Basename(init)|..] + [p[|p| - 1]];
    }
  }

  /** `os.path.join(a, b)` for two components. */
  function Join(a: string, b: string): string {
    if StartsWith(b, [Sep]) then b
    else if a == [] || EndsWith(a, [Sep]) then a + b
    else a + [Sep] + b
  }

  /** The basename of a directory-like prefix followed by a separator-free name is that name. */
  lemma {:induction false} BasenameAfterSeparator(dir: string, name: string)
    requires dir == [] || dir[|dir| - 1] == Sep
    requires Sep !in name
    ensures Basename(dir + name) == name
    decreases |name|
  {
    if name == [] {
      assert dir + name == dir;
    } else {
      var init := name[..|name| - 1];
      assert (dir + name)[..|dir + name| - 1] == dir + init;
      BasenameAfterSeparator(dir, init);
      assert init + [name[|name| - 1]] == name;
    }
  }

  /** Joining a folder and a plain file name and then taking the basename gives
      back the file name: the name a document is listed under is the name it is
      looked up by on the provider. */
  lemma JoinThenBasename(folder: string, name: string)
    ensures Sep !in name ==> Basename(Join(folder, name)) == name
  {
    if Sep in name { return; }
    assert !StartsWith(name, [Sep]) by {
      if |name| >= 1 { assert name[0] in name; }
    }
    if folder == [] || EndsWith(folder, [Sep]) {
      if folder != [] {
        assert folder[|folder| - 1] == folder[|folder| - 1..][0];
      }
      BasenameAfterSeparator(folder, name);
    } else {
      assert folder + [Sep] + name == (folder + [Sep]) + name;
      BasenameAfterSeparator(folder + [Sep], name);
    }
  }

  /** A relative name is appended to the folder, with exactly one separator
      added when the folder does not already end in one. */
  lemma JoinRelative(folder: string, name: string)
    ensures !StartsWith(name, "/") ==>
      && (folder != [] && !EndsWith(folder, "/") ==> Join(folder, name) == folder + "/" + name)
      && (folder == [] || EndsWith(folder, "/") ==> Join(folder, name) == folder + name)
      && StartsWith(Join(folder, name), folder) && EndsWith(Join(folder, name), name)
  {
    if StartsWith(name, "/") { return; }
    var r := Join(folder, name);
    if folder == [] || EndsWith(folder, [Sep]) {
      assert r[..|folder|] == folder;
      assert r[|r| - |name|..] == name;
    } else {
      assert r == folder + ([Sep] + name);
      assert r[..|folder|] == folder;
      assert r[|r| - |name|..] == name;
    }
  }

  /** An absolute second component replaces the folder. */
  lemma JoinAbsolute(folder: string, name: string)
    requires StartsWith(name, "/")
    ensures Join(folder, name) == name
  {
  }

  /** The two paths of the document-path examples. */
  lemma JoinExamples()
    ensures Join("/test/path", "document.pdf") == "/test/path/document.pdf"
    ensures Join("/test/path", "subfolder/document.pdf") == "/test/path/subfolder/document.pdf"
  {
    assert "/test/path"[|"/test/path"| - 1..] != "/";
    assert "document.pdf"[..1] != "/";
    assert "subfolder/document.pdf"[..1] != "/";
  }
}
