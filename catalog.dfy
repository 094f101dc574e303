/** src/hp_ai/io.py: the prompt catalog (named prompt texts loaded from the
    prompt file) and the document catalog (the supported files of a folder). */
module Catalog {
  import opened Common
  import opened Paths

  /** One entry of the loaded prompt table. */
  datatype Prompt = Prompt(name: string, text: string)

  /** A loaded table never holds two entries with the same name. */
  predicate UniqueNames(prompts: seq<Prompt>) {
    forall i, j :: 0 <= i < j < |prompts| ==> prompts[i].name != prompts[j].name
  }

  /** `list(self.prompts.keys())` */
  function Names(prompts: seq<Prompt>): seq<string> {
    if prompts == [] then [] else [prompts[0].name] + Names(prompts[1..])
  }

  /** `self.prompts[name]` */
  function Find(prompts: seq<Prompt>, name: string): Result<string, Error> {
    if prompts == [] then Failure(KeyError(name))
    else if prompts[0].name == name then Success(prompts[0].text)
    else Find(prompts[1..], name)
  }

  /** The names are the table's keys, in table order, each listed once. */
  lemma {:induction false} NamesAreKeys(prompts: seq<Prompt>)
    ensures |Names(prompts)| == |prompts|
    ensures forall i :: 0 <= i < |prompts| ==> Names(prompts)[i] == prompts[i].name
    ensures UniqueNames(prompts) ==>
      forall i, j :: 0 <= i < j < |prompts| ==> Names(prompts)[i] != Names(prompts)[j]
  {
    if prompts != [] {
      NamesAreKeys(prompts[1..]);
    }
  }

  /** A name that is a key yields its text unchanged; any other name is a KeyError. */
  lemma {:induction false} FindMeaning(prompts: seq<Prompt>, name: string)
    requires UniqueNames(prompts)
    ensures forall i :: 0 <= i < |prompts| && prompts[i].name == name ==> Find(prompts, name) == Success(prompts[i].text)
    ensures (forall i :: 0 <= i < |prompts| ==> prompts[i].name != name) ==> Find(prompts, name) == Failure(KeyError(name))
  {
    if prompts != [] {
      var rest := prompts[1..];
      assert UniqueNames(rest) by {
        forall i, j | 0 <= i < j < |rest| ensures rest[i].name != rest[j].name {
          assert rest[i] == prompts[i + 1] && rest[j] == prompts[j + 1];
        }
      }
      FindMeaning(rest, name);
      forall i | 0 <= i < |prompts| && prompts[i].name == name
        ensures Find(prompts, name) == Success(prompts[i].text)
      {
        if i > 0 { assert rest[i - 1] == prompts[i]; }
      }
      if forall i :: 0 <= i < |prompts| ==> prompts[i].name != name {
        assert forall i :: 0 <= i < |rest| ==> rest[i] == prompts[i + 1];
      }
    }
  }

  /** A name that no entry carries is a KeyError, whether or not the names are unique. */
  lemma {:induction false} FindMissing(prompts: seq<Prompt>, name: string)
    ensures (forall i :: 0 <= i < |prompts| ==> prompts[i].name != name) ==> Find(prompts, name) == Failure(KeyError(name))
  {
    if prompts != [] && prompts[0].name != name {
      var rest := prompts[1..];
      FindMissing(rest, name);
      if forall i :: 0 <= i < |prompts| ==> prompts[i].name != name {
        assert forall i :: 0 <= i < |rest| ==> rest[i] == prompts[i + 1];
      }
    }
  }

  /** Every name offered for selection can be looked up. */
  lemma ListedNamesResolve(prompts: seq<Prompt>, name: string)
    requires UniqueNames(prompts)
    ensures name in Names(prompts) ==> Find(prompts, name).Success?
  {
    if name in Names(prompts) {
      NamesAreKeys(prompts);
      var i :| 0 <= i < |Names(prompts)| && Names(prompts)[i] == name;
      FindMeaning(prompts, name);
    }
  }

  /** The prompt table {"a": "Summarize", "b": "Quiz me"}: selecting "b" gives "Quiz me". */
  lemma PromptSelectionExample()
    ensures Names([Prompt("a", "Summarize"), Prompt("b", "Quiz me")]) == ["a", "b"]
    ensures Find([Prompt("a", "Summarize"), Prompt("b", "Quiz me")], "b") == Success("Quiz me")
  {
  }

  class PromptManager {
    const promptFile: string
    const prompts: seq<Prompt>

    /** A decoded table has one entry per key. */
    predicate Valid() {
      UniqueNames(prompts)
    }

    /** `__init__` with the table the prompt file decodes to. */
    constructor (promptFile: string, loaded: seq<Prompt>)
      requires UniqueNames(loaded)
      ensures Valid()
      ensures this.promptFile == promptFile && prompts == loaded
    {
      this.promptFile := promptFile;
      prompts := loaded;
    }

    /** `get_prompt_names`: the keys of the table, in table order, each once. */
    function GetPromptNames(): (names: seq<string>)
      ensures |names| == |prompts|
      ensures forall i :: 0 <= i < |prompts| ==> names[i] == prompts[i].name
      ensures Valid() ==> forall i, j :: 0 <= i < j < |names| ==> names[i] != names[j]
    {
      NamesAreKeys(prompts);
      Names(prompts)
    }

    /** `get_prompt`: the text stored under the name, or KeyError when the
        name is not a key. */
    function GetPrompt(name: string): (r: Result<string, Error>)
      ensures Valid() ==> forall i :: 0 <= i < |prompts| && prompts[i].name == name ==> r == Success(prompts[i].text)
      ensures (forall i :: 0 <= i < |prompts| ==> prompts[i].name != name) ==> r == Failure(KeyError(name))
      ensures Valid() && name in GetPromptNames() ==> r.Success?
    {
      FindMissing(prompts, name);
      if Valid() then
        FindMeaning(prompts, name);
        ListedNamesResolve(prompts, name);
        Find(prompts, name)
      else
        Find(prompts, name)
    }
  }

  const SupportedExtensions := [".pdf", ".txt"]

  /** `filename.endswith(tuple(self.supported_extensions))` */
  predicate HasSupportedExtension(filename: string) {
    exists e | e in SupportedExtensions :: EndsWith(filename, e)
  }

  /** An entry of the folder listing is kept when its path is a regular file
      and its name has a supported extension. */
  predicate IsDocument(folder: string, isFile: string -> bool, filename: string) {
    isFile(Join(folder, filename)) && HasSupportedExtension(filename)
  }

  /** The kept entries of a listing, in listing order. */
  function Documents(folder: string, isFile: string -> bool, listing: seq<string>): seq<string> {
    if listing == [] then []
    else
      var last := listing[|listing| - 1];
      Documents(folder, isFile, listing[..|listing| - 1]) + (if IsDocument(folder, isFile, last) then [last] else [])
  }

  /** `sub` can be obtained from `s` by deleting elements. */
  predicate IsSubsequence<T(==)>(sub: seq<T>, s: seq<T>)
    decreases |s|
  {
    if s == [] then sub == []
    else
      || (sub != [] && sub[|sub| - 1] == s[|s| - 1] && IsSubsequence(sub[..|sub| - 1], s[..|s| - 1]))
      || IsSubsequence(sub, s[..|s| - 1])
  }

  /** A name is a document exactly when it is in the listing and passes the
      file and extension checks. */
  lemma {:induction false} DocumentsMembership(folder: string, isFile: string -> bool, listing: seq<string>)
    ensures forall f :: f in Documents(folder, isFile, listing) <==> f in listing && IsDocument(folder, isFile, f)
  {
    if listing != [] {
      var init := listing[..|listing| - 1];
      DocumentsMembership(folder, isFile, init);
      assert listing == init + [listing[|listing| - 1]];
    }
  }

  /** The documents keep the order of the listing. */
  lemma {:induction false} DocumentsInListingOrder(folder: string, isFile: string -> bool, listing: seq<string>)
    ensures IsSubsequence(Documents(folder, isFile, listing), listing)
  {
    if listing != [] {
      var init := listing[..|listing| - 1];
      var last := listing[|listing| - 1];
      DocumentsInListingOrder(folder, isFile, init);
      var d := Documents(folder, isFile, listing);
      if IsDocument(folder, isFile, last) {
        assert d[..|d| - 1] == Documents(folder, isFile, init);
      } else {
        assert d == Documents(folder, isFile, init);
      }
    }
  }

  class DocumentManager {
    const docFolder: string

    constructor (docFolder: string)
      ensures this.docFolder == docFolder
    {
      this.docFolder := docFolder;
    }

    /** `get_documents`, given what `os.listdir` returns for the folder (None
        when no folder exists at the path) and `os.path.isfile`. */
    method GetDocuments(listing: Option<seq<string>>, isFile: string -> bool) returns (r: Result<seq<string>, Error>)
      ensures listing.None? ==> r == Failure(FileNotFoundError(NoSuchFileMessage(docFolder)))
      ensures listing.Some? ==> r == Success(Documents(docFolder, isFile, listing.value))
      ensures listing == Some([]) ==> r == Success([])
    {
      if listing.None? {
        return Failure(FileNotFoundError(NoSuchFileMessage(docFolder)));
      }
      var names := listing.value;
      var documents := [];
      for i := 0 to |names|
        invariant documents == Documents(docFolder, isFile, names[..i])
      {
        assert names[..i + 1][..i] == names[..i];
        var filename := names[i];
        var filePath := Join(docFolder, filename);
        if isFile(filePath) && (EndsWith(filename, ".pdf") || EndsWith(filename, ".txt")) {
          documents := documents + [filename];
        }
      }
      assert names[..|names|] == names;
      r := Success(documents);
    }

    /** `get_document_path`: a relative name is placed under the folder, and
        a plain file name is the basename of the path it gives. */
    function GetDocumentPath(filename: string): (path: string)
      ensures !StartsWith(filename, "/") ==> StartsWith(path, docFolder) && EndsWith(path, filename)
      ensures Sep !in filename ==> Basename(path) == filename
    {
      JoinRelative(docFolder, filename);
      JoinThenBasename(docFolder, filename);
      Join(docFolder, filename)
    }
  }

  /** A folder holding quiz.pdf and notes.txt (both regular files) lists both,
      in directory order; a sub-directory and an unsupported file are skipped. */
  lemma DocumentsExample(folder: string, isFile: string -> bool)
    requires isFile(Join(folder, "quiz.pdf")) && isFile(Join(folder, "notes.txt"))
    requires !isFile(Join(folder, "subdir.pdf"))
    ensures Documents(folder, isFile, ["quiz.pdf", "subdir.pdf", "notes.txt", "image.png"]) == ["quiz.pdf", "notes.txt"]
  {
    assert HasSupportedExtension("quiz.pdf") by { assert EndsWith("quiz.pdf", ".pdf"); }
    assert HasSupportedExtension("notes.txt") by { assert EndsWith("notes.txt", ".txt"); }
    assert !HasSupportedExtension("image.png") by {
      assert !EndsWith("image.png", ".pdf");
      assert !EndsWith("image.png", ".txt");
    }
    var l := ["quiz.pdf", "subdir.pdf", "notes.txt", "image.png"];
    assert l[..1][..0] == [];
    assert Documents(folder, isFile, l[..1]) == ["quiz.pdf"];
    assert l[..2][..1] == l[..1];
    assert Documents(folder, isFile, l[..2]) == ["quiz.pdf"];
    assert l[..3][..2] == l[..2];
    assert Documents(folder, isFile, l[..3]) == ["quiz.pdf", "notes.txt"];
    assert l[..3] == l[..|l| - 1];
  }
}
