/** src/openai_client.py: the assistant-based client. It indexes the provider's
    files by name, merges in local file names, groups file ids into a vector
    store, polls a run until it ends, and picks the assistant's answer out of
    the thread's messages. */
module AssistantClient {
  import opened Common
  import opened RemoteFiles
  import opened Provider

  /** Filename to id, built entry by entry: a later entry overwrites an
      earlier one with the same name. */
  function FileMap(files: seq<FileObject>): map<string, string> {
    if files == [] then map[]
    else FileMap(files[..|files| - 1])[files[|files| - 1].filename := files[|files| - 1].id]
  }

  /** Entry `i` is the last one in `files` named `name`. */
  predicate IsLastMatch(files: seq<FileObject>, name: string, i: int) {
    0 <= i < |files| && files[i].filename == name &&
    forall j :: i < j < |files| ==> files[j].filename != name
  }

  /** Every listed name is a key and nothing else is. */
  lemma {:induction false} FileMapKeys(files: seq<FileObject>)
    ensures FileMap(files).Keys == set f | f in files :: f.filename
  {
    if files != [] {
      var init := files[..|files| - 1];
      FileMapKeys(init);
      assert files == init + [files[|files| - 1]];
    }
  }

  /** A duplicated name maps to the id of its last entry in list order. */
  lemma {:induction false} FileMapLastWins(files: seq<FileObject>, name: string, i: int)
    requires IsLastMatch(files, name, i)
    ensures name in FileMap(files) && FileMap(files)[name] == files[i].id
  {
    var n := |files|;
    if i < n - 1 {
      var init := files[..n - 1];
      assert IsLastMatch(init, name, i);
      FileMapLastWins(init, name, i);
    }
  }

  /** A message of a thread: its role and the text of each content block. */
  datatype ThreadMessage = ThreadMessage(role: string, texts: seq<string>)

  const NoResponse := "No response from assistant."
  const EmptyFileIdsMessage := "Empty file_id list"

  /** `msg.content[0].text.value` */
  function FirstText(msg: ThreadMessage): Result<string, Error> {
    if msg.texts == [] then Failure(IndexError) else Success(msg.texts[0])
  }

  /** Message `i` is the assistant's, and no later message in the list is. */
  predicate IsLastAssistant(messages: seq<ThreadMessage>, i: int) {
    0 <= i < |messages| && messages[i].role == "assistant" &&
    forall j :: i < j < |messages| ==> messages[j].role != "assistant"
  }

  /** `messages[::-1]` */
  function Reverse<T>(s: seq<T>): (r: seq<T>)
    ensures |r| == |s| && forall k :: 0 <= k < |s| ==> r[k] == s[|s| - 1 - k]
  {
    seq(|s|, k requires 0 <= k < |s| => s[|s| - 1 - k])
  }

  /** Statuses after which `wait_for_run` raises. */
  const FailureStatuses := ["failed", "expired", "cancelled"]

  predicate IsTerminal(status: string) {
    status == "completed" || status in FailureStatuses
  }

  /** How waiting for a run ends: it completed, it raised, or the observed
      statuses ran out while it was still in progress. */
  datatype RunWait = Completed | Raised(error: Error) | Unfinished

  class OpenAIClient {
    const apiKey: string
    const model: string
    const client: OpenAI

    /** `__init__` once the key is resolved (ResolveApiKey rejects a missing one). */
    constructor (apiKey: string, model: string, client: OpenAI)
      requires apiKey != ""
      ensures this.apiKey == apiKey && this.model == model && this.client == client
    {
      this.apiKey := apiKey;
      this.model := model;
      this.client := client;
    }

    /** `_get_files_open_ai`: the listing as a dictionary from filename to id. */
    method GetFilesOpenAi() returns (fileDict: map<string, string>)
      ensures fileDict == FileMap(client.files)
      ensures fileDict.Keys == set f | f in client.files :: f.filename
    {
      var files := client.ListFiles();
      fileDict := map[];
      for i := 0 to |files|
        invariant fileDict == FileMap(files[..i])
      {
        assert files[..i + 1][..i] == files[..i];
        fileDict := fileDict[files[i].filename := files[i].id];
      }
      assert files[..|files|] == files;
      FileMapKeys(files);
    }

    /** `get_all_files`: the provider's names with their ids, plus every local
        name that is not on the provider, mapped to "". */
    method GetAllFiles(localFiles: seq<string>) returns (files: map<string, string>)
      ensures var remote := FileMap(client.files);
        && files.Keys == remote.Keys + (set n | n in localFiles)
        && (forall n :: n in remote ==> files[n] == remote[n])
        && (forall n :: n in files && n !in remote ==> files[n] == "")
    {
      var remote := GetFilesOpenAi();
      files := remote;
      for i := 0 to |localFiles|
        invariant files.Keys == remote.Keys + (set n | n in localFiles[..i])
        invariant forall n :: n in remote ==> files[n] == remote[n]
        invariant forall n :: n in files && n !in remote ==> files[n] == ""
      {
        assert localFiles[..i + 1] == localFiles[..i] + [localFiles[i]];
        var file := localFiles[i];
        if file !in files {
          files := files[file := ""];
        }
      }
      assert localFiles[..|localFiles|] == localFiles;
    }

    /** `create_vector_store_batch`: an empty id list raises before any store
        is created; otherwise one store holding the ids is created and its id
        returned. */
    method CreateVectorStoreBatch(fileIdList: seq<string>, assignedId: string) returns (r: Result<string, Error>)
      modifies client
      ensures |fileIdList| == 0 ==>
        r == Failure(AssertionError(EmptyFileIdsMessage)) && client.vectorStores == old(client.vectorStores)
      ensures |fileIdList| > 0 ==>
        r == Success(assignedId) && client.vectorStores == old(client.vectorStores) + [fileIdList]
      ensures client.files == old(client.files) && client.uploads == old(client.uploads)
      ensures client.requests == old(client.requests)
    {
      if |fileIdList| > 0 {
        var id := client.CreateVectorStore(fileIdList, assignedId);
        return Success(id);
      }
      r := Failure(AssertionError(EmptyFileIdsMessage));
    }

    /** `wait_for_run`, where poll `k` observes `statuses[k]`: it stops at the
        first terminal status after exactly that many polls, returning only on
        "completed" and raising with the status otherwise; while no terminal
        status is observed it keeps polling. */
    method WaitForRun(statuses: seq<string>) returns (outcome: RunWait, polls: nat)
      ensures polls <= |statuses|
      ensures forall k :: 0 <= k < polls - 1 ==> !IsTerminal(statuses[k])
      ensures outcome == Unfinished <==> polls == |statuses| && (polls == 0 || !IsTerminal(statuses[polls - 1]))
      ensures outcome == Completed <==> polls > 0 && statuses[polls - 1] == "completed"
      ensures outcome.Raised? <==> polls > 0 && statuses[polls - 1] in FailureStatuses
      ensures outcome.Raised? ==> outcome.error == RunFailed(statuses[polls - 1])
    {
      polls := 0;
      while polls < |statuses|
        invariant polls <= |statuses|
        invariant forall k :: 0 <= k < polls ==> !IsTerminal(statuses[k])
      {
        var status := statuses[polls];
        polls := polls + 1;
        if status == "completed" {
          return Completed, polls;
        } else if status in FailureStatuses {
          return Raised(RunFailed(status)), polls;
        }
        // time.sleep(1)
      }
      outcome := Unfinished;
    }

    /** `get_thread_response`: the first text of the first assistant message
        in the reversed list, i.e. of the last assistant message of the list
        as returned, or the fallback text when no message is the assistant's. */
    method GetThreadResponse(messages: seq<ThreadMessage>) returns (r: Result<string, Error>)
      ensures (forall i :: 0 <= i < |messages| ==> messages[i].role != "assistant") ==> r == Success(NoResponse)
      ensures forall i :: IsLastAssistant(messages, i) ==> r == FirstText(messages[i])
      ensures (exists i :: 0 <= i < |messages| && messages[i].role == "assistant") ==>
        exists i :: IsLastAssistant(messages, i) && r == FirstText(messages[i])
    {
      var reversed := Reverse(messages);
      for k := 0 to |reversed|
        invariant forall j :: |messages| - k <= j < |messages| ==> messages[j].role != "assistant"
      {
        var msg := reversed[k];
        if msg.role == "assistant" {
          assert IsLastAssistant(messages, |messages| - 1 - k);
          return FirstText(msg);
        }
      }
      r := Success(NoResponse);
    }
  }
}
