/** hp_ai/openai_client.py: the earlier OpenAI client. It registers documents
    by name exactly as hp_ai/api.py does, but `generate` sends the prompt
    unmodified, in a single user turn, with no forced function. */
module ChatClient {
  import opened Common
  import opened Paths
  import opened RemoteFiles
  import opened Chat
  import opened Provider

  const EmptyPromptMessage := "Prompt cannot be empty"

  /** `messages` in `generate`: the user turn alone. */
  function PlainMessages(ids: seq<string>, prompt: string): seq<Message> {
    [Message("user", Blocks(UserContent(ids, prompt)))]
  }

  /** There is no system turn: the one turn is the user's, with one file block
      per id in list order and a final text block holding the prompt as given. */
  lemma PlainMessagesShape(ids: seq<string>, prompt: string)
    ensures var m := PlainMessages(ids, prompt);
      |m| == 1 && m[0].role == "user" && m[0].content.Blocks? &&
      |m[0].content.blocks| == |ids| + 1 &&
      (forall i :: 0 <= i < |ids| ==> m[0].content.blocks[i] == FileBlock(ids[i])) &&
      m[0].content.blocks[|ids|] == TextBlock(prompt) &&
      FileIdsOf(m[0].content.blocks) == ids
  {
    UserContentShape(ids, prompt);
    UserContentRoundTrip(ids, prompt);
  }

  class OpenAIClient {
    const apiKey: string
    const model: string
    const client: OpenAI
    var fileIdList: seq<string>

    /** `__init__` once the key is resolved (ResolveApiKey rejects a missing one). */
    constructor (apiKey: string, model: string, client: OpenAI)
      requires apiKey != ""
      ensures this.apiKey == apiKey && this.model == model && this.client == client
      ensures fileIdList == []
    {
      this.apiKey := apiKey;
      this.model := model;
      this.client := client;
      fileIdList := [];
    }

    /** `get_file_id`: the id of the first listed file with this name, or None. */
    method GetFileId(filename: string) returns (r: Option<string>)
      ensures r == Lookup(client.files, filename)
      ensures r == None <==> forall i :: 0 <= i < |client.files| ==> client.files[i].filename != filename
      ensures r.Some? ==> exists i :: IsFirstMatch(client.files, filename, i) && client.files[i].id == r.value
    {
      var files := client.ListFiles();
      r := FindFileId(files, filename);
    }

    /** `add_file`: upload exactly when no listed file has the basename (the
        upload fails when no file exists at the path), otherwise reuse the
        listed id; on success the old `file_id_list` is a prefix of the new
        one, which is one id longer. */
    method AddFile(path: string, fileExists: bool, assignedId: string) returns (r: Result<(), Error>)
      modifies this`fileIdList, client
      ensures var found := Lookup(old(client.files), Basename(path));
        && (found.Some? ==>
              r.Success? && fileIdList == old(fileIdList) + [found.value] &&
              client.files == old(client.files) && client.uploads == old(client.uploads))
        && (found.None? && fileExists ==>
              r.Success? && fileIdList == old(fileIdList) + [assignedId] &&
              client.files == old(client.files) + [FileObject(Basename(path), assignedId)] &&
              client.uploads == old(client.uploads) + 1)
        && (found.None? && !fileExists ==>
              r == Failure(FileNotFoundError(NoSuchFileMessage(path))) &&
              fileIdList == old(fileIdList) &&
              client.files == old(client.files) && client.uploads == old(client.uploads))
      ensures client.requests == old(client.requests) && client.vectorStores == old(client.vectorStores)
      ensures r.Success? ==> Lookup(client.files, Basename(path)) == Some(fileIdList[|fileIdList| - 1])
    {
      var name := Basename(path);
      var fileId := GetFileId(name);
      if fileId.None? {
        if !fileExists {
          return Failure(FileNotFoundError(NoSuchFileMessage(path)));
        }
        LookupAppend(client.files, FileObject(name, assignedId), name);
        var id := client.CreateFile(name, assignedId);
        fileId := Some(id);
      }
      fileIdList := fileIdList + [fileId.value];
      r := Success(());
    }

    /** `generate`: reject the empty prompt before anything is sent; otherwise
        send one request whose only turn is the user's and answer with the
        provider's reply. `file_id_list` is only read. */
    method Generate(prompt: string, reply: string) returns (r: Result<string, Error>)
      modifies client
      ensures fileIdList == old(fileIdList)
      ensures prompt == "" ==> r == Failure(ValueError(EmptyPromptMessage)) && client.requests == old(client.requests)
      ensures prompt != "" ==>
        r == Success(reply) &&
        client.requests == old(client.requests) + [ChatRequest(model, PlainMessages(fileIdList, prompt), None)]
      ensures client.files == old(client.files) && client.uploads == old(client.uploads)
      ensures client.vectorStores == old(client.vectorStores)
    {
      if prompt == "" {
        return Failure(ValueError(EmptyPromptMessage));
      }
      var content := BuildUserContent(fileIdList, prompt);
      var messages := [Message("user", Blocks(content))];
      var answer := client.CreateChatCompletion(ChatRequest(model, messages, None), reply);
      r := Success(answer);
    }
  }
}
