/** The LLM provider as the clients see it through the SDK: an account whose
    file listing grows by one entry per upload, and which records every chat
    request and vector store it is asked for. The ids it assigns and the replies
    it gives are inputs of the model. */
module Provider {
  import opened Common
  import opened RemoteFiles
  import opened Chat

  const DefaultModel := "gpt-4o-mini"

  /** `api_key or os.getenv("OPENAI_API_KEY")`, rejected when still missing or empty. */
  function ResolveApiKey(apiKey: Option<string>, envKey: Option<string>): (r: Result<string, Error>)
    ensures r.Success? <==> Truthy(apiKey) || Truthy(envKey)
    ensures r.Success? ==> r.value != "" && r.value == (if Truthy(apiKey) then apiKey.value else envKey.value)
    ensures r.Failure? ==> r.error == ValueError("OpenAI API key is required")
  {
    var key := if Truthy(apiKey) then apiKey else envKey;
    if Truthy(key) then Success(key.value) else Failure(ValueError("OpenAI API key is required"))
  }

  /** `model or os.getenv("MODEL_NAME", "gpt-4o-mini")`. */
  function ResolveModel(model: Option<string>, envModel: Option<string>): (r: string)
    ensures Truthy(model) ==> r == model.value
    ensures !Truthy(model) && envModel.Some? ==> r == envModel.value
    ensures !Truthy(model) && envModel.None? ==> r == DefaultModel
  {
    if Truthy(model) then model.value else if envModel.Some? then envModel.value else DefaultModel
  }

  /** The SDK client object (`OpenAI(api_key=...)`) and the account behind it. */
  class OpenAI {
    var files: seq<FileObject>           // what `files.list().data` returns
    var uploads: nat                     // number of `files.create` calls made
    var requests: seq<ChatRequest>       // `chat.completions.create` calls, in order
    var vectorStores: seq<seq<string>>   // `vector_stores.create` calls: the file ids of each

    constructor (listing: seq<FileObject>)
      ensures files == listing && uploads == 0 && requests == [] && vectorStores == []
    {
      files, uploads, requests, vectorStores := listing, 0, [], [];
    }

    /** `files.list().data` */
    method ListFiles() returns (data: seq<FileObject>)
      ensures data == files
    {
      data := files;
    }

    /** `files.create(...)`: the provider stores the file under `filename`
        with the id it assigns, and returns that id. */
    method CreateFile(filename: string, assignedId: string) returns (id: string)
      modifies this
      ensures id == assignedId
      ensures files == old(files) + [FileObject(filename, assignedId)] && uploads == old(uploads) + 1
      ensures requests == old(requests) && vectorStores == old(vectorStores)
    {
      files := files + [FileObject(filename, assignedId)];
      uploads := uploads + 1;
      id := assignedId;
    }

    /** `chat.completions.create(...)`: records the request and answers `reply`. */
    method CreateChatCompletion(request: ChatRequest, reply: string) returns (answer: string)
      modifies this
      ensures answer == reply && requests == old(requests) + [request]
      ensures files == old(files) && uploads == old(uploads) && vectorStores == old(vectorStores)
    {
      requests := requests + [request];
      answer := reply;
    }

    /** `vector_stores.create(file_ids=...)`: records the store and returns the id it assigns. */
    method CreateVectorStore(fileIds: seq<string>, assignedId: string) returns (id: string)
      modifies this
      ensures id == assignedId && vectorStores == old(vectorStores) + [fileIds]
      ensures files == old(files) && uploads == old(uploads) && requests == old(requests)
    {
      vectorStores := vectorStores + [fileIds];
      id := assignedId;
    }
  }
}
