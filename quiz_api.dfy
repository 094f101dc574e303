/** hp_ai/api.py: the OpenAI client that registers documents by name and asks
    for a quiz through the forced `create_quiz` function, and the client that
    publishes a quiz to the storage endpoint. */
module QuizApi {
  import opened Common
  import opened Paths
  import opened RemoteFiles
  import opened Chat
  import opened Provider

  const EmptyPromptMessage := "Prompt cannot be empty"
  /** The instruction appended to a prompt that does not mention JSON, written
      in three pieces around the word "JSON". */
  const JsonInstructionLead := "  Returnera svaret i giltigt "
  const JsonInstruction := JsonInstructionLead + "JSON" + "-format med hjälp av funktionen create_quiz. Kategorin ska vara 'ORD'."
  const SystemPrompt := "Du är en hjälpsam assistent som skapar quiz i JSON-format."
  const QuizFunction := "create_quiz"

  /** The prompt as sent: unchanged when its lower-cased form already mentions
      "json", otherwise followed by the instruction to answer in JSON. Either
      way the result mentions "json". */
  function WithJsonInstruction(prompt: string): (r: string)
    ensures Contains(Lower(prompt), "json") ==> r == prompt
    ensures !Contains(Lower(prompt), "json") ==> r == prompt + JsonInstruction
    ensures Contains(Lower(r), "json")
  {
    if Contains(Lower(prompt), "json") then prompt
    else
      var r := prompt + JsonInstruction;
      var k := |prompt| + |JsonInstructionLead|;
      assert r[k..k + 4] == "JSON";
      assert Lower(r)[k..k + 4] == "json";
      assert OccursAt(Lower(r), "json", k);
      r
  }

  /** Adding the instruction twice is the same as adding it once. */
  lemma WithJsonInstructionIdempotent(prompt: string)
    ensures WithJsonInstruction(WithJsonInstruction(prompt)) == WithJsonInstruction(prompt)
  {
  }

  /** `messages` in `generate`: the fixed system turn, then the user turn. */
  function QuizMessages(ids: seq<string>, prompt: string): seq<Message> {
    [ Message("system", PlainText(SystemPrompt)),
      Message("user", Blocks(UserContent(ids, WithJsonInstruction(prompt)))) ]
  }

  /** The chat request `generate` issues. */
  function QuizRequest(model: string, ids: seq<string>, prompt: string): ChatRequest {
    ChatRequest(model, QuizMessages(ids, prompt), Some(QuizFunction))
  }

  /** The request has exactly two turns, system first; the user turn has one
      file block per id in list order and ends with the prompt as sent. */
  lemma QuizMessagesShape(ids: seq<string>, prompt: string)
    ensures var m := QuizMessages(ids, prompt);
      |m| == 2 && m[0] == Message("system", PlainText(SystemPrompt)) &&
      m[1].role == "user" && m[1].content.Blocks? &&
      |m[1].content.blocks| == |ids| + 1 &&
      (forall i :: 0 <= i < |ids| ==> m[1].content.blocks[i] == FileBlock(ids[i])) &&
      m[1].content.blocks[|ids|] == TextBlock(WithJsonInstruction(prompt)) &&
      FileIdsOf(m[1].content.blocks) == ids
  {
    UserContentShape(ids, WithJsonInstruction(prompt));
    UserContentRoundTrip(ids, WithJsonInstruction(prompt));
  }

  class OpenAIClient {
    const apiKey: string
    const model: string
    const client: OpenAI
    var fileIdList: seq<string>

    /** `__init__` once the key is resolved (ResolveApiKey rejects a missing one). */
    constructor (apiKey: string, model: string, client: OpenAI)
      requires apiKey != ""
      ensures this.apiKey == apiKey && this.model == model && this.client == client
      ensures fileIdList == []
    {
      this.apiKey := apiKey;
      this.model := model;
      this.client := client;
      fileIdList := [];
    }

    /** `get_file_id`: the id of the first listed file with this name, or None. */
    method GetFileId(filename: string) returns (r: Option<string>)
      ensures r == Lookup(client.files, filename)
      ensures r == None <==> forall i :: 0 <= i < |client.files| ==> client.files[i].filename != filename
      ensures r.Some? ==> exists i :: IsFirstMatch(client.files, filename, i) && client.files[i].id == r.value
    {
      var files := client.ListFiles();
      r := FindFileId(files, filename);
    }

    /** `add_file`: reuse the id of a listed file with the same basename, or
        upload the file (which fails when no file exists at the path); on success
        exactly one id is appended to `file_id_list`, and the listing then
        maps the basename to that id. */
    method AddFile(path: string, fileExists: bool, assignedId: string) returns (r: Result<(), Error>)
      modifies this`fileIdList, client
      ensures var found := Lookup(old(client.files), Basename(path));
        && (found.Some? ==>
              r.Success? && fileIdList == old(fileIdList) + [found.value] &&
              client.files == old(client.files) && client.uploads == old(client.uploads))
        && (found.None? && fileExists ==>
              r.Success? && fileIdList == old(fileIdList) + [assignedId] &&
              client.files == old(client.files) + [FileObject(Basename(path), assignedId)] &&
              client.uploads == old(client.uploads) + 1)
        && (found.None? && !fileExists ==>
              r == Failure(FileNotFoundError(NoSuchFileMessage(path))) &&
              fileIdList == old(fileIdList) &&
              client.files == old(client.files) && client.uploads == old(client.uploads))
      ensures client.requests == old(client.requests) && client.vectorStores == old(client.vectorStores)
      ensures r.Success? ==> Lookup(client.files, Basename(path)) == Some(fileIdList[|fileIdList| - 1])
    {
      var name := Basename(path);
      var fileId := GetFileId(name);
      if fileId.None? {
        if !fileExists {
          return Failure(FileNotFoundError(NoSuchFileMessage(path)));
        }
        LookupAppend(client.files, FileObject(name, assignedId), name);
        var id := client.CreateFile(name, assignedId);
        fileId := Some(id);
      }
      fileIdList := fileIdList + [fileId.value];
      r := Success(());
    }

    /** `generate`: reject the empty prompt before anything is sent; otherwise
        send one request built from the accumulated ids and answer with the
        provider's reply. `file_id_list` is only read. */
    method Generate(prompt: string, reply: string) returns (r: Result<string, Error>)
      modifies client
      ensures fileIdList == old(fileIdList)
      ensures prompt == "" ==> r == Failure(ValueError(EmptyPromptMessage)) && client.requests == old(client.requests)
      ensures prompt != "" ==>
        r == Success(reply) && client.requests == old(client.requests) + [QuizRequest(model, fileIdList, prompt)]
      ensures client.files == old(client.files) && client.uploads == old(client.uploads)
      ensures client.vectorStores == old(client.vectorStores)
    {
      if prompt == "" {
        return Failure(ValueError(EmptyPromptMessage));
      }
      var text := if Contains(Lower(prompt), "json") then prompt else prompt + JsonInstruction;
      var content := BuildUserContent(fileIdList, text);
      var messages := [Message("system", PlainText(SystemPrompt)), Message("user", Blocks(content))];
      var answer := client.CreateChatCompletion(ChatRequest(model, messages, Some(QuizFunction)), reply);
      r := Success(answer);
    }
  }

  /** `QuizAPIClient` once constructed: the endpoint and the bearer token. */
  datatype QuizAPIClient = QuizAPIClient(apiRoute: string, authToken: string)

  const MissingConfigMessage := "API route and auth token are required"

  /** `QuizAPIClient.__init__` over the values of QUIZ_ROUTE and AUTH_TOKEN:
      fails unless both are present and non-empty. */
  function NewQuizAPIClient(route: Option<string>, token: Option<string>): (r: Result<QuizAPIClient, Error>)
    ensures r.Success? <==> Truthy(route) && Truthy(token)
    ensures r.Success? ==> r.value.apiRoute == route.value && r.value.authToken == token.value
    ensures r.Failure? ==> r.error == ValueError(MissingConfigMessage)
  {
    if !Truthy(route) || !Truthy(token) then Failure(ValueError(MissingConfigMessage))
    else Success(QuizAPIClient(route.value, token.value))
  }

  /** A POST request: target, JSON body and headers in order. */
  datatype HttpRequest = HttpRequest(url: string, json: string, headers: seq<(string, string)>)

  const BearerPrefix := "Bearer "

  /** The POST `create_quiz` sends. */
  function QuizPost(c: QuizAPIClient, quizJson: string): HttpRequest {
    HttpRequest(c.apiRoute, quizJson,
      [("Authorization", BearerPrefix + c.authToken), ("Content-Type", "application/json")])
  }

  /** The token a server reads back from an Authorization header, if it is a bearer header. */
  function BearerToken(header: string): Option<string> {
    if StartsWith(header, BearerPrefix) then Some(header[|BearerPrefix|..]) else None
  }

  /** The POST goes to the configured route with the quiz as body, and its
      Authorization header carries exactly the configured token. */
  lemma QuizPostCarriesToken(c: QuizAPIClient, quizJson: string)
    ensures var req := QuizPost(c, quizJson);
      req.url == c.apiRoute && req.json == quizJson &&
      |req.headers| == 2 && req.headers[0].0 == "Authorization" &&
      BearerToken(req.headers[0].1) == Some(c.authToken) &&
      req.headers[1] == ("Content-Type", "application/json")
  {
    var h := BearerPrefix + c.authToken;
    assert h[..|BearerPrefix|] == BearerPrefix;
    assert h[|BearerPrefix|..] == c.authToken;
  }

  /** `create_quiz` after the POST: fails exactly when the status is not 200,
      carrying that status. */
  function CreateQuizOutcome(statusCode: int): (r: Result<(), Error>)
    ensures r.Success? <==> statusCode == 200
    ensures r.Failure? ==> r.error == RequestFailed(statusCode)
  {
    if statusCode != 200 then Failure(RequestFailed(statusCode)) else Success(())
  }

  /** An endpoint that answers 401 makes the upload fail with that status. */
  lemma UnauthorizedUploadFails()
    ensures CreateQuizOutcome(401) == Failure(RequestFailed(401))
  {
  }
}
