# hp-ai quiz generator: a verified model of its core logic

hp-ai is a small command-line tool. The user picks local documents and a
prompt template, the tool sends them to an LLM provider (OpenAI) to generate a
multiple-choice quiz as JSON, and it can post the quiz to a storage endpoint.
The repository holds several rewrites of the same pieces. This Dafny project
models the logic around the provider calls in each of them. The provider
itself, the file system and the environment become inputs.

- **Remote file registry** (`hp_ai/api.py`, `hp_ai/openai_client.py`).
  `get_file_id` is a first-match scan of the provider's file listing.
  `add_file` uploads a document only when no listed file has its basename.
  Either way it appends exactly one id to the client's `file_id_list`.
- **Request assembly** in both `generate` methods. An empty prompt is
  rejected before anything is sent. `hp_ai/api.py` appends a "JSON"
  instruction when the prompt does not mention JSON, and puts a system turn
  first. The user turn holds one file block per accumulated id, then the
  prompt text.
- **Quiz publisher** (`QuizAPIClient`). Construction needs a route and a
  token. The POST carries `Authorization: Bearer <token>`. Any status
  other than 200 is an error.
- **Assistant-run helpers** (`src/openai_client.py`). These build the
  filename→id dictionary (the last entry wins) and merge in local names with
  id `""`. They refuse an empty id list before creating a vector store. They
  poll a run until it reaches a terminal status, and pick the assistant's
  answer out of a thread.
- **Catalogs** (`src/hp_ai/io.py`): prompt names and lookup, the
  supported-document filter over a folder listing, and the document path.
- **Argument validation** in both CLI handlers.

Modules: `Common` (Option, Result, the exceptions, string predicates),
`Paths` (`os.path.basename`, `os.path.join`, file-system predicates),
`RemoteFiles` (the listing and its search), `Chat` (message and content
blocks), `Provider` (the SDK client `OpenAI` as a stateful oracle),
`QuizApi` (hp_ai/api.py), `ChatClient` (hp_ai/openai_client.py),
`AssistantClient` (src/openai_client.py), `Catalog` (src/hp_ai/io.py), `Cli`
(src/hp_ai/cli.py), `LegacyCli` (hp_ai/cli.py).

The provider is a class `Provider.OpenAI`. Its state is the file listing,
the number of uploads, the chat requests sent, and the vector stores created.
The ids it assigns and the replies it gives are parameters. The clients'
methods state how each call changes that state. So "no upload on a hit",
"exactly one upload on a miss", "nothing is sent for an empty prompt" and
"`file_id_list` is only read by `generate`" are postconditions.

Notes on the code's behaviour, which the model follows:
- `generate` rejects only the empty string. A prompt of spaces is sent
  (hp_ai/api.py:70).
- `add_file` fails on a missing file only when its name is not already
  listed, because the lookup comes first (hp_ai/api.py:32-39).
- `get_thread_response` scans `messages.data[::-1]`. It therefore returns the
  *last* assistant message of the list as the provider returns it. The model
  states exactly that and makes no claim about the provider's ordering.
- The poll loop in `wait_for_run` has no bound (see Left out).

## Model

| member | source | states |
|---|---|---|
| RemoteFiles.FindFileId | hp_ai/api.py:55-59 | the scan returns None iff no listed entry has the name; otherwise it returns the id of the first entry with that name; it agrees with `Lookup` |
| RemoteFiles.LookupIsFirstMatch | hp_ai/openai_client.py:54-58 | `Lookup` misses iff no entry has the name, and otherwise yields the id of the first matching entry |
| RemoteFiles.LookupAppend | hp_ai/api.py:32-40 | appending an uploaded file to the listing keeps every existing match, and a missing name then resolves to the new id |
| Paths.Basename | hp_ai/api.py:32 | `os.path.basename`: the result has no separator, is no longer than the path, and is preceded by a separator when shorter than the path |
| Paths.BasenameIsSuffix | hp_ai/api.py:32 | the basename is the tail of the path |
| Paths.JoinThenBasename | src/hp_ai/io.py:37-38 | the basename of folder joined with a separator-free name is that name, so a listed document is looked up under its listed name |
| Paths.JoinRelative | src/hp_ai/io.py:37-38 | `os.path.join` with a relative name: folder + "/" + name, or folder + name when the folder is empty or ends in "/"; the folder is a prefix and the name a suffix |
| Paths.JoinAbsolute | src/hp_ai/io.py:37-38 | an absolute second component replaces the folder |
| Paths.JoinExamples | src/hp_ai/io.py:37-38 | "/test/path" with "document.pdf" gives "/test/path/document.pdf"; with "subfolder/document.pdf" gives "/test/path/subfolder/document.pdf" |
| Provider.ResolveApiKey | hp_ai/api.py:11-13 | the key is the argument if truthy, else the environment value; construction fails with ValueError iff neither is truthy |
| Provider.ResolveModel | hp_ai/api.py:15 | the model is the argument if truthy, else the MODEL_NAME value when it is set, else "gpt-4o-mini" |
| Chat.BuildUserContent | hp_ai/api.py:76-92 | the content loop yields one file block per id in list order, then one text block with the text; it equals `UserContent` |
| Chat.UserContentShape | hp_ai/api.py:81-92 | the user content has one block more than there are ids: block i carries id i and the last block holds the text |
| Chat.UserContentRoundTrip | hp_ai/openai_client.py:77-88 | reading the file ids back from the user content gives exactly the accumulated ids, in order |
| QuizApi.WithJsonInstruction | hp_ai/api.py:73-74 | the prompt is unchanged iff its lower-cased form contains "json", otherwise the instruction is appended; the result's lower-cased form always contains "json" |
| QuizApi.WithJsonInstructionIdempotent | hp_ai/api.py:73-74 | applying the JSON-instruction step twice equals applying it once |
| QuizApi.QuizMessagesShape | hp_ai/api.py:76-100 | the messages are exactly [system, user]; the user turn has one file block per id in order, then the possibly suffixed prompt |
| QuizApi.OpenAIClient.constructor | hp_ai/api.py:10-17 | a client starts with the resolved key and model and an empty `file_id_list` |
| QuizApi.OpenAIClient.GetFileId | hp_ai/api.py:42-59 | `get_file_id` lists the provider's files and returns the first match's id, or None iff no file has the name |
| QuizApi.OpenAIClient.AddFile | hp_ai/api.py:19-40 | on a hit there is no upload and the listed id is appended; on a miss there is exactly one upload and the new id is appended; a path where no file exists raises FileNotFoundError on a miss and changes nothing; on success the listing maps the basename to the appended id |
| QuizApi.OpenAIClient.Generate | hp_ai/api.py:61-149 | an empty prompt raises ValueError and sends nothing; otherwise exactly one request is sent, with the [system, user] messages and the forced `create_quiz` function, and the reply is returned; `file_id_list` is not modified |
| QuizApi.NewQuizAPIClient | hp_ai/api.py:153-157 | construction succeeds iff both route and token are present and non-empty, and otherwise raises ValueError |
| QuizApi.QuizPostCarriesToken | hp_ai/api.py:165-172 | the POST goes to the route with the quiz as body; its Authorization header is "Bearer " followed by exactly the token; the content type is JSON |
| QuizApi.CreateQuizOutcome | hp_ai/api.py:173-174 | `create_quiz` fails iff the status is not 200, and the error carries that status |
| QuizApi.UnauthorizedUploadFails | hp_ai/api.py:173-174 | a 401 answer makes the upload fail with status 401 |
| ChatClient.PlainMessagesShape | hp_ai/openai_client.py:72-90 | there is exactly one message, the user turn and no system turn; it has one file block per id in order, then the prompt unmodified |
| ChatClient.OpenAIClient.constructor | hp_ai/openai_client.py:10-17 | a client starts with the resolved key and model and an empty `file_id_list` |
| ChatClient.OpenAIClient.GetFileId | hp_ai/openai_client.py:41-58 | returns the first match's id, or None iff no listed file has the name |
| ChatClient.OpenAIClient.AddFile | hp_ai/openai_client.py:19-39 | uploads iff the basename is not listed, otherwise reuses the listed id; exactly one id is appended and the old list stays a prefix; a path where no file exists raises FileNotFoundError on a miss and changes nothing |
| ChatClient.OpenAIClient.Generate | hp_ai/openai_client.py:60-99 | an empty prompt raises ValueError and sends nothing; otherwise exactly one request with the single user turn and no forced function; `file_id_list` is only read |
| AssistantClient.OpenAIClient.constructor | src/openai_client.py:10-16 | a client starts with the resolved key, its model and its SDK client |
| AssistantClient.OpenAIClient.GetFilesOpenAi | src/openai_client.py:28-34 | the dictionary equals `FileMap` of the listing; its keys are exactly the listed filenames |
| AssistantClient.FileMapKeys | src/openai_client.py:29-33 | every listed filename is a key of the dictionary, and nothing else is |
| AssistantClient.FileMapLastWins | src/openai_client.py:31-32 | a name listed several times maps to the id of its last entry in list order |
| AssistantClient.OpenAIClient.GetAllFiles | src/openai_client.py:36-43 | the keys are the remote names plus the local names; remote names keep their remote id; local-only names map to "" |
| AssistantClient.OpenAIClient.CreateVectorStoreBatch | src/openai_client.py:54-62 | an empty id list raises AssertionError before any store is created; otherwise one store with the ids is created and its id returned |
| AssistantClient.OpenAIClient.WaitForRun | src/openai_client.py:89-100 | over observed statuses: it stops at the first terminal status after exactly index+1 polls; it returns only on "completed" and raises with the status on "failed", "expired" or "cancelled"; it keeps polling on any other status |
| AssistantClient.OpenAIClient.GetThreadResponse | src/openai_client.py:102-109 | returns the first text block of the first assistant message in the reversed list (the last one in list order), which exists whenever some message is the assistant's, or "No response from assistant." when there is none |
| AssistantClient.Reverse | src/openai_client.py:105 | `data[::-1]`: same length, element k is element n-1-k of the input |
| Catalog.NamesAreKeys | src/hp_ai/io.py:15-16 | `get_prompt_names` lists every prompt's name, in table order, one per prompt, without repeats |
| Catalog.FindMeaning | src/hp_ai/io.py:18-19 | `get_prompt` returns the text stored under the name unchanged; a name that is not a key raises KeyError |
| Catalog.FindMissing | src/hp_ai/io.py:18-19 | a name that no entry carries raises KeyError, for any table |
| Catalog.ListedNamesResolve | src/hp_ai/io.py:15-19 | every name offered by `get_prompt_names` can be looked up |
| Catalog.PromptSelectionExample | src/hp_ai/io.py:15-19 | with prompts {"a": "Summarize", "b": "Quiz me"} the names are ["a", "b"] and selecting "b" gives "Quiz me" |
| Catalog.PromptManager.constructor | src/hp_ai/io.py:7-9 | the manager keeps the prompt file and the table it decodes to, whose keys are unique |
| Catalog.PromptManager.GetPromptNames | src/hp_ai/io.py:15-16 | one name per entry, in table order, without repeats in a valid manager |
| Catalog.PromptManager.GetPrompt | src/hp_ai/io.py:18-19 | in a valid manager, the text stored under the name and success for every listed name; KeyError for a name that is not a key |
| Catalog.DocumentManager.constructor | src/hp_ai/io.py:23-25 | the manager keeps its folder |
| Catalog.DocumentManager.GetDocuments | src/hp_ai/io.py:27-35 | a folder path where nothing exists raises FileNotFoundError; otherwise the result equals `Documents` of the listing; an empty listing gives an empty result |
| Catalog.DocumentsMembership | src/hp_ai/io.py:29-34 | a name is returned iff it is in the listing, its path is a regular file, and it ends in ".pdf" or ".txt" |
| Catalog.DocumentsInListingOrder | src/hp_ai/io.py:29-34 | the returned names are a subsequence of the listing, so listing order is kept |
| Catalog.DocumentsExample | src/hp_ai/io.py:27-35 | a listing of quiz.pdf, a directory, notes.txt and a .png gives ["quiz.pdf", "notes.txt"] |
| Catalog.DocumentManager.GetDocumentPath | src/hp_ai/io.py:37-38 | the path of a relative name starts with the folder and ends with the name; a plain file name is the path's basename |
| Cli.ParseArguments | src/hp_ai/cli.py:12-30 | an option takes its given value, or "." and "./prompts.toml" when it is absent |
| Cli.ValidateArguments | src/hp_ai/cli.py:32-45 | the folder error iff the folder does not exist or is not a directory; the prompt-file error iff the folder passes and the prompt file does not exist or is not a regular file; success iff both pass |
| Cli.NewCLIHandler | src/hp_ai/cli.py:8-10 | construction fails with the validation error, and otherwise the getters return the parsed arguments unchanged |
| Cli.FolderThatIsAFileIsRejected | src/hp_ai/cli.py:33-38 | an existing folder path that is not a directory is rejected with the folder error, whatever the prompt file is |
| Cli.PromptPathThatIsADirectoryIsRejected | src/hp_ai/cli.py:39-45 | once the folder passes, an existing prompt path that is not a regular file is rejected with the prompt-file error |
| LegacyCli.ParseArguments | hp_ai/cli.py:10-14 | an option takes its given value, or "./pdfs" and "./prompts.toml" when it is absent |
| LegacyCli.ValidateArguments | hp_ai/cli.py:16-22 | exit code 1 iff a path does not exist; a missing folder is reported first; the prompt file is reported only when the folder exists |
| LegacyCli.NewCLIHandler | hp_ai/cli.py:6-8 | construction succeeds iff both paths exist, and then the getters return the arguments |
| LegacyCli.OnlyExistenceIsChecked | hp_ai/cli.py:17-20 | a folder path naming a file and a prompt path naming a directory pass here, while src/hp_ai/cli.py rejects them |
| LegacyCli.LaterHandlerIsStricter | hp_ai/cli.py:16-22 | every argument pair the later handler accepts is accepted here too |

## Left out

- The provider's SDK is an oracle. `files.list`, `files.create`, `chat.completions.create` and `vector_stores.create` are the methods of `Provider.OpenAI`. The assigned ids and the replies are parameters. Nothing about the network, authentication or the provider's own errors is modelled.
- The fields of the chat request other than the model, the messages and the forced function are not modelled: `response_format`, the `functions` schema literal (hp_ai/api.py:102-137), `max_tokens` parsed from MAX_TOKENS, and the floating-point `temperature`. Reading the answer out of `response.choices[0]` is also left out: `Generate` returns the reply it is given.
- `QuizApi.OpenAIClient.constructor`, `ChatClient.OpenAIClient.constructor`, `AssistantClient.OpenAIClient.constructor`: they take a key already resolved by `Provider.ResolveApiKey`, because a Dafny constructor cannot fail. So they require a non-empty key instead of raising. Creating the SDK client object is not modelled.
- AssistantClient.OpenAIClient.constructor: the assistant that `__init__` creates through `_create_assistant` (src/openai_client.py:17-26) is not modelled.
- QuizApi.OpenAIClient.AddFile, ChatClient.OpenAIClient.AddFile: the only way opening the file fails here is that nothing exists at the path, which raises FileNotFoundError. The IsADirectoryError or PermissionError that `open` raises for a directory or an unreadable file are not modelled.
- Catalog.DocumentManager.GetDocuments: the only way listing the folder fails here is that nothing exists at the path. The NotADirectoryError or PermissionError that `os.listdir` raises for a file or an unreadable folder are not modelled.
- `upload_file`, `create_thread`, `create_message`, `run_thread` and `generate_text` in src/openai_client.py are not modelled. They are single SDK calls with no logic of their own, apart from the `or` defaults of `generate_text`. src/api/openai_client.py is not part of this model for the same reason.
- `AssistantClient.OpenAIClient.WaitForRun`: the source polls with no bound. The model takes the statuses that successive polls observe as a finite sequence, and reports `Unfinished` when they run out before a terminal status. The `time.sleep(1)` between polls and the thread and run ids are not modelled.
- `AssistantClient.OpenAIClient.GetThreadResponse`: a message's content is modelled as the texts of its blocks. The error for a first block that is not a text block is not modelled. An empty content list raises IndexError.
- `AssistantClient.OpenAIClient.GetAllFiles`: `os.listdir("res")` is a given sequence of names. The error for a missing `res` folder is not modelled.
- `QuizApi.WithJsonInstruction`: lower-casing maps only the ASCII letters A-Z. No other character lower-cases to one of the letters of "json", so the test is unchanged. The model does not cover the length changes that full Unicode lower-casing can cause.
- `QuizApi.CreateQuizOutcome`: the POST itself, `response.json()` and the two `print` calls after a 200 are I/O and are not modelled. The error keeps the status code rather than the formatted message.
- The quiz is an opaque JSON string. Parsing and pretty-printing it are not modelled (`__main__`).
- TOML loading of the prompt file and its decode error are not modelled. The model starts from the decoded table, whose names are unique.
- `os.path.exists`, `isdir` and `isfile`, and the result of `os.listdir`, are given predicates and values. argparse is reduced to "the given value or the default".
- The interactive selection (`select_documents`, `select_prompt`, `confirm_continue`), both `__main__` modules, `load_dotenv` and the environment lookups are not modelled. The environment values are parameters of `ResolveApiKey`, `ResolveModel` and `NewQuizAPIClient`.
- hp_ai/openai_client.py leaves the uploaded file's handle open, while hp_ai/api.py closes it. Resource handling is not modelled.
