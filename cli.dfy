/** src/hp_ai/cli.py: the command-line handler. Its two paths are checked in
    order when it is constructed: the document folder must be an existing
    directory, then the prompt file an existing regular file. */
module Cli {
  import opened Common
  import opened Paths

  const DefaultDocFolder := "."
  const DefaultPromptFile := "./prompts.toml"

  /** The parsed `--doc-folder` and `--prompt-file` values. */
  datatype Args = Args(docFolder: string, promptFile: string)

  /** `_parse_arguments`: each option as given, or its default when absent. */
  function ParseArguments(docFolder: Option<string>, promptFile: Option<string>): (args: Args)
    ensures docFolder.None? ==> args.docFolder == DefaultDocFolder
    ensures promptFile.None? ==> args.promptFile == DefaultPromptFile
    ensures docFolder.Some? ==> args.docFolder == docFolder.value
    ensures promptFile.Some? ==> args.promptFile == promptFile.value
  {
    Args(if docFolder.Some? then docFolder.value else DefaultDocFolder,
         if promptFile.Some? then promptFile.value else DefaultPromptFile)
  }

  function FolderMessage(path: string): string {
    "Document folder \"" + path + "\" does not exist or is a file"
  }

  function PromptFileMessage(path: string): string {
    "Prompt file \"" + path + "\" does not exist or is a directory"
  }

  predicate FolderOk(fs: FileSystem, path: string) {
    fs.pathExists(path) && fs.isDir(path)
  }

  predicate PromptFileOk(fs: FileSystem, path: string) {
    fs.pathExists(path) && fs.isFile(path)
  }

  /** `_validate_arguments`: the folder error exactly when the folder is
      missing or not a directory; the prompt-file error exactly when the folder
      passes and the prompt file is missing or not a regular file; no error
      when both pass. The folder is checked first, so it wins when both fail. */
  function ValidateArguments(args: Args, fs: FileSystem): (r: Result<(), Error>)
    ensures r.Success? <==> FolderOk(fs, args.docFolder) && PromptFileOk(fs, args.promptFile)
    ensures r == Failure(FileNotFoundError(FolderMessage(args.docFolder))) <==> !FolderOk(fs, args.docFolder)
    ensures r == Failure(FileNotFoundError(PromptFileMessage(args.promptFile))) <==>
      FolderOk(fs, args.docFolder) && !PromptFileOk(fs, args.promptFile)
  {
    assert FolderMessage(args.docFolder)[0] != PromptFileMessage(args.promptFile)[0];
    if !(fs.pathExists(args.docFolder) && fs.isDir(args.docFolder)) then
      Failure(FileNotFoundError(FolderMessage(args.docFolder)))
    else if !(fs.pathExists(args.promptFile) && fs.isFile(args.promptFile)) then
      Failure(FileNotFoundError(PromptFileMessage(args.promptFile)))
    else
      Success(())
  }

  /** A constructed handler: the arguments it validated. */
  datatype CLIHandler = CLIHandler(args: Args) {
    function GetDocumentFolder(): string { args.docFolder }
    function GetPromptFile(): string { args.promptFile }
  }

  /** `CLIHandler()`: parse, then validate; construction fails with the
      validation error. */
  function NewCLIHandler(args: Args, fs: FileSystem): (r: Result<CLIHandler, Error>)
    ensures r.Success? <==> ValidateArguments(args, fs).Success?
    ensures r.Failure? ==> r.error == ValidateArguments(args, fs).error
    ensures r.Success? ==> r.value.GetDocumentFolder() == args.docFolder && r.value.GetPromptFile() == args.promptFile
  {
    match ValidateArguments(args, fs)
    case Failure(e) => Failure(e)
    case Success(_) => Success(CLIHandler(args))
  }

  /** A document folder that exists but is a file is rejected with the folder
      error, whatever the prompt file is. */
  lemma FolderThatIsAFileIsRejected(args: Args, fs: FileSystem)
    requires fs.pathExists(args.docFolder) && !fs.isDir(args.docFolder)
    ensures NewCLIHandler(args, fs) == Failure(FileNotFoundError(FolderMessage(args.docFolder)))
  {
  }

  /** A prompt path that is a directory is rejected with the prompt-file error
      once the folder passes. */
  lemma PromptPathThatIsADirectoryIsRejected(args: Args, fs: FileSystem)
    requires FolderOk(fs, args.docFolder)
    requires fs.pathExists(args.promptFile) && !fs.isFile(args.promptFile)
    ensures NewCLIHandler(args, fs) == Failure(FileNotFoundError(PromptFileMessage(args.promptFile)))
  {
  }
}
