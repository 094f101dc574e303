/** hp_ai/cli.py: the earlier command-line handler. It checks only that its
    two paths exist, folder first, and ends the process with exit code 1 after
    printing which one is missing. */
module LegacyCli {
  import opened Common
  import opened Paths
  import Cli

  const DefaultDocFolder := "./pdfs"
  const DefaultPromptFile := "./prompts.toml"

  /** `_parse_arguments`: each option as given, or its default when absent. */
  function ParseArguments(docFolder: Option<string>, promptFile: Option<string>): (args: Cli.Args)
    ensures docFolder.None? ==> args.docFolder == DefaultDocFolder
    ensures promptFile.None? ==> args.promptFile == DefaultPromptFile
    ensures docFolder.Some? ==> args.docFolder == docFolder.value
    ensures promptFile.Some? ==> args.promptFile == promptFile.value
  {
    Cli.Args(if docFolder.Some? then docFolder.value else DefaultDocFolder,
             if promptFile.Some? then promptFile.value else DefaultPromptFile)
  }

  function MissingFolderMessage(path: string): string {
    "Document \"" + path + "\" does not exist"
  }

  function MissingPromptFileMessage(path: string): string {
    "Prompt file \"" + path + "\" does not exist"
  }

  /** `_validate_arguments`: exit code 1 exactly when one of the paths does
      not exist; the folder is reported when it is missing, the prompt file
      only when the folder exists. Nothing but existence is asked. */
  function ValidateArguments(args: Cli.Args, pathExists: string -> bool): (r: Result<(), Error>)
    ensures r.Success? <==> pathExists(args.docFolder) && pathExists(args.promptFile)
    ensures r.Failure? ==> r.error.SystemExit? && r.error.code == 1
    ensures !pathExists(args.docFolder) ==> r == Failure(SystemExit(1, MissingFolderMessage(args.docFolder)))
    ensures pathExists(args.docFolder) && !pathExists(args.promptFile) ==>
      r == Failure(SystemExit(1, MissingPromptFileMessage(args.promptFile)))
  {
    if !pathExists(args.docFolder) then Failure(SystemExit(1, MissingFolderMessage(args.docFolder)))
    else if !pathExists(args.promptFile) then Failure(SystemExit(1, MissingPromptFileMessage(args.promptFile)))
    else Success(())
  }

  /** A constructed handler: the arguments it validated. */
  datatype CLIHandler = CLIHandler(args: Cli.Args) {
    function GetDocumentFolder(): string { args.docFolder }
    function GetPromptFile(): string { args.promptFile }
  }

  /** `CLIHandler()`: parse, then validate; construction ends the process when
      validation does. */
  function NewCLIHandler(args: Cli.Args, fs: FileSystem): (r: Result<CLIHandler, Error>)
    ensures r.Success? <==> fs.pathExists(args.docFolder) && fs.pathExists(args.promptFile)
    ensures r.Failure? ==> r.error == ValidateArguments(args, fs.pathExists).error
    ensures r.Success? ==> r.value.GetDocumentFolder() == args.docFolder && r.value.GetPromptFile() == args.promptFile
  {
    match ValidateArguments(args, fs.pathExists)
    case Failure(e) => Failure(e)
    case Success(_) => Success(CLIHandler(args))
  }

  /** Existence is all that is checked: a folder path that names a file and a
      prompt path that names a directory both pass here, while the later
      handler rejects them. */
  lemma OnlyExistenceIsChecked(args: Cli.Args, fs: FileSystem)
    requires fs.pathExists(args.docFolder) && fs.pathExists(args.promptFile)
    requires !fs.isDir(args.docFolder) && fs.isFile(args.docFolder)
    requires fs.isDir(args.promptFile) && !fs.isFile(args.promptFile)
    ensures NewCLIHandler(args, fs).Success?
    ensures Cli.NewCLIHandler(args, fs).Failure?
  {
  }

  /** Whatever the later handler accepts, this one accepts too. */
  lemma LaterHandlerIsStricter(args: Cli.Args, fs: FileSystem)
    ensures Cli.NewCLIHandler(args, fs).Success? ==> NewCLIHandler(args, fs).Success?
  {
  }
}
