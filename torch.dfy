// AbstractTorchMojo: the torch command line, torch's output classification and the
// check that torch.exe exists.
module Torch {
  import opened Wrappers
  import opened JavaText
  import opened Files
  import opened Runtime
  import opened ArtifactLookup
  import opened WixMojo

  const ErrorMarker := " : error "
  const WarningMarker := " : warning "

  /** addTorchOptions: "-p" when unmodified content is preserved. */
  function TorchOptions(preserveUnmodified: bool): (r: seq<string>)
    ensures r != [] <==> preserveUnmodified
    ensures preserveUnmodified ==> r == ["-p"]
  {
    if preserveUnmodified then ["-p"] else []
  }

  /**
   * The torch command line: general options, "-p", the goal's validation options, the
   * extensions, then the base input, the input, "-out" and the output.
   */
  function TorchArgs(verbose: bool, preserveUnmodified: bool, validation: seq<string>, extensions: seq<Artifact>,
                     baseInput: string, input: string, output: string): seq<string>
  {
    GeneralOptions(verbose) + TorchOptions(preserveUnmodified) + validation + ExtensionArgs(extensions)
    + [baseInput, input, "-out", output]
  }

  /** The groups of the torch command line, in order, and the four file arguments at its end. */
  lemma TorchArgsLayout(verbose: bool, preserveUnmodified: bool, validation: seq<string>, extensions: seq<Artifact>,
                        baseInput: string, input: string, output: string)
    ensures var args := TorchArgs(verbose, preserveUnmodified, validation, extensions, baseInput, input, output);
      var n := |GeneralOptions(verbose)|;
      var p := if preserveUnmodified then 1 else 0;
      && |args| == n + p + |validation| + |ExtensionArgs(extensions)| + 4
      && args[..n] == GeneralOptions(verbose)
      && (preserveUnmodified ==> args[n] == "-p")
      && args[n + p..n + p + |validation|] == validation
      && args[|args| - 4..] == [baseInput, input, "-out", output]
  {
    var args := TorchArgs(verbose, preserveUnmodified, validation, extensions, baseInput, input, output);
    var general := GeneralOptions(verbose);
    var head := general + TorchOptions(preserveUnmodified);
    assert args == (head + validation) + (ExtensionArgs(extensions) + [baseInput, input, "-out", output]);
    assert (head + validation)[..|general|] == general;
    assert (head + validation)[|head|..] == validation;
  }

  /** Prepares the torch command line; the working directory is left unset. */
  method TorchCommand(exe: string, verbose: bool, preserveUnmodified: bool, validation: seq<string>,
                      extensions: seq<Artifact>, baseInput: string, input: string, output: string)
    returns (cl: CommandLine)
    ensures fresh(cl)
    ensures cl.executable == exe && cl.workingDirectory == None
    ensures cl.arguments == TorchArgs(verbose, preserveUnmodified, validation, extensions, baseInput, input, output)
  {
    cl := new CommandLine(exe);
    AddToolsetGeneralOptions(cl, verbose);
    if preserveUnmodified {
      cl.AddArguments(["-p"]);
    }
    cl.AddArguments(validation);
    AddWixExtensions(cl, extensions);
    cl.AddArguments([baseInput, input, "-out", output]);
  }

  /** A torch run; a non-zero exit fails with the return code but without the command line. */
  function TorchStep(call: Invocation): (r: Step)
    ensures r.Call? && r.call == call && r.name == "torch" && !r.showsCommand
  {
    Call("torch", false, call)
  }

  /** torch's consumer: " : error " lines are errors, " : warning " lines warnings, stderr errors. */
  function TorchRating(verbose: bool, stdout: seq<string>, stderr: seq<string>): RatedOutput
  {
    RateRun(ErrorMarker, WarningMarker, verbose, stdout, stderr)
  }

  /**
   * A torch run fails exactly when it cannot start or exits non-zero, then with the
   * return code; each stdout line is rated error before warning, each stderr line error.
   */
  lemma TorchOutcome(call: Invocation, tool: Tool, verbose: bool)
    ensures Perform([TorchStep(call)], tool).Completed? <==> tool(call).Exited? && tool(call).exitCode == 0
    ensures tool(call).Exited? && tool(call).exitCode != 0 ==>
      Perform([TorchStep(call)], tool) == Failed([Ran(call)], ToolFailed("torch", tool(call).exitCode, None))
    ensures tool(call).Exited? ==>
      var r := TorchRating(verbose, tool(call).stdout, tool(call).stderr);
      && (forall i :: 0 <= i < |tool(call).stderr| ==> r.stderr[i] == Error)
      && (forall i :: 0 <= i < |tool(call).stdout| ==> (r.stdout[i] == Error <==> Contains(tool(call).stdout[i], ErrorMarker)))
  {
    if tool(call).Exited? {
      RateRunProperties(ErrorMarker, WarningMarker, verbose, tool(call).stdout, tool(call).stderr);
    }
  }

  /** validateTool: bin\torch.exe, or a failure when it does not exist. */
  function ValidateTool(fs: FileSystem, toolDirectory: string): (r: Result<string, Failure>)
    ensures r.Ok? <==> Exists(fs, ToolExecutable(toolDirectory, "torch.exe"))
    ensures r.Ok? ==> r.value == ToolExecutable(toolDirectory, "torch.exe")
    ensures r.Err? ==> r.error == MissingFile(ToolExecutable(toolDirectory, "torch.exe"))
  {
    var exe := ToolExecutable(toolDirectory, "torch.exe");
    if Exists(fs, exe) then Ok(exe) else Err(MissingFile(exe))
  }
}
