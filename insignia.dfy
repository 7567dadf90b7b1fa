// AbstractInsigniaMojo: the insignia command line, insignia's output classification and
// the check that insignia.exe exists.
module Insignia {
  import opened Wrappers
  import opened JavaText
  import opened Files
  import opened Runtime
  import opened WixMojo

  const ErrorMarker := " : error "
  const WarningMarker := " : warning "

  /** insignia(File): insignia.exe with the general options and nothing else yet. */
  method InsigniaCommand(exe: string, verbose: bool) returns (cl: CommandLine)
    ensures fresh(cl)
    ensures cl.executable == exe && cl.workingDirectory == None
    ensures cl.arguments == GeneralOptions(verbose)
  {
    cl := new CommandLine(exe);
    AddToolsetGeneralOptions(cl, verbose);
  }

  /** An insignia run; its failures are reported under torch's name, without the command line. */
  function InsigniaStep(call: Invocation): (r: Step)
    ensures r.Call? && r.call == call && r.name == "torch" && !r.showsCommand
  {
    Call("torch", false, call)
  }

  /** insignia's consumer: " : error " lines are errors, " : warning " lines warnings, stderr errors. */
  function InsigniaRating(verbose: bool, stdout: seq<string>, stderr: seq<string>): RatedOutput
  {
    RateRun(ErrorMarker, WarningMarker, verbose, stdout, stderr)
  }

  /**
   * An insignia run fails exactly when it cannot start or exits non-zero; each stdout
   * line is rated error before warning, each stderr line error.
   */
  lemma InsigniaOutcome(call: Invocation, tool: Tool, verbose: bool)
    ensures Perform([InsigniaStep(call)], tool).Completed? <==> tool(call).Exited? && tool(call).exitCode == 0
    ensures tool(call).Exited? && tool(call).exitCode != 0 ==>
      Perform([InsigniaStep(call)], tool) == Failed([Ran(call)], ToolFailed("torch", tool(call).exitCode, None))
    ensures tool(call).Exited? ==>
      var r := InsigniaRating(verbose, tool(call).stdout, tool(call).stderr);
      && (forall i :: 0 <= i < |tool(call).stderr| ==> r.stderr[i] == Error)
      && (forall i :: 0 <= i < |tool(call).stdout| ==>
            && (r.stdout[i] == Error <==> Contains(tool(call).stdout[i], ErrorMarker))
            && (r.stdout[i] == Warn <==> !Contains(tool(call).stdout[i], ErrorMarker) && Contains(tool(call).stdout[i], WarningMarker)))
  {
    if tool(call).Exited? {
      RateRunProperties(ErrorMarker, WarningMarker, verbose, tool(call).stdout, tool(call).stderr);
    }
  }

  /** validateTool: bin\insignia.exe, or a failure when it does not exist. */
  function ValidateInsignia(fs: FileSystem, toolDirectory: string): (r: Result<string, Failure>)
    ensures r.Ok? <==> Exists(fs, ToolExecutable(toolDirectory, "insignia.exe"))
    ensures r.Ok? ==> r.value == ToolExecutable(toolDirectory, "insignia.exe")
    ensures r.Err? ==> r.error == MissingFile(ToolExecutable(toolDirectory, "insignia.exe"))
  {
    var exe := ToolExecutable(toolDirectory, "insignia.exe");
    if Exists(fs, exe) then Ok(exe) else Err(MissingFile(exe))
  }
}
