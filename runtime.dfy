// What the goals share at run time: the plexus Commandline they fill in, the tools they
// run (an oracle from command line to stdout, stderr and exit code), the way each tool's
// output lines are rated, and the way a goal stops at the first failure.
module Runtime {
  import opened Wrappers
  import opened JavaText

  /** A finished command line: what was handed to CommandLineUtils.executeCommandLine. */
  datatype Invocation = Invocation(executable: string, workingDirectory: Option<string>, arguments: seq<string>)

  /** org.codehaus.plexus.util.cli.Commandline. */
  class CommandLine {
    var executable: string
    var workingDirectory: Option<string>
    var arguments: seq<string>

    constructor (exe: string)
      ensures executable == exe && workingDirectory == None && arguments == []
    {
      executable := exe;
      workingDirectory := None;
      arguments := [];
    }

    method SetWorkingDirectory(dir: string)
      modifies this
      ensures workingDirectory == Some(dir)
      ensures executable == old(executable) && arguments == old(arguments)
    {
      workingDirectory := Some(dir);
    }

    /** Commandline.addArguments: appends, in order. */
    method AddArguments(args: seq<string>)
      modifies this
      ensures arguments == old(arguments) + args
      ensures executable == old(executable) && workingDirectory == old(workingDirectory)
    {
      arguments := arguments + args;
    }

    function Snapshot(): (r: Invocation)
      reads this
      ensures r.executable == executable && r.arguments == arguments
      ensures r.workingDirectory == workingDirectory
    {
      Invocation(executable, workingDirectory, arguments)
    }
  }

  /** What running a tool yields: its output lines and exit code, or a launch failure. */
  datatype ToolRun = Exited(stdout: seq<string>, stderr: seq<string>, exitCode: int) | LaunchError

  /** The tools themselves are not modelled: each command line has some outcome. */
  type Tool = Invocation -> ToolRun

  /** The log level a line is written at. */
  datatype Severity = Error | Warn | Info | Debug

  /**
   * The stdout consumer of every tool: the error marker wins over the warning marker,
   * anything else is info when verbose and debug otherwise.
   */
  function RateLine(errorMarker: string, warningMarker: string, verbose: bool, line: string): Severity
  {
    if Contains(line, errorMarker) then Error
    else if Contains(line, warningMarker) then Warn
    else if verbose then Info
    else Debug
  }

  /** The levels of a run's stdout lines and stderr lines; every stderr line is an error. */
  datatype RatedOutput = RatedOutput(stdout: seq<Severity>, stderr: seq<Severity>)

  function RateRun(errorMarker: string, warningMarker: string, verbose: bool, stdout: seq<string>, stderr: seq<string>): RatedOutput
  {
    RatedOutput(
      seq(|stdout|, i requires 0 <= i < |stdout| => RateLine(errorMarker, warningMarker, verbose, stdout[i])),
      seq(|stderr|, i requires 0 <= i < |stderr| => Error))
  }

  lemma RateRunProperties(errorMarker: string, warningMarker: string, verbose: bool, stdout: seq<string>, stderr: seq<string>)
    ensures var r := RateRun(errorMarker, warningMarker, verbose, stdout, stderr);
      |r.stdout| == |stdout| && |r.stderr| == |stderr|
      && (forall i :: 0 <= i < |stderr| ==> r.stderr[i] == Error)
      && (forall i :: 0 <= i < |stdout| ==>
            (r.stdout[i] == Error <==> Contains(stdout[i], errorMarker))
            && (r.stdout[i] == Warn <==> !Contains(stdout[i], errorMarker) && Contains(stdout[i], warningMarker))
            && (r.stdout[i] == Info ==> verbose)
            && (r.stdout[i] == Debug ==> !verbose))
  {
  }

  /** Why a goal stops. */
  datatype Failure =
    | ToolFailed(name: string, exitCode: int, shown: Option<Invocation>)
      // "Problem executing <name>, return code <n>", with the command line when shown
    | ToolLaunchFailed(name: string, shown: Option<Invocation>)
      // a CommandLineException wrapped as "Problem executing <name>"
    | MissingFile(path: string)
      // "... does not exist" for a tool or an input the goal needs
    | ResolutionFailed(message: string)
      // an artifact that could not be resolved or was ambiguous
    | ExecutionFailed(message: string)
      // any other MojoExecutionException
    | BuildFailed(message: string)
      // a MojoFailureException

  /** The failure a tool run causes, if any: a launch error or a non-zero exit code. */
  function RunFailure(name: string, showsCommand: bool, call: Invocation, run: ToolRun): (r: Option<Failure>)
    ensures r.None? <==> run.Exited? && run.exitCode == 0
    ensures run.Exited? && run.exitCode != 0 ==>
      r == Some(ToolFailed(name, run.exitCode, if showsCommand then Some(call) else None))
  {
    match run
    case LaunchError => Some(ToolLaunchFailed(name, if showsCommand then Some(call) else None))
    case Exited(_, _, code) =>
      if code != 0 then Some(ToolFailed(name, code, if showsCommand then Some(call) else None)) else None
  }

  /** Side effects on the file system a goal performs. */
  datatype Effect =
    | CreateDirectories(dir: string)
    | Touch(file: string)
    | WriteFile(file: string, content: string)
      // the entries of an archive that match an include pattern and no exclude pattern,
      // extracted into a folder
    | Unpack(archive: string, destination: string, includes: seq<string>, excludes: seq<string>)
      // a properties file stored with these entries
    | StoreProperties(file: string, entries: map<string, string>)
      // a file attached to the project under a type and classifier
    | Attach(artifactType: string, classifier: Option<string>, file: string)
      // a file copied to another place
    | Copy(source: string, target: string)

  /** One thing a goal does, in order: run a tool, change the file system, or throw. */
  datatype Step =
    | Call(name: string, showsCommand: bool, call: Invocation)
    | Do(effect: Effect)
    | Throw(failure: Failure)

  /** What can be observed of a goal: the tools it ran and the effects it had. */
  datatype Event = Ran(call: Invocation) | Did(effect: Effect)

  datatype Outcome = Completed(trace: seq<Event>) | Failed(trace: seq<Event>, failure: Failure)

  function Prefixed(events: seq<Event>, o: Outcome): (r: Outcome)
    ensures r.Completed? == o.Completed? && r.trace == events + o.trace
    ensures r.Failed? ==> r.failure == o.failure
  {
    match o
    case Completed(t) => Completed(events + t)
    case Failed(t, f) => Failed(events + t, f)
  }

  /** Performing the steps in order, stopping at the first throw or failing tool. */
  function Perform(steps: seq<Step>, tool: Tool): Outcome
    decreases |steps|
  {
    if |steps| == 0 then Completed([])
    else match steps[0]
      case Throw(f) => Failed([], f)
      case Do(e) => Prefixed([Did(e)], Perform(steps[1..], tool))
      case Call(name, shows, call) =>
        match RunFailure(name, shows, call, tool(call))
        case Some(f) => Failed([Ran(call)], f)
        case None => Prefixed([Ran(call)], Perform(steps[1..], tool))
  }

  /** A step goes through: it is not a throw and, when it is a tool call, the tool succeeds. */
  predicate Succeeds(step: Step, tool: Tool)
  {
    match step
    case Throw(_) => false
    case Do(_) => true
    case Call(name, shows, call) => RunFailure(name, shows, call, tool(call)).None?
  }

  function EventOf(step: Step): Event
    requires !step.Throw?
  {
    if step.Call? then Ran(step.call) else Did(step.effect)
  }

  /** The events of steps that all go through. */
  function Events(steps: seq<Step>): (r: seq<Event>)
    requires forall k :: 0 <= k < |steps| ==> !steps[k].Throw?
    ensures |r| == |steps|
    ensures forall k :: 0 <= k < |steps| ==> r[k] == EventOf(steps[k])
  {
    if |steps| == 0 then [] else [EventOf(steps[0])] + Events(steps[1..])
  }

  /** A goal completes exactly when every step goes through, and then its trace is every step. */
  lemma {:induction false} PerformCompletes(steps: seq<Step>, tool: Tool)
    ensures Perform(steps, tool).Completed? <==> forall k :: 0 <= k < |steps| ==> Succeeds(steps[k], tool)
    ensures Perform(steps, tool).Completed? ==> Perform(steps, tool).trace == Events(steps)
    decreases |steps|
  {
    if |steps| > 0 {
      PerformCompletes(steps[1..], tool);
      if Perform(steps, tool).Completed? {
        assert Succeeds(steps[0], tool);
        assert forall k :: 1 <= k < |steps| ==> steps[k] == steps[1..][k - 1];
      }
    }
  }

  /**
   * A goal fails at the first step that does not go through: it has done every earlier
   * step and then that one.
   */
  lemma {:induction false} PerformFailsAtFirst(steps: seq<Step>, tool: Tool, k: nat)
    requires k < |steps| && !Succeeds(steps[k], tool)
    requires forall m :: 0 <= m < k ==> !steps[m].Throw? && Succeeds(steps[m], tool)
    ensures Perform(steps, tool).Failed?
    ensures Perform(steps, tool).trace ==
      Events(steps[..k]) + (if steps[k].Call? then [Ran(steps[k].call)] else [])
    ensures steps[k].Throw? ==> Perform(steps, tool).failure == steps[k].failure
    ensures steps[k].Call? ==>
      Some(Perform(steps, tool).failure) == RunFailure(steps[k].name, steps[k].showsCommand, steps[k].call, tool(steps[k].call))
    decreases k
  {
    if k > 0 {
      assert steps[1..][k - 1] == steps[k];
      assert forall m :: 0 <= m < k - 1 ==> steps[1..][m] == steps[m + 1];
      PerformFailsAtFirst(steps[1..], tool, k - 1);
      assert Succeeds(steps[0], tool);
      assert steps[1..][..k - 1] == steps[..k][1..];
    }
  }

  function StepFailure(step: Step, tool: Tool): Option<Failure>
    requires step.Call?
  {
    RunFailure(step.name, step.showsCommand, step.call, tool(step.call))
  }

  /** Performing the steps from index i on, unfolded once. */
  lemma PerformAt(steps: seq<Step>, i: nat, tool: Tool)
    requires i < |steps|
    ensures steps[i].Throw? ==> Perform(steps[i..], tool) == Failed([], steps[i].failure)
    ensures steps[i].Do? ==> Perform(steps[i..], tool) == Prefixed([Did(steps[i].effect)], Perform(steps[i + 1..], tool))
    ensures steps[i].Call? && StepFailure(steps[i], tool).Some? ==>
      Perform(steps[i..], tool) == Failed([Ran(steps[i].call)], StepFailure(steps[i], tool).value)
    ensures steps[i].Call? && StepFailure(steps[i], tool).None? ==>
      Perform(steps[i..], tool) == Prefixed([Ran(steps[i].call)], Perform(steps[i + 1..], tool))
  {
    assert steps[i..][0] == steps[i] && steps[i..][1..] == steps[i + 1..];
  }

  lemma PrefixedTwice(a: seq<Event>, b: seq<Event>, o: Outcome)
    ensures Prefixed(a, Prefixed(b, o)) == Prefixed(a + b, o)
  {
    assert a + (b + o.trace) == (a + b) + o.trace;
  }

  /** Running a plan step by step. */
  method Run(steps: seq<Step>, tool: Tool) returns (r: Outcome)
    ensures r == Perform(steps, tool)
  {
    var trace: seq<Event> := [];
    var i := 0;
    assert steps[0..] == steps;
    while i < |steps|
      invariant 0 <= i <= |steps|
      invariant Perform(steps, tool) == Prefixed(trace, Perform(steps[i..], tool))
    {
      PerformAt(steps, i, tool);
      var step := steps[i];
      if step.Throw? {
        return Failed(trace, step.failure);
      } else if step.Do? {
        PrefixedTwice(trace, [Did(step.effect)], Perform(steps[i + 1..], tool));
        trace := trace + [Did(step.effect)];
      } else {
        var failure := RunFailure(step.name, step.showsCommand, step.call, tool(step.call));
        if failure.Some? {
          return Failed(trace + [Ran(step.call)], failure.value);
        }
        PrefixedTwice(trace, [Ran(step.call)], Perform(steps[i + 1..], tool));
        trace := trace + [Ran(step.call)];
      }
      i := i + 1;
    }
    assert steps[i..] == [];
    return Completed(trace);
  }

  /** Executing two plans one after the other. */
  lemma {:induction false} PerformConcat(a: seq<Step>, b: seq<Step>, tool: Tool)
    ensures Perform(a + b, tool) ==
      (if Perform(a, tool).Completed? then Prefixed(Perform(a, tool).trace, Perform(b, tool)) else Perform(a, tool))
    decreases |a|
  {
    if |a| == 0 {
      assert a + b == b;
    } else {
      assert (a + b)[0] == a[0] && (a + b)[1..] == a[1..] + b;
      PerformConcat(a[1..], b, tool);
      var rest := Perform(a[1..], tool);
      if a[0].Do? {
        if rest.Completed? {
          PrefixedTwice([Did(a[0].effect)], rest.trace, Perform(b, tool));
        }
      } else if a[0].Call? && StepFailure(a[0], tool).None? {
        if rest.Completed? {
          PrefixedTwice([Ran(a[0].call)], rest.trace, Perform(b, tool));
        }
      }
    }
  }
}
