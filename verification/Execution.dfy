/**
 One job on a daemon: when its command is launched, which result each ending gives,
 and which report that result becomes.
 */
module Execution {
  import opened Wrappers
  import Decimal

  /** The daemon's result, without the output path, which reports do not carry. */
  datatype Result = Result(exitCode: Option<int>, error: string, cancelled: bool)

  const CANCELLED_BY_USER := "Job cancelled by user"
  const RESTARTED := "Worker restarted; previous outcome unknown"

  const EXITED := "Process exited with code "

  /** How a launched command ends: by itself, or stopped because its context ended. */
  datatype Ending =
    | Exited(code: int, waitError: Option<string>)
    | Interrupted(byUser: bool, code: int)

  /** Waiting for a command reports no error exactly when it exited with code 0; an error has a text. */
  predicate Possible(ending: Ending) {
    ending.Exited? ==> (ending.waitError.None? <==> ending.code == 0) && ending.waitError != Some("")
  }

  function TruncateError(message: string): string {
    if |message| > 4096 then message[..4096] else message
  }

  /** byUser is None while the context runs, otherwise whether the user ended it. */
  function CancellationResult(byUser: Option<bool>, fallback: string): Result {
    if byUser == Some(true) then Result(None, CANCELLED_BY_USER, true) else Result(None, fallback, false)
  }

  function ProcessResult(code: int, waitError: Option<string>): Result {
    match waitError
    case None => Result(Some(code), "", false)
    case Some(message) =>
      Result(Some(code), EXITED + Decimal.Print(code) + ": " + TruncateError(message), false)
  }

  function ResultOf(ending: Ending): Result {
    match ending
    case Exited(code, waitError) => ProcessResult(code, waitError)
    case Interrupted(byUser, code) =>
      // A command trapping TERM may exit zero, but was still interrupted.
      var result := CancellationResult(Some(byUser), "Worker shut down during execution");
      if code != 0 then result.(exitCode := Some(code)) else result
  }

  /** The result a restarted daemon reports for the assignment it finds. */
  const RECOVERY := Result(None, RESTARTED, false)

  /** Whether the result goes to the complete endpoint rather than the fail endpoint. */
  predicate ReportsSuccess(r: Result) {
    r.exitCode == Some(0) && r.error == ""
  }

  /** What the controller's body schemas ask of a report: complete takes exit code 0, fail any other code and a text. */
  predicate Reportable(r: Result) {
    if ReportsSuccess(r) then true else r.exitCode != Some(0) && r.error != ""
  }

  /** A result of a job whose command was not launched. */
  predicate NotLaunched(r: Result) {
    r.exitCode.None? && r.error != ""
  }

  /** Whether an accepted report makes the daemon stop its remote work. */
  predicate PausesRemote(r: Result) {
    !r.cancelled && (r.exitCode.None? || r.exitCode != Some(0) || r.error != "")
  }

  /** Only a clean exit with code 0, not stopped from outside, is reported as a success. */
  lemma OnlyCleanExitSucceeds(ending: Ending)
    requires Possible(ending)
    ensures ReportsSuccess(ResultOf(ending)) <==> ending == Exited(0, None)
    ensures Reportable(ResultOf(ending))
    ensures ResultOf(ending).cancelled <==> ending.Interrupted? && ending.byUser
    ensures PausesRemote(ResultOf(ending)) <==> !(ending == Exited(0, None)) && !(ending.Interrupted? && ending.byUser)
  {
    if ending.Exited? && ending.waitError.Some? {
      assert ResultOf(ending).error[..1] == "P";
    }
  }

  /** The exit code that an ending leaves: a command that was interrupted but exits zero shows none. */
  ghost predicate CodeOf(ending: Ending, exitCode: Option<int>) {
    if ending.Interrupted? && ending.code == 0 then exitCode.None? else exitCode == Some(ending.code)
  }

  /** The result carries the command's own exit code, and the reason of an interruption. */
  lemma ResultTellsEnding(ending: Ending)
    requires Possible(ending)
    ensures CodeOf(ending, ResultOf(ending).exitCode)
    ensures ending.Exited? ==> (ResultOf(ending).error == "" <==> ending.code == 0)
    ensures ending.Exited? && ending.waitError.Some? ==>
              Decimal.Print(ending.code) + ": " + TruncateError(ending.waitError.value) <= ResultOf(ending).error[|EXITED|..] &&
              EXITED <= ResultOf(ending).error
    ensures ending.Interrupted? ==>
              ResultOf(ending).error == if ending.byUser then CANCELLED_BY_USER else "Worker shut down during execution"
  {
    if ending.Exited? && ending.waitError.Some? {
      var rest := Decimal.Print(ending.code) + ": " + TruncateError(ending.waitError.value);
      assert ResultOf(ending).error == EXITED + rest;
      assert (EXITED + rest)[|EXITED|..] == rest;
    }
  }

  /**
   The report's error may have 4096 characters. A result keeps to that, unless a failed wait
   had a text so long that the prefix, which is added after truncating, goes past it.
   */
  lemma ErrorFitsIff(ending: Ending)
    ensures |ResultOf(ending).error| <= 4096 <==>
            !(ending.Exited? && ending.waitError.Some? &&
              |ending.waitError.value| > 4096 - |EXITED + Decimal.Print(ending.code) + ": "|)
  {
    if ending.Exited? && ending.waitError.Some? {
      var front := EXITED + Decimal.Print(ending.code) + ": ";
      assert ResultOf(ending).error == front + TruncateError(ending.waitError.value);
    }
  }

  datatype OutputReply = OutputAccepted | OutputDisabled | OutputRefused(error: string)

  /**
   What executing one job meets: whether its context has ended at each of the three checks
   (and if so whether by the user), and how each step of the outside world goes.
   */
  datatype World = World(
    endedFirst: Option<bool>,
    fileError: Option<string>,
    output: OutputReply,
    endedAfterOutput: Option<bool>,
    endedAtStart: Option<bool>,
    startError: Option<string>,
    ending: Ending)

  /** Error texts are not empty, and endings are ones that can occur. */
  predicate Realistic(w: World) {
    Possible(w.ending) && w.startError != Some("")
  }

  /** Whether the user stopped the execution, at its start or while the command ran. */
  predicate StoppedByUser(w: World) {
    if w.endedAtStart.Some? then w.endedAtStart == Some(true)
    else w.startError.None? && w.ending.Interrupted? && w.ending.byUser
  }

  method ExecuteJob(command: seq<string>, remote: bool, w: World) returns (result: Result, launched: bool)
    requires Realistic(w)
    ensures launched <==>
              w.endedFirst.None? && command != [] && w.fileError.None? &&
              (w.output.OutputAccepted? || (remote && w.output.OutputDisabled?)) &&
              w.endedAtStart.None? && w.startError.None?
    ensures launched ==> result == ResultOf(w.ending)
    ensures !launched ==> NotLaunched(result) && !ReportsSuccess(result)
    ensures Reportable(result)
    ensures ReportsSuccess(result) <==> launched && w.ending == Exited(0, None)
    ensures launched ==> CodeOf(w.ending, result.exitCode)
    ensures w.endedFirst.None? && command == [] ==> result == Result(None, "Empty command", false)
    ensures w.endedFirst.None? && command != [] && w.fileError.Some? ==>
              result.error <= "Create command output file: " + w.fileError.value
    ensures w.endedFirst == Some(false) ==> result.error == "Worker shut down before execution"
    ensures result.cancelled ==> result.error == CANCELLED_BY_USER
    ensures result.cancelled <==>
            if w.endedFirst.Some? then w.endedFirst == Some(true)
            else if command == [] || w.fileError.Some? then false
            else if !w.output.OutputAccepted? && !(remote && w.output.OutputDisabled?) then w.endedAfterOutput == Some(true)
            else StoppedByUser(w)
  {
    launched := false;
    if w.endedFirst.Some? {
      result := CancellationResult(w.endedFirst, "Worker shut down before execution");
      return;
    }
    if command == [] {
      result := Result(None, "Empty command", false);
      return;
    }
    if w.fileError.Some? {
      result := Result(None, TruncateError("Create command output file: " + w.fileError.value), false);
      assert result.error[0] == 'C';
      return;
    }
    if !w.output.OutputAccepted? && !(remote && w.output.OutputDisabled?) {
      var reason := if w.output.OutputRefused? then w.output.error else "remote work disabled until restart";
      var fallback := TruncateError("Report output path: " + reason);
      assert fallback[0] == 'R';
      result := CancellationResult(w.endedAfterOutput, fallback);
      return;
    }
    result, launched := Execute(command, w);
  }

  method Execute(command: seq<string>, w: World) returns (result: Result, launched: bool)
    requires Realistic(w) && command != []
    ensures launched <==> w.endedAtStart.None? && w.startError.None?
    ensures launched ==> result == ResultOf(w.ending)
    ensures !launched ==> NotLaunched(result)
    ensures Reportable(result)
    ensures ReportsSuccess(result) <==> launched && w.ending == Exited(0, None)
    ensures launched ==> CodeOf(w.ending, result.exitCode)
    ensures !launched && w.endedAtStart.None? ==> w.startError.Some? && result.error <= w.startError.value
    ensures result.cancelled ==> result.error == CANCELLED_BY_USER
    ensures result.cancelled <==> StoppedByUser(w)
  {
    launched := false;
    if w.endedAtStart.Some? {
      result := CancellationResult(w.endedAtStart, "Worker shutting down");
      return;
    }
    if w.startError.Some? {
      result := Result(None, TruncateError(w.startError.value), false);
      return;
    }
    launched := true;
    OnlyCleanExitSucceeds(w.ending);
    ResultTellsEnding(w.ending);
    match w.ending {
      case Exited(code, waitError) =>
        result := ProcessResult(code, waitError);
      case Interrupted(byUser, code) =>
        result := CancellationResult(Some(byUser), "Worker shut down during execution");
        if code != 0 {
          result := result.(exitCode := Some(code));
        }
    }
  }
}
