/** The worker thread that runs one command for the training manager: it runs
    the command once, logs an `Exception` instead of passing it on, and then
    reports to the manager that the command has ended. An `Error` (a
    `Throwable` that is not an `Exception`) is not caught: it ends the thread
    before the end is reported. */
module Background {
  import opened Wrappers
  import opened TrainingManager

  /** The observable steps of a worker run. */
  datatype Step = RunCommand | LogError | ReportEnded

  /** How the command left `run()`: it returned, threw an `Exception`, or
      threw an `Error`. */
  datatype Outcome = Returned | ThrewException | ThrewError

  /** The steps of a run with the given outcome. */
  function Trace(o: Outcome): (t: seq<Step>)
    ensures |t| > 0 && t[0] == RunCommand && multiset(t)[RunCommand] == 1
    ensures ReportEnded in t <==> !o.ThrewError?
    ensures ReportEnded in t ==> multiset(t)[ReportEnded] == 1 && t[|t| - 1] == ReportEnded
    ensures LogError in t <==> o.ThrewException?
    ensures forall i :: 0 <= i < |t| && t[i] == LogError ==> 0 < i < |t| - 1
  {
    match o
    case Returned => [RunCommand, ReportEnded]
    case ThrewException => [RunCommand, LogError, ReportEnded]
    case ThrewError => [RunCommand]
  }

  class Worker {
    const parent: Manager
    const processor: Command

    constructor(parent: Manager, processor: Command)
      ensures this.parent == parent && this.processor == processor
    {
      this.parent := parent;
      this.processor := processor;
    }

    /** Runs the command, which posts `posted` to the display thread while it
        runs and then ends as `o` says. An `Exception` is only logged, and
        then, as after a normal return, the manager is told once that the
        command ended, after the command's own runnables. An `Error` leaves
        the method at once: the manager keeps its worker and no re-enable
        runnable is queued. */
    method Run(posted: seq<Event>, o: Outcome) returns (steps: seq<Step>)
      modifies parent
      ensures steps == Trace(o)
      ensures parent.Shown() == old(parent.Shown())
      ensures !o.ThrewError? ==>
        parent.State() == old(parent.State()).(backgrounder := None, queue := old(parent.queue) + posted + [Enable])
      ensures o.ThrewError? ==>
        parent.State() == old(parent.State()).(queue := old(parent.queue) + posted)
    {
      // The command's progress callbacks post their runnables.
      parent.queue := parent.queue + posted;
      steps := [RunCommand];
      if o.ThrewError? {
        return;
      }
      if o.ThrewException? {
        steps := steps + [LogError];
      }
      parent.ReportCommandEnded();
      steps := steps + [ReportEnded];
    }
  }
}
