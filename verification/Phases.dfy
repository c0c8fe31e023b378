/** Phases of an action. */
module Phases {
  datatype Phase =
    | Unspecified | Queued | Initializing | Running | Paused
    | Succeeded | Failed | Aborted | TimedOut | Recovered

  /** isTerminalPhase */
  predicate Terminal(p: Phase) {
    p.Succeeded? || p.Failed? || p.Aborted? || p.TimedOut? || p.Recovered?
  }

  /** An action is over in every phase but those in which it waits or works. */
  lemma OverExactly(p: Phase)
    ensures Terminal(p) <==> p !in {Unspecified, Queued, Initializing, Running, Paused}
  {
  }
}
