/** Finite runs of a transition system, built one state at a time. */
module Runs {

  datatype Run<S> = Start(s: S) | Then(before: Run<S>, s: S)

  /** `later` is `run` continued by any steps. */
  ghost predicate Continues<S>(run: Run<S>, later: Run<S>) {
    later == run || (later.Then? && Continues(run, later.before))
  }

  /** Every continuation so far goes on: nothing of the run is taken back. */
  ghost predicate Grew<S(!new)>(run: Run<S>, later: Run<S>) {
    forall r :: Continues(r, run) ==> Continues(r, later)
  }
}
