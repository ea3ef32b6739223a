/** Runs of a transition system: the worlds passed through and the event that led from each to the next. */
module Runs {

  datatype Run<W, E> = Run(worlds: seq<W>, events: seq<E>)

  /** The `n`-th event is a step. */
  ghost predicate StepAt<W, E>(run: Run<W, E>, step: (W, E, W) -> bool, n: nat)
    requires n < |run.events| && |run.worlds| == |run.events| + 1
  {
    step(run.worlds[n], run.events[n], run.worlds[n + 1])
  }

  ghost predicate Follows<W, E>(run: Run<W, E>, step: (W, E, W) -> bool) {
    && |run.worlds| == |run.events| + 1
    && forall n :: 0 <= n < |run.events| ==> StepAt(run, step, n)
  }

  function Last<W, E>(run: Run<W, E>): W
    requires |run.worlds| > 0
  {
    run.worlds[|run.worlds| - 1]
  }

  /** `later` is `run` continued. */
  ghost predicate Continues<W, E>(run: Run<W, E>, later: Run<W, E>) {
    run.worlds <= later.worlds && run.events <= later.events
  }

  function Start<W, E>(w: W): Run<W, E> {
    Run([w], [])
  }

  ghost function Append<W, E>(run: Run<W, E>, step: (W, E, W) -> bool, e: E, w: W): (later: Run<W, E>)
    requires Follows(run, step) && step(Last(run), e, w)
    ensures Follows(later, step) && Last(later) == w && Continues(run, later) && later.worlds[0] == run.worlds[0]
    ensures later == Run(run.worlds + [w], run.events + [e])
  {
    AppendedFollows(run, step, e, w);
    Run(run.worlds + [w], run.events + [e])
  }

  lemma AppendedFollows<W, E>(run: Run<W, E>, step: (W, E, W) -> bool, e: E, w: W)
    requires Follows(run, step) && step(Last(run), e, w)
    ensures Follows(Run(run.worlds + [w], run.events + [e]), step)
  {
    var later := Run(run.worlds + [w], run.events + [e]);
    forall n | 0 <= n < |later.events|
      ensures StepAt(later, step, n)
    {
      if n < |run.events| {
        assert StepAt(run, step, n);
        assert later.worlds[n] == run.worlds[n] && later.worlds[n + 1] == run.worlds[n + 1];
      }
    }
  }
}
