/**
 The simulator.Learner interface (internal/simulator/simulator.go:147-153): any
 deterministic learner is a state, one step per observed transfer, and two
 readings of that state. Everything proved over a Beliefs value holds for every
 learner, so for the three of internal/learner in particular.
 */
module Learning {
  /** Transfer sizes: Observe is only ever called with bytes > 0. */
  type Positive = r: real | r > 0.0 witness 1.0

  datatype Beliefs<!L> = Beliefs(
    observe: (L, Positive, real) -> L,
    startup: L -> real,
    secondsPerByte: L -> real
  ) {
    /** How long the learner expects a transfer to take. */
    function Predict(l: L, bytes: real): real {
      startup(l) + bytes * secondsPerByte(l)
    }

    /** The learner after a whole history of transfers, oldest first. */
    function Taught(l: L, history: seq<Sample>): L {
      if history == [] then l
      else
        var last := history[|history| - 1];
        observe(Taught(l, history[..|history| - 1]), last.bytes, last.seconds)
    }

    lemma {:induction false} TaughtOneMore(l: L, history: seq<Sample>, p: Sample)
      ensures Taught(l, history + [p]) == observe(Taught(l, history), p.bytes, p.seconds)
    {
      assert (history + [p])[..|history|] == history;
    }
  }

  datatype Sample = Sample(bytes: Positive, seconds: real)

  /** A learner object, shared and changed in place by whoever holds it. */
  class Learner<L> {
    const beliefs: Beliefs<L>
    var state: L

    constructor (beliefs: Beliefs<L>, state: L)
      ensures this.beliefs == beliefs && this.state == state
    {
      this.beliefs := beliefs;
      this.state := state;
    }

    method Observe(bytes: Positive, seconds: real)
      modifies this
      ensures state == beliefs.observe(old(state), bytes, seconds)
    {
      state := beliefs.observe(state, bytes, seconds);
    }
  }
}
