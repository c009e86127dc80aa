/** Runs put together step by step, and the small system from which example runs begin. */
module Runs {
  import opened Basics
  import opened Videos
  import opened Protocol

  lemma {:induction false} ExecAppend(start: State, steps: seq<Step>, step: Step)
    requires Valid(start, steps) && Enabled(Exec(start, steps), step)
    ensures Valid(start, steps + [step]) && Exec(start, steps + [step]) == Apply(Exec(start, steps), step)
    decreases |steps|
  {
    if steps == [] {
      assert [step][1..] == [];
    } else {
      ExecAppend(Apply(start, steps[0]), steps[1..], step);
      assert (steps + [step])[1..] == steps[1..] + [step];
    }
  }

  ghost predicate Reaches(start: State, s: State) {
    exists steps :: Valid(start, steps) && Exec(start, steps) == s
  }

  lemma Take(start: State, s: State, step: Step)
    requires Reaches(start, s) && Enabled(s, step)
    ensures Reaches(start, Apply(s, step))
  {
    var steps :| Valid(start, steps) && Exec(start, steps) == s;
    ExecAppend(start, steps, step);
  }

  lemma Nowhere(s: State)
    ensures Reaches(s, s)
  {
    assert Valid(s, []) && Exec(s, []) == s;
  }

  const UNSEEN: Video := Video(0, "", "", 0, 0)

  /** One video without views, an empty cache, no instance yet. */
  function Start(): State {
    var library := map[0 := UNSEEN];
    State(library, SECOND, 0, library, [], map[], None, None, [], [], 0, 0, 0)
  }
}
