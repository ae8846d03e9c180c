// Runs of the hub put together from shorter runs.
module HubRuns {
  import opened HubModel

  lemma {:induction false} RunConcat(s: State, a: seq<Step>, b: seq<Step>)
    ensures Run(s, a + b) == Run(Run(s, a), b)
    decreases |a|
  {
    if a == [] {
      assert a + b == b;
    } else {
      assert (a + b)[0] == a[0] && (a + b)[1..] == a[1..] + b;
      RunConcat(Apply(s, a[0]), a[1..], b);
    }
  }

  lemma {:induction false} ThroughoutConcat(s: State, a: seq<Step>, b: seq<Step>, p: (State, Step) -> bool)
    requires Throughout(s, a, p) && Throughout(Run(s, a), b, p)
    ensures Throughout(s, a + b, p)
    decreases |a|
  {
    if a == [] {
      assert a + b == b;
    } else {
      assert (a + b)[0] == a[0] && (a + b)[1..] == a[1..] + b;
      ThroughoutConcat(Apply(s, a[0]), a[1..], b, p);
    }
  }

  lemma RunTwo(s: State, a: Step, b: Step)
    ensures Run(s, [a, b]) == Apply(Apply(s, a), b)
  {
    RunConcat(s, [a], [b]);
    assert [a] + [b] == [a, b];
    RunOne(s, a);
    RunOne(Apply(s, a), b);
  }

  lemma RunFour(s: State, a: Step, b: Step, c: Step, d: Step)
    ensures Run(s, [a, b, c, d]) == Apply(Apply(Apply(Apply(s, a), b), c), d)
  {
    RunConcat(s, [a, b], [c, d]);
    assert [a, b] + [c, d] == [a, b, c, d];
    RunTwo(s, a, b);
    RunTwo(Apply(Apply(s, a), b), c, d);
  }

  lemma RunOne(s: State, step: Step)
    ensures Run(s, [step]) == Apply(s, step)
  {
    assert [step][1..] == [];
  }

  /** One more step at the end of a run. */
  lemma RunThenStep(s: State, steps: seq<Step>, step: Step)
    ensures Run(s, steps + [step]) == Apply(Run(s, steps), step)
  {
    RunConcat(s, steps, [step]);
    RunOne(Run(s, steps), step);
  }

  /** A predicate of single steps holds along every run of such steps. */
  lemma {:induction false} ThroughoutOf(s: State, steps: seq<Step>, p: (State, Step) -> bool)
    requires forall t, step | step in steps :: p(t, step)
    ensures Throughout(s, steps, p)
    decreases |steps|
  {
    if steps != [] { ThroughoutOf(Apply(s, steps[0]), steps[1..], p); }
  }
}
