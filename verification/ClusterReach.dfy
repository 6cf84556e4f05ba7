/** Which worlds a run of the Cluster protocol can get to. */
module ClusterReach {
  import opened ClusterLifecycle

  /** Every step can happen where it happens. */
  ghost predicate Possible(w: World, steps: seq<Step>)
    decreases |steps|
  {
    steps == [] || (Enabled(w, steps[0]) && Possible(Apply(w, steps[0]), steps[1..]))
  }

  lemma {:induction false} PossibleConcat(w: World, a: seq<Step>, b: seq<Step>)
    requires Possible(w, a) && Possible(Run(w, a), b)
    ensures Possible(w, a + b)
    decreases |a|
  {
    if a == [] {
      assert a + b == b;
    } else {
      assert (a + b)[0] == a[0] && (a + b)[1..] == a[1..] + b;
      PossibleConcat(Apply(w, a[0]), a[1..], b);
    }
  }

  /** There is a run from one world to another. */
  ghost predicate Leads(w: World, w': World) {
    exists steps :: Possible(w, steps) && Run(w, steps) == w'
  }

  lemma OneStep(w: World, s: Step, w': World)
    requires Enabled(w, s) && Apply(w, s) == w'
    ensures Leads(w, w')
  {
    assert [s][1..] == [];
    assert Possible(w', []) && Run(w', []) == w';
    assert Possible(w, [s]) && Run(w, [s]) == w';
  }

  lemma Chain(w: World, w1: World, w2: World)
    requires Leads(w, w1) && Leads(w1, w2)
    ensures Leads(w, w2)
  {
    var a :| Possible(w, a) && Run(w, a) == w1;
    var b :| Possible(w1, b) && Run(w1, b) == w2;
    PossibleConcat(w, a, b);
    RunConcat(w, a, b);
  }
}
