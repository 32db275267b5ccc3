// Stretches of behaviours.
module ProtocolPaths {
  import opened Manifests
  import opened Protocol

  ghost predicate Path(w: World, states: seq<State>, steps: seq<Step>) {
    |states| == |steps| + 1 && forall i :: 0 <= i < |steps| ==> Next(w, states[i], steps[i], states[i + 1])
  }

  // Some steps lead from s to t.
  ghost predicate Leads(w: World, s: State, t: State) {
    exists states: seq<State>, steps: seq<Step> ::
      Path(w, states, steps) && states[0] == s && states[|states| - 1] == t
  }

  lemma LeadsNowhere(w: World, s: State)
    ensures Leads(w, s, s)
  {
    assert Path(w, [s], []);
  }

  lemma LeadsOn(w: World, s: State, t: State, step: Step, u: State)
    requires Leads(w, s, t) && Next(w, t, step, u)
    ensures Leads(w, s, u)
  {
    hide Next;
    var states: seq<State>, steps: seq<Step> :|
      Path(w, states, steps) && states[0] == s && states[|states| - 1] == t;
    var more, along := states + [u], steps + [step];
    forall i | 0 <= i < |along|
      ensures Next(w, more[i], along[i], more[i + 1])
    {
      assert i < |steps| ==> more[i] == states[i] && along[i] == steps[i] && more[i + 1] == states[i + 1];
    }
    assert Path(w, more, along) && more[0] == s && more[|more| - 1] == u;
  }
}
