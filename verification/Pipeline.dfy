// The goroutines of one send: the splitter hands volumes to a forwarder, the forwarder to a chain
// of upload stages (one per destination, several workers each), the last stage to a recorder; a
// finaliser writes the final manifest. They interleave freely and any of them can fail.
module Pipeline {
  import opened Common

  // pendingVolumes: how many volumes are in the pipeline; zero is closed when it first reaches 0.
  class PendingVolumes {
    var n: int
    var zero: bool

    constructor (start: int)
      ensures n == start && !zero
    {
      n := start;
      zero := false;
    }

    method Add()
      modifies this
      ensures n == old(n) + 1 && zero == old(zero)
    {
      n := n + 1;
    }

    method Done()
      modifies this
      ensures n == old(n) - 1
      ensures zero == (old(zero) || n == 0)
    {
      n := n - 1;
      if n == 0 {
        zero := true;
      }
    }
  }

  // Where a volume is. Queue(s) is the channel into stage s; Queue(stages) is the recorder's.
  // Lost is a volume whose stage failed or stopped.
  datatype Place =
    | InStart | Held | Queue(stage: nat) | Uploading(stage: nat) | Uploaded(stage: nat)
    | AtRecorder | Recorded | Lost

  datatype Splitter = Splitting | StreamClosed | StreamFailed

  datatype Finaliser = Waiting | Checked | Saved | Sent

  datatype State = State(
    stages: nat,
    cut: nat, places: map<nat, Place>, splitter: Splitter,
    forwarding: bool, pending: int, zero: bool,
    cancelled: bool,
    finaliser: Finaliser, manifest: Option<Place>,
    stored: set<(nat, nat)>, manifestStored: set<nat>)

  datatype Step =
    | CutVolume
    | CloseStream
    | FailStream
    | Cancel
    | Take(v: nat)
    | Put(v: nat)
    | StopForwarder
    | StartUpload(v: nat)
    | FinishUpload(v: nat)
    | LoseVolume(v: nat)
    | PassOn(v: nat)
    | Collect(v: nat)
    | RecordVolume(v: nat)
    | CheckFinal
    | SaveFinal
    | SendFinal
    | ManifestMove

  ghost predicate Init(s: State) {
    s == State(s.stages, 0, map[], Splitting, true, 1, false, false, Waiting, None, {}, {})
  }

  ghost predicate At(s: State, v: nat, place: Place) {
    v in s.places && s.places[v] == place
  }

  function Moved(s: State, v: nat, place: Place): (t: State) {
    s.(places := s.places[v := place])
  }

  // pending.done(), as PendingVolumes.Done does it.
  function CountedDown(s: State): (t: State) {
    s.(pending := s.pending - 1, zero := s.zero || s.pending - 1 == 0)
  }

  ghost predicate Drained(s: State) {
    forall v :: v in s.places ==> !s.places[v].InStart? && !s.places[v].Held?
  }

  ghost predicate Next(s: State, step: Step, t: State) {
    match step
    // A volume goes into startCh.
    case CutVolume =>
      s.splitter.Splitting? && t == Moved(s, s.cut + 1, InStart).(cut := s.cut + 1)
    // startCh is closed only when zfs send and the splitter both succeeded.
    case CloseStream => s.splitter.Splitting? && t == s.(splitter := StreamClosed)
    case FailStream => s.splitter.Splitting? && t == s.(splitter := StreamFailed)
    // Any failure, or a signal, cancels the context; it stays canceled.
    case Cancel => t == s.(cancelled := true)
    case Take(v) =>
      && s.forwarding && At(s, v, InStart)
      && (forall x :: x in s.places ==> !s.places[x].Held?)
      && t == Moved(s, v, Held).(pending := s.pending + 1)
    case Put(v) => s.forwarding && At(s, v, Held) && t == Moved(s, v, Queue(0))
    // The forwarder returns when startCh is closed and empty, or on a canceled context.
    case StopForwarder =>
      && s.forwarding
      && (s.cancelled || (s.splitter.StreamClosed? && Drained(s)))
      && t == CountedDown(s.(forwarding := false))
    case StartUpload(v) =>
      && v in s.places && s.places[v].Queue? && s.places[v].stage < s.stages
      && t == Moved(s, v, Uploading(s.places[v].stage))
    case FinishUpload(v) =>
      && v in s.places && s.places[v].Uploading?
      && t == Moved(s, v, Uploaded(s.places[v].stage)).(stored := s.stored + {(v, s.places[v].stage)})
    // An upload or a save failed for good, or a goroutine stopped on a canceled context.
    case LoseVolume(v) =>
      && v in s.places && !s.places[v].InStart? && !s.places[v].Recorded?
      && t == Moved(s, v, Lost)
    case PassOn(v) =>
      && v in s.places && s.places[v].Uploaded?
      && t == Moved(s, v, Queue(s.places[v].stage + 1))
    case Collect(v) => At(s, v, Queue(s.stages)) && t == Moved(s, v, AtRecorder)
    case RecordVolume(v) => At(s, v, AtRecorder) && t == CountedDown(Moved(s, v, Recorded))
    // The finaliser: pending.zero is closed, and the context, read after that, is not canceled.
    case CheckFinal =>
      s.finaliser.Waiting? && s.zero && !s.cancelled && t == s.(finaliser := Checked)
    case SaveFinal => s.finaliser.Checked? && t == s.(finaliser := Saved)
    case SendFinal => s.finaliser.Saved? && t == s.(finaliser := Sent, manifest := Some(Queue(0)))
    // The manifest takes the way of the volumes; a canceled pipeline never starts its upload.
    case ManifestMove =>
      && s.manifest.Some?
      && match s.manifest.value
         case Queue(k) =>
           && k < s.stages && !s.cancelled && t == s.(manifest := Some(Uploading(k)))
         case Uploading(k) =>
           t == s.(manifest := Some(Uploaded(k)), manifestStored := s.manifestStored + {k})
         case Uploaded(k) => t == s.(manifest := Some(Queue(k + 1)))
         case _ => false
  }

  // ---- The invariant ----

  // The volumes pending counts: past the forwarder's receive, not yet recorded.
  ghost function InFlight(s: State): set<nat> {
    set v | v in s.places && !s.places[v].InStart? && !s.places[v].Recorded?
  }

  // Stage k is behind a volume at this place.
  ghost predicate Behind(place: Place, stages: nat, k: nat) {
    match place
    case Queue(s) => k < s
    case Uploading(s) => k < s
    case Uploaded(s) => k <= s
    case AtRecorder => k < stages
    case Recorded => k < stages
    case _ => false
  }

  ghost predicate PlaceOk(place: Place, stages: nat) {
    match place
    case Queue(s) => s <= stages
    case Uploading(s) => s < stages
    case Uploaded(s) => s < stages
    case _ => true
  }

  // Stream ended cleanly, every volume is in the manifest.
  ghost predicate Complete(s: State) {
    && s.splitter.StreamClosed?
    && forall v :: v in s.places ==> s.places[v].Recorded?
  }

  ghost predicate Inv(s: State) {
    && (forall v :: v in s.places <==> 1 <= v <= s.cut)
    && (forall v :: v in s.places ==> PlaceOk(s.places[v], s.stages))
    && (forall v, k: nat :: v in s.places && Behind(s.places[v], s.stages, k) ==> (v, k) in s.stored)
    && s.pending == (if s.forwarding then 1 else 0) + |InFlight(s)|
    && (s.zero <==> s.pending == 0)
    && (!s.forwarding ==> s.cancelled || (s.splitter.StreamClosed? && Drained(s)))
    && (!s.finaliser.Waiting? ==> Complete(s))
    && (s.manifest.Some? ==> s.finaliser.Sent?)
    && (s.manifestStored != {} ==> s.manifest.Some?)
  }

  lemma InitHolds(s: State)
    requires Init(s)
    ensures Inv(s)
  {
    assert InFlight(s) == {};
  }

  lemma FlightSame(s: State, t: State)
    requires forall v :: v in t.places && !t.places[v].InStart? && !t.places[v].Recorded? <==>
                         v in s.places && !s.places[v].InStart? && !s.places[v].Recorded?
    ensures InFlight(t) == InFlight(s)
  {
  }

  // A volume that moves between two places that pending both counts.
  lemma MoveKeeps(s: State, t: State, v: nat, place: Place)
    requires Inv(s) && v in s.places
    requires !s.places[v].InStart? && !s.places[v].Recorded?
    requires !place.InStart? && !place.Recorded? && !place.Held? && PlaceOk(place, s.stages)
    requires t == Moved(s, v, place).(stored := t.stored) && s.stored <= t.stored
    requires forall k: nat :: Behind(place, s.stages, k) ==> (v, k) in t.stored
    ensures Inv(t)
  {
    FlightSame(s, t);
  }

  lemma SplitterKeeps(s: State, step: Step, t: State)
    requires Inv(s) && Next(s, step, t)
    requires step.CutVolume? || step.CloseStream? || step.FailStream? || step.Cancel?
    ensures Inv(t)
  {
    FlightSame(s, t);
    if step.CutVolume? && !s.forwarding {
      assert s.cancelled;
    }
  }

  lemma ForwarderKeeps(s: State, step: Step, t: State)
    requires Inv(s) && Next(s, step, t)
    requires step.Take? || step.Put? || step.StopForwarder?
    ensures Inv(t)
  {
    hide Inv;
    match step
    case Take(v) => TakeKeeps(s, v, t);
    case Put(v) => MoveKeeps(s, t, v, Queue(0));
    case StopForwarder => StopForwarderKeeps(s, t);
  }

  lemma TakeKeeps(s: State, v: nat, t: State)
    requires Inv(s) && Next(s, Take(v), t)
    ensures Inv(t)
  {
    assert InFlight(t) == InFlight(s) + {v};
  }

  lemma StopForwarderKeeps(s: State, t: State)
    requires Inv(s) && Next(s, StopForwarder, t)
    ensures Inv(t)
  {
    hide PlaceOk, Behind;
    FlightSame(s, t);
  }

  lemma StagesKeep(s: State, step: Step, t: State)
    requires Inv(s) && Next(s, step, t)
    requires step.StartUpload? || step.FinishUpload? || step.LoseVolume? || step.PassOn? || step.Collect?
    ensures Inv(t)
  {
    MoveKeeps(s, t, step.v, t.places[step.v]);
  }

  lemma RecorderKeeps(s: State, v: nat, t: State)
    requires Inv(s) && Next(s, RecordVolume(v), t)
    ensures Inv(t)
  {
    assert InFlight(t) == InFlight(s) - {v};
  }

  // What the finaliser knows when it goes on: pending hit zero and nobody had canceled.
  lemma ZeroMeansComplete(s: State)
    requires Inv(s) && s.zero && !s.cancelled
    ensures Complete(s)
  {
    assert InFlight(s) == {};
    forall v | v in s.places
      ensures s.places[v].Recorded?
    {
      assert v !in InFlight(s);
    }
  }

  lemma CheckFinalKeeps(s: State, step: Step, t: State)
    requires Inv(s) && Next(s, step, t) && step.CheckFinal?
    ensures Inv(t)
  {
    ZeroMeansComplete(s);
    FlightSame(s, t);
  }

  lemma FinaliserKeeps(s: State, step: Step, t: State)
    requires Inv(s) && Next(s, step, t)
    requires step.SaveFinal? || step.SendFinal? || step.ManifestMove?
    ensures Inv(t)
  {
    hide Next, PlaceOk, Behind;
    FinaliserMoves(s, step, t);
    FlightSame(s, t);
  }

  lemma FinaliserMoves(s: State, step: Step, t: State)
    requires Next(s, step, t) && (step.SaveFinal? || step.SendFinal? || step.ManifestMove?)
    ensures t == s.(finaliser := t.finaliser, manifest := t.manifest, manifestStored := t.manifestStored)
    ensures step.SaveFinal? ==> t.finaliser.Saved? && !s.finaliser.Waiting? && !s.finaliser.Sent?
    ensures step.SaveFinal? ==> t.manifest == s.manifest && t.manifestStored == s.manifestStored
    ensures step.SendFinal? ==> !s.finaliser.Waiting? && t.finaliser.Sent? && t.manifest.Some?
    ensures step.ManifestMove? ==> t.finaliser == s.finaliser && s.manifest.Some? && t.manifest.Some?
  {
  }

  lemma NextKeeps(s: State, step: Step, t: State)
    requires Inv(s) && Next(s, step, t)
    ensures Inv(t)
  {
    hide Inv, Next;
    if step.CutVolume? || step.CloseStream? || step.FailStream? || step.Cancel? {
      SplitterKeeps(s, step, t);
    } else if step.Take? || step.Put? || step.StopForwarder? {
      ForwarderKeeps(s, step, t);
    } else if step.StartUpload? || step.FinishUpload? || step.LoseVolume? || step.PassOn? || step.Collect? {
      StagesKeep(s, step, t);
    } else if step.RecordVolume? {
      RecorderKeeps(s, step.v, t);
    } else if step.CheckFinal? {
      CheckFinalKeeps(s, step, t);
    } else {
      FinaliserKeeps(s, step, t);
    }
  }

  // ---- What every interleaving guarantees ----

  ghost predicate Behaviour(states: seq<State>, steps: seq<Step>) {
    && |states| == |steps| + 1
    && Init(states[0])
    && forall i :: 0 <= i < |steps| ==> Next(states[i], steps[i], states[i + 1])
  }

  lemma {:induction false} InvAlong(states: seq<State>, steps: seq<Step>, k: nat)
    requires Behaviour(states, steps) && k < |states|
    ensures Inv(states[k])
  {
    hide Inv, Next, Init;
    if k == 0 {
      InitHolds(states[0]);
    } else {
      InvAlong(states, steps, k - 1);
      NextKeeps(states[k - 1], steps[k - 1], states[k]);
    }
  }

  // The final manifest exists, or is anywhere on its way to a destination.
  ghost predicate FinalManifestMade(s: State) {
    s.finaliser.Saved? || s.finaliser.Sent? || s.manifest.Some? || s.manifestStored != {}
  }

  // In every interleaving: once the final manifest is made, the stream had ended cleanly, and
  // every volume cut is recorded and stored by every stage.
  lemma PublishOnlyWhenComplete(states: seq<State>, steps: seq<Step>, k: nat)
    requires Behaviour(states, steps) && k < |states| && FinalManifestMade(states[k])
    ensures states[k].splitter.StreamClosed?
    ensures forall v :: 1 <= v <= states[k].cut ==> At(states[k], v, Recorded)
    ensures forall v, stage: nat :: 1 <= v <= states[k].cut && 0 <= stage < states[k].stages ==>
      (v, stage) in states[k].stored
  {
    var s := states[k];
    InvAlong(states, steps, k);
    assert Complete(s);
    forall v, stage: nat | 1 <= v <= s.cut && 0 <= stage < s.stages
      ensures (v, stage) in s.stored
    {
      assert At(s, v, Recorded) && Behind(s.places[v], s.stages, stage);
    }
  }

  // The finaliser can go on exactly when the stream was closed, the forwarder is done with it,
  // every volume is recorded and nothing canceled the run: never too early, and never stuck.
  lemma ReadyIffDone(states: seq<State>, steps: seq<Step>, k: nat)
    requires Behaviour(states, steps) && k < |states|
    ensures states[k].zero && !states[k].cancelled <==>
              Complete(states[k]) && !states[k].forwarding && !states[k].cancelled
  {
    var s := states[k];
    InvAlong(states, steps, k);
    if s.zero && !s.cancelled {
      ZeroMeansComplete(s);
    }
    if Complete(s) && !s.forwarding {
      assert InFlight(s) == {};
    }
  }

  // A forwarder that stopped because of a cancel may bring the count to zero; whatever happens
  // after it, no final manifest is made unless one was already allowed.
  lemma CancelNeverPublishes(states: seq<State>, steps: seq<Step>, i: nat, k: nat)
    requires Behaviour(states, steps) && i <= k < |states|
    requires states[i].cancelled && states[i].finaliser.Waiting?
    ensures states[k].cancelled && states[k].finaliser.Waiting? && !FinalManifestMade(states[k])
    decreases k
  {
    InvAlong(states, steps, k);
    if i < k {
      CancelNeverPublishes(states, steps, i, k - 1);
      assert Next(states[k - 1], steps[k - 1], states[k]);
    }
  }

  // ---- The counter object ----

  // Which calls a step makes on the counter: the forwarder adds a volume it takes, and counts itself
  // down when it returns; the recorder counts a recorded volume down.
  predicate CountsUp(step: Step) {
    step.Take?
  }

  predicate CountsDown(step: Step) {
    step.StopForwarder? || step.RecordVolume?
  }

  lemma CounterStep(s: State, step: Step, t: State)
    requires Next(s, step, t)
    ensures CountsUp(step) ==> t.pending == s.pending + 1 && t.zero == s.zero
    ensures CountsDown(step) ==> t.pending == s.pending - 1 && t.zero == (s.zero || t.pending == 0)
    ensures !CountsUp(step) && !CountsDown(step) ==> t.pending == s.pending && t.zero == s.zero
  {
  }

  // The object agrees with every interleaving: the calls the goroutines made leave in it one for a
  // running forwarder and one for each volume taken and not yet recorded, and it is closed exactly
  // when the forwarder is done and no such volume is left.
  method ReplayCounter(steps: seq<Step>, ghost states: seq<State>) returns (p: PendingVolumes)
    requires Behaviour(states, steps)
    ensures fresh(p)
    ensures var s := states[|steps|]; p.n == (if s.forwarding then 1 else 0) + |InFlight(s)|
    ensures var s := states[|steps|]; p.zero <==> !s.forwarding && InFlight(s) == {}
  {
    hide Next, Inv;
    p := new PendingVolumes(1);
    assert Init(states[0]);
    for i := 0 to |steps|
      invariant p.n == states[i].pending && p.zero == states[i].zero && fresh(p)
    {
      CounterStep(states[i], steps[i], states[i + 1]);
      if CountsUp(steps[i]) {
        p.Add();
      } else if CountsDown(steps[i]) {
        p.Done();
      }
    }
    InvAlong(states, steps, |steps|);
    InvCounts(states[|steps|]);
  }

  lemma InvCounts(s: State)
    requires Inv(s)
    ensures s.pending == (if s.forwarding then 1 else 0) + |InFlight(s)|
    ensures s.zero <==> !s.forwarding && InFlight(s) == {}
  {
  }

  // ---- Never stuck ----

  predicate OnItsWay(place: Place, stages: nat) {
    match place
    case Queue(k) => k <= stages
    case Uploading(k) => k < stages
    case Uploaded(k) => k < stages
    case _ => false
  }

  // A manifest that was sent is on its way through the stages.
  ghost predicate ManifestOk(s: State) {
    s.finaliser.Sent? ==> s.manifest.Some? && OnItsWay(s.manifest.value, s.stages)
  }

  lemma ManifestKeeps(s: State, step: Step, t: State)
    requires Next(s, step, t) && ManifestOk(s)
    ensures ManifestOk(t)
  {
  }

  lemma {:induction false} ManifestAlong(states: seq<State>, steps: seq<Step>, k: nat)
    requires Behaviour(states, steps) && k < |states|
    ensures ManifestOk(states[k])
  {
    hide Next, ManifestOk, Init;
    if k == 0 {
      assert ManifestOk(states[0]) by {
        ManifestStarts(states[0]);
      }
    } else {
      ManifestAlong(states, steps, k - 1);
      ManifestKeeps(states[k - 1], steps[k - 1], states[k]);
    }
  }

  lemma ManifestStarts(s: State)
    requires Init(s)
    ensures ManifestOk(s)
  {
  }

  // A step that nothing went wrong for.
  predicate GoesWell(step: Step) {
    !step.FailStream? && !step.Cancel? && !step.LoseVolume? && !step.CutVolume?
  }

  ghost predicate CanGoOn(s: State) {
    exists step, t :: GoesWell(step) && Next(s, step, t)
  }

  // A volume that is not recorded yet can move.
  lemma VolumeMoves(s: State, v: nat)
    requires Inv(s) && !s.cancelled && v in s.places && !s.places[v].Recorded? && !s.places[v].Lost?
    ensures CanGoOn(s)
  {
    match s.places[v]
    case InStart =>
      if x :| x in s.places && s.places[x].Held? {
        HeldMoves(s, x);
      } else {
        assert s.forwarding;
        assert Next(s, Take(v), Moved(s, v, Held).(pending := s.pending + 1));
      }
    case Held => HeldMoves(s, v);
    case Queue(k) =>
      if k < s.stages {
        assert Next(s, StartUpload(v), Moved(s, v, Uploading(k)));
      } else {
        assert Next(s, Collect(v), Moved(s, v, AtRecorder));
      }
    case Uploading(k) =>
      assert Next(s, FinishUpload(v), Moved(s, v, Uploaded(k)).(stored := s.stored + {(v, k)}));
    case Uploaded(k) => assert Next(s, PassOn(v), Moved(s, v, Queue(k + 1)));
    case AtRecorder => assert Next(s, RecordVolume(v), CountedDown(Moved(s, v, Recorded)));
  }

  lemma HeldMoves(s: State, v: nat)
    requires Inv(s) && !s.cancelled && v in s.places && s.places[v].Held?
    ensures CanGoOn(s)
  {
    assert s.forwarding;
    assert Next(s, Put(v), Moved(s, v, Queue(0)));
  }

  // With every volume recorded the finaliser goes on, and its manifest.
  lemma ManifestMoves(s: State)
    requires Inv(s) && ManifestOk(s) && !s.cancelled && Complete(s)
    requires s.manifest != Some(Queue(s.stages))
    ensures CanGoOn(s)
  {
    if s.forwarding {
      assert Drained(s);
      assert Next(s, StopForwarder, CountedDown(s.(forwarding := false)));
    } else if s.finaliser.Waiting? {
      assert InFlight(s) == {};
      assert Next(s, CheckFinal, s.(finaliser := Checked));
    } else if s.finaliser.Checked? {
      assert Next(s, SaveFinal, s.(finaliser := Saved));
    } else if s.finaliser.Saved? {
      assert Next(s, SendFinal, s.(finaliser := Sent, manifest := Some(Queue(0))));
    } else {
      match s.manifest.value
      case Queue(k) => assert Next(s, ManifestMove, s.(manifest := Some(Uploading(k))));
      case Uploading(k) =>
        assert Next(s, ManifestMove, s.(manifest := Some(Uploaded(k)), manifestStored := s.manifestStored + {k}));
      case Uploaded(k) => assert Next(s, ManifestMove, s.(manifest := Some(Queue(k + 1))));
    }
  }

  // In every interleaving in which nothing failed so far, something can go on until the final
  // manifest went through every stage.
  lemma NeverStuck(states: seq<State>, steps: seq<Step>, k: nat)
    requires Behaviour(states, steps) && k < |states|
    requires !states[k].cancelled && !states[k].splitter.StreamFailed?
    requires forall v :: v in states[k].places ==> !states[k].places[v].Lost?
    requires states[k].manifest != Some(Queue(states[k].stages))
    ensures CanGoOn(states[k])
  {
    hide Inv, ManifestOk, CanGoOn, Behaviour;
    var s := states[k];
    InvAlong(states, steps, k);
    ManifestAlong(states, steps, k);
    if s.splitter.Splitting? {
      StreamCloses(s);
    } else if v :| v in s.places && !s.places[v].Recorded? {
      VolumeMoves(s, v);
    } else {
      ManifestMoves(s);
    }
  }

  lemma StreamCloses(s: State)
    requires s.splitter.Splitting?
    ensures CanGoOn(s)
  {
    assert Next(s, CloseStream, s.(splitter := StreamClosed));
  }
}
