/** app/worker.py: which outcome a run of a task has, told from the events alone: what its analysis
    returned and which calls raised. */
module TaskOutcomes {
  import opened TaskProtocol

  // ---- one run of a task ----

  /** Among these events the analysis of `w` went well and no call of `w` raised. */
  predicate WentWell(events: seq<Event>, w: Worker) {
    Analysed(w, Returned(true, true)) in events && Turn(w, true) !in events
  }

  /** There is an analysis of `w` among them. */
  ghost predicate Ran(events: seq<Event>, w: Worker) {
    exists a :: Analysed(w, a) in events
  }

  /** The end of a run in terms of the events since its load, of which `e` is the last. */
  ghost predicate FateIs(fate: Fate, events: seq<Event>, e: Event, w: Worker) {
    && (fate == Done(Success) <==> WentWell(events + [e], w))
    && (fate == Done(Failure) <==> Ran(events, w) && e == Turn(w, false) && !WentWell(events + [e], w))
    && (fate == Dropped <==> !Ran(events, w) && e == Turn(w, false))
    && (fate == Stranded <==> e == Turn(w, true))
  }

  /** What the events since the load say at the next call of `w`. */
  ghost predicate Known(c: Control, events: seq<Event>, w: Worker) {
    match c
    case SaveResult(_, outcome, serialisable) =>
      Ran(events, w) && Turn(w, true) !in events && (outcome == Success && serialisable <==> WentWell(events, w))
    case Unmark(_, outcome) => Ran(events, w) && Turn(w, true) !in events && (outcome == Success <==> WentWell(events, w))
    case File(_, outcome) => Ran(events, w) && Turn(w, true) !in events && (outcome == Success <==> WentWell(events, w))
    case FailHash(_) => Ran(events, w) && !WentWell(events, w)
    case FailUnmark(_) => Ran(events, w) && !WentWell(events, w)
    case FailFile(_) => Ran(events, w) && !WentWell(events, w)
    case _ => !Ran(events, w) && Turn(w, true) !in events
  }

  lemma RanNext(events: seq<Event>, e: Event, w: Worker)
    ensures Ran(events + [e], w) <==> Ran(events, w) || (e.Analysed? && e.worker == w)
  {
    if Ran(events, w) {
      var a :| Analysed(w, a) in events;
      assert Analysed(w, a) in events + [e];
    }
    if e.Analysed? && e.worker == w {
      assert Analysed(w, e.analysis) in events + [e];
    }
  }

  lemma WentWellRan(events: seq<Event>, w: Worker)
    ensures WentWell(events, w) ==> Ran(events, w)
  {
  }

  lemma OwnMove(s: State, events: seq<Event>, e: Event, w: Worker)
    requires s.Enabled(e) && s.Moves(e, w) && s.pc[w].Busy() && Known(s.pc[w], events, w)
    ensures w in s.Step(e).pc
    ensures s.Step(e).pc[w].Busy() ==> Known(s.Step(e).pc[w], events + [e], w) && s.Step(e).log == s.log
    ensures !s.Step(e).pc[w].Busy() ==>
              && |s.Step(e).log| == |s.log| + 1
              && FateIs(s.Step(e).log[|s.log|].fate, events, e, w)
  {
    RanNext(events, e, w);
    WentWellRan(events, w);
  }

  lemma OthersMove(s: State, events: seq<Event>, e: Event, w: Worker)
    requires s.Enabled(e) && !s.Moves(e, w) && w in s.pc && s.pc[w].Busy() && Known(s.pc[w], events, w)
    ensures w in s.Step(e).pc && s.Step(e).pc[w] == s.pc[w] && Known(s.pc[w], events + [e], w)
  {
    RanNext(events, e, w);
    s.OthersStay(e, w);
  }

  /** While `w` holds the id it loaded, the events since then account for its next call. */
  lemma {:induction false} KnownSince(s: State, events: seq<Event>, w: Worker, id: TaskId)
    requires w in s.pc && s.pc[w] == Load(id) && s.Runs(events)
    requires Settled(s.After(events).log, id) == Settled(s.log, id)
    ensures s.After(events).HeldBy(w, id) && Known(s.After(events).pc[w], events, w)
    decreases |events|
  {
    if events != [] {
      var front, e := events[..|events| - 1], events[|events| - 1];
      assert events == front + [e];
      SettledOnlyGrows(s, front, id);
      s.After(front).SettledGrows(e, id);
      KnownSince(s, front, w, id);
      HeldUntilSettled(s, events, w, id);
      if s.Moves(e, w) {
        OwnMove(s.After(front), front, e, w);
      } else {
        OthersMove(s.After(front), front, e, w);
      }
    }
  }

  /** How the run of an id ends that `w` just took: completed exactly when since then the analysis
      returned a good result and no call of `w` raised, stranded exactly when the last call raised,
      dropped exactly when nothing was analysed, failed otherwise. */
  lemma FateOfRun(s: State, events: seq<Event>, e: Event, w: Worker, id: TaskId)
    requires w in s.pc && s.pc[w] == Load(id) && s.Runs(events) && s.After(events).Enabled(e)
    requires Settled(s.After(events).log, id) == Settled(s.log, id) && s.Moves(e, w)
    requires s.After(events).Step(e).log != s.After(events).log
    ensures var log := s.After(events).Step(e).log;
            log != [] && log[|log| - 1].id == id && FateIs(log[|log| - 1].fate, events, e, w)
  {
    KnownSince(s, events, w, id);
    s.After(events).StepShape(e);
    OwnMove(s.After(events), events, e, w);
  }

  // ---- in stretches of events ----

  /** Nothing that `w` did between `before` and `mid` or between `mid` and `now` is lost. */
  lemma Stretches(before: seq<Event>, mid: seq<Event>, now: seq<Event>, w: Worker)
    requires before <= mid <= now
    ensures Turn(w, true) in now[|before|..] <==> Turn(w, true) in mid[|before|..] || Turn(w, true) in now[|mid|..]
    ensures forall a :: Analysed(w, a) in now[|before|..] <==> Analysed(w, a) in mid[|before|..] || Analysed(w, a) in now[|mid|..]
    ensures Ran(now[|before|..], w) <==> Ran(mid[|before|..], w) || Ran(now[|mid|..], w)
    ensures WentWell(mid[|before|..], w) && !Ran(now[|mid|..], w) && Turn(w, true) !in now[|mid|..] ==> WentWell(now[|before|..], w)
    ensures WentWell(now[|before|..], w) && !Ran(now[|mid|..], w) ==> WentWell(mid[|before|..], w) && Turn(w, true) !in now[|mid|..]
  {
    assert now[|before|..] == mid[|before|..] + now[|mid|..];
  }

  // ---- all runs of a task ----

  /** Worker `w` held `id` when the event with number `i` happened. */
  ghost predicate HeldAt(workers: set<Worker>, events: seq<Event>, i: nat, w: Worker, id: TaskId)
    requires i <= |events|
  {
    Start(workers).Runs(events[..i]) && Start(workers).After(events[..i]).HeldBy(w, id)
  }

  /** A call of `w` that raises, or an analysis of `w` without a good result. */
  predicate Fault(e: Event, w: Worker) {
    e == Turn(w, true) || (e.Analysed? && e.worker == w && e.analysis != Returned(true, true))
  }

  /** An analysis of `id` gave a good result. */
  ghost predicate Succeeded(workers: set<Worker>, events: seq<Event>, id: TaskId) {
    exists i, w {:trigger HeldAt(workers, events, i, w, id)} ::
      0 <= i < |events| && events[i] == Analysed(w, Returned(true, true)) && HeldAt(workers, events, i, w, id)
  }

  /** A worker had a fault while it held `id`. */
  ghost predicate Faulted(workers: set<Worker>, events: seq<Event>, id: TaskId) {
    exists i, w {:trigger HeldAt(workers, events, i, w, id)} ::
      0 <= i < |events| && Fault(events[i], w) && HeldAt(workers, events, i, w, id)
  }

  lemma SucceededGrows(workers: set<Worker>, front: seq<Event>, e: Event, id: TaskId)
    requires Succeeded(workers, front, id)
    ensures Succeeded(workers, front + [e], id)
  {
    var i, w :| 0 <= i < |front| && front[i] == Analysed(w, Returned(true, true)) && HeldAt(workers, front, i, w, id);
    assert (front + [e])[..i] == front[..i];
    assert HeldAt(workers, front + [e], i, w, id);
  }

  lemma FaultedGrows(workers: set<Worker>, front: seq<Event>, e: Event, id: TaskId)
    requires Faulted(workers, front, id)
    ensures Faulted(workers, front + [e], id)
  {
    var i, w :| 0 <= i < |front| && Fault(front[i], w) && HeldAt(workers, front, i, w, id);
    assert (front + [e])[..i] == front[..i];
    assert HeldAt(workers, front + [e], i, w, id);
  }

  lemma HappensNow(workers: set<Worker>, front: seq<Event>, e: Event, w: Worker, id: TaskId)
    requires Start(workers).Runs(front) && Start(workers).After(front).HeldBy(w, id)
    ensures e == Analysed(w, Returned(true, true)) ==> Succeeded(workers, front + [e], id)
    ensures Fault(e, w) ==> Faulted(workers, front + [e], id)
  {
    assert (front + [e])[..|front|] == front;
    assert HeldAt(workers, front + [e], |front|, w, id);
  }

  /** What must have happened to the id of a worker before this call. */
  predicate Accounted(c: Control, succeeded: bool, faulted: bool) {
    match c
    case SaveResult(_, outcome, serialisable) => if outcome == Success && serialisable then succeeded else faulted
    case Unmark(_, outcome) => if outcome == Success then succeeded else faulted
    case File(_, outcome) => if outcome == Success then succeeded else faulted
    case FailHash(_) => faulted
    case FailUnmark(_) => faulted
    case FailFile(_) => faulted
    case _ => true
  }

  lemma AccountedMove(s: State, e: Event, w: Worker, before: (bool, bool), after: (bool, bool))
    requires s.Enabled(e) && s.Moves(e, w) && s.pc[w].Busy() && Accounted(s.pc[w], before.0, before.1)
    requires before.0 || e == Analysed(w, Returned(true, true)) ==> after.0
    requires before.1 || Fault(e, w) ==> after.1
    ensures var t := s.Step(e);
            && w in t.pc && Accounted(t.pc[w], after.0, after.1)
            && (s.pc[w].id in t.completed ==> s.pc[w].id in s.completed || after.0)
            && (s.pc[w].id in t.failed ==> s.pc[w].id in s.failed || after.1)
  {
  }

  /** Every id that is filed or on its way to be filed has the history for it. */
  ghost predicate Explained(workers: set<Worker>, events: seq<Event>, s: State, id: TaskId) {
    && (id in s.completed ==> Succeeded(workers, events, id))
    && (id in s.failed ==> Faulted(workers, events, id))
    && forall w :: s.HeldBy(w, id) ==> Accounted(s.pc[w], Succeeded(workers, events, id), Faulted(workers, events, id))
  }

  lemma FilesOwn(s: State, e: Event, id: TaskId)
    requires s.Enabled(e) && !((e.Turn? || e.Analysed?) && s.HeldBy(e.worker, id))
    ensures id in s.Step(e).completed ==> id in s.completed
    ensures id in s.Step(e).failed ==> id in s.failed
  {
    s.StepFiles(e);
    s.StepShape(e);
  }

  lemma StepExplains(workers: set<Worker>, front: seq<Event>, s: State, e: Event, id: TaskId)
    requires Start(workers).Runs(front) && s == Start(workers).After(front) && s.Enabled(e)
    requires Explained(workers, front, s, id)
    ensures Explained(workers, front + [e], s.Step(e), id)
  {
    var t := s.Step(e);
    if Succeeded(workers, front, id) { SucceededGrows(workers, front, e, id); }
    if Faulted(workers, front, id) { FaultedGrows(workers, front, e, id); }
    var before := (Succeeded(workers, front, id), Faulted(workers, front, id));
    var after := (Succeeded(workers, front + [e], id), Faulted(workers, front + [e], id));
    if (e.Turn? || e.Analysed?) && s.HeldBy(e.worker, id) {
      HappensNow(workers, front, e, e.worker, id);
      AccountedMove(s, e, e.worker, before, after);
    } else {
      FilesOwn(s, e, id);
    }
    s.StepShape(e);
    forall w | t.HeldBy(w, id) ensures Accounted(t.pc[w], after.0, after.1) {
      if !s.Moves(e, w) && w in s.pc {
        s.OthersStay(e, w);
      }
    }
  }

  lemma {:induction false} RunExplains(workers: set<Worker>, events: seq<Event>, id: TaskId)
    requires Start(workers).Runs(events)
    ensures Explained(workers, events, Start(workers).After(events), id)
    decreases |events|
  {
    if events != [] {
      var front, e := events[..|events| - 1], events[|events| - 1];
      assert events == front + [e];
      RunExplains(workers, front, id);
      StepExplains(workers, front, Start(workers).After(front), e, id);
    }
  }

  /** An id is completed only by an analysis that returned a good result while its worker held it. */
  lemma CompletedBySuccess(workers: set<Worker>, events: seq<Event>, id: TaskId)
    requires Start(workers).Runs(events) && id in Start(workers).After(events).completed
    ensures exists i, w {:trigger HeldAt(workers, events, i, w, id)} ::
              0 <= i < |events| && HeldAt(workers, events, i, w, id) && events[i] == Analysed(w, Returned(true, true))
  {
    RunExplains(workers, events, id);
  }

  /** An id fails only by a call that raised while its worker held it, or by an analysis without a good
      result: when all of its analyses go well and no call raises, it never fails. */
  lemma FailedByFault(workers: set<Worker>, events: seq<Event>, id: TaskId)
    requires Start(workers).Runs(events) && id in Start(workers).After(events).failed
    ensures exists i, w {:trigger HeldAt(workers, events, i, w, id)} ::
              && 0 <= i < |events| && HeldAt(workers, events, i, w, id)
              && (events[i] == Turn(w, true)
                  || exists a :: a != Returned(true, true) && events[i] == Analysed(w, a))
  {
    RunExplains(workers, events, id);
    var i, w :| 0 <= i < |events| && Fault(events[i], w) && HeldAt(workers, events, i, w, id);
    assert events[i].Analysed? ==> events[i] == Analysed(w, events[i].analysis);
  }

  // ---- dropped runs ----

  /** As long as the hash of an id has not expired, the id is not dropped. */
  ghost predicate HashThere(s: State, id: TaskId) {
    && Entry(id, Dropped) !in s.log
    && (s.Active(id) ==> id in s.hash)
  }

  lemma HashKeptThere(s: State, e: Event, id: TaskId)
    requires s.Enabled(e) && e != Expire(id) && id in s.hash
    ensures id in s.Step(e).hash
  {
  }

  /** A run ends dropped only when the hash is gone. */
  lemma NotDropped(s: State, e: Event, id: TaskId)
    requires s.Enabled(e) && HashThere(s, id)
    ensures Entry(id, Dropped) !in s.Step(e).log
  {
    if e.Turn? && s.pc[e.worker].Busy() {
      assert s.HeldBy(e.worker, s.pc[e.worker].id);
    }
  }

  lemma HashStays(s: State, e: Event, id: TaskId)
    requires s.OnePlace() && s.Enabled(e) && e != Expire(id) && HashThere(s, id)
    ensures HashThere(s.Step(e), id)
  {
    var t := s.Step(e);
    NotDropped(s, e, id);
    s.StepShape(e);
    s.ActiveHere(e, t);
    if id in s.hash {
      HashKeptThere(s, e, id);
    } else if t.Active(id) && e != Save(id) && (t.log == s.log || t.log[|t.log| - 1].id != id) {
      s.ActiveElsewhere(e, t, id);
    }
  }

  /** A run is dropped only when the hash of its id expired. */
  lemma {:induction false} DroppedByExpiry(workers: set<Worker>, events: seq<Event>, id: TaskId)
    requires Start(workers).Runs(events) && Expire(id) !in events
    ensures HashThere(Start(workers).After(events), id)
    decreases |events|
  {
    if events != [] {
      var front, e := events[..|events| - 1], events[|events| - 1];
      DroppedByExpiry(workers, front, id);
      Safe(workers, front);
      HashStays(Start(workers).After(front), e, id);
    }
  }
}
