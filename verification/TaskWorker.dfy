/** app/worker.py, the code of one worker: process_task and worker_loop as they are written, over a
    Redis that clients and the other workers use at the same time. */
module TaskWorker {
  import opened Common
  import opened TaskProtocol
  import opened TaskOutcomes

  /** The keys in Redis and the stop events, changed call by call, and where everybody is. */
  class Cluster {
    const workers: set<Worker>
    var hash: map<TaskId, Status>
    var ready: seq<TaskId>
    var processing: set<TaskId>
    var completed: set<TaskId>
    var failed: set<TaskId>
    var stops: set<Worker>
    var pc: map<Worker, Control>
    var saved: set<TaskId>
    var enqueued: multiset<TaskId>
    var log: seq<Entry>
    /** Everything that happened so far. */
    ghost var run: seq<Event>

    function View(): State
      reads this
    {
      State(hash, ready, processing, completed, failed, stops, pc, saved, enqueued, log)
    }

    /** The current state is the one that the protocol reaches by the events so far. */
    ghost predicate Valid()
      reads this
    {
      Start(workers).Runs(run) && Start(workers).After(run) == View()
    }

    constructor (workers: set<Worker>)
      ensures Valid() && this.workers == workers && run == []
      ensures forall w :: w in workers ==> w in pc && pc[w].Top?
    {
      this.workers := workers;
      hash, ready, processing, completed, failed := map[], [], {}, {}, {};
      stops, saved, enqueued, log, run := {}, {}, multiset{}, [], [];
      pc := map w | w in workers :: Top;
    }

    /** Since `before`, others moved, and then `e` happened. */
    ghost predicate Happened(before: seq<Event>, w: Worker, e: Event)
      reads this
    {
      && before < run && run[|run| - 1] == e
      && forall i :: |before| <= i < |run| - 1 ==> !View().Moves(run[i], w)
    }

    /** The events since `before`. */
    ghost function Since(before: seq<Event>): seq<Event>
      requires before <= run
      reads this
    {
      run[|before|..]
    }

    /** The only move of `w` in them is the last event. */
    lemma OneMove(before: seq<Event>, w: Worker, e: Event)
      requires Happened(before, w, e) && View().Moves(e, w)
      ensures Ran(Since(before), w) <==> e.Analysed?
      ensures Turn(w, true) in Since(before) <==> e == Turn(w, true)
      ensures Analysed(w, Returned(true, true)) in Since(before) <==> e == Analysed(w, Returned(true, true))
    {
      assert Since(before)[|Since(before)| - 1] == e;
      assert forall i :: 0 <= i < |Since(before)| - 1 ==> Since(before)[i] == run[|before| + i];
      if e.Analysed? {
        assert Analysed(w, e.analysis) in Since(before);
      }
    }

    /** Bring up to date what an event changes outside Redis. */
    method Record(s: State, e: Event)
      requires Start(workers).Runs(run) && Start(workers).After(run) == s && s.Enabled(e)
      requires var t := s.Step(e);
               && hash == t.hash && ready == t.ready && stops == t.stops
               && processing == t.processing && completed == t.completed && failed == t.failed
      modifies `pc, `saved, `enqueued, `log, `run
      ensures Valid() && View() == s.Step(e) && run == old(run) + [e]
      ensures |log| > |s.log| ==> !View().Active(log[|s.log|].id)
    {
      var t := s.Step(e);
      EndedIsIdle(workers, run, e);
      pc, saved, enqueued, log := t.pc, t.saved, t.enqueued, t.log;
      run := run + [e];
      assert run[..|run| - 1] == old(run);
    }

    /** A client or another worker does a step of its own. */
    method OtherStep(w: Worker, e: Event)
      requires Valid() && w in pc && View().Enabled(e) && !View().Moves(e, w)
      modifies this
      ensures Valid() && run == old(run) + [e] && w in pc && pc[w] == old(pc[w])
    {
      var s := View();
      var t := s.Step(e);
      s.OthersStay(e, w);
      hash, ready, stops := t.hash, t.ready, t.stops;
      processing, completed, failed := t.processing, t.completed, t.failed;
      Record(s, e);
    }

    /** Clients and other workers do any number of steps. */
    method Interfere(w: Worker)
      requires Valid() && w in pc
      modifies this
      ensures Valid() && w in pc && pc[w] == old(pc[w])
      ensures old(run) <= run && forall i :: |old(run)| <= i < |run| ==> !View().Moves(run[i], w)
    {
      var n: int := *;
      while n > 0
        invariant Valid() && w in pc && pc[w] == old(pc[w])
        invariant old(run) <= run && forall i :: |old(run)| <= i < |run| ==> !View().Moves(run[i], w)
      {
        var e: Event := *;
        if View().Enabled(e) && !View().Moves(e, w) {
          OtherStep(w, e);
        }
        n := n - 1;
      }
    }

    // ---- Redis calls of worker `w` ----

    method BLPop(w: Worker) returns (raised: bool, item: Option<TaskId>)
      requires Valid() && w in pc && pc[w].Pop?
      modifies this
      ensures Valid() && Happened(old(run), w, Turn(w, raised)) && w in pc
      ensures raised ==> item.None?
      ensures pc[w] == if item.Some? then Load(item.value) else Top
    {
      Interfere(w);
      var s := View();
      raised, item := *, None;
      if !raised && ready != [] {
        item := Some(ready[0]);
        ready := ready[1..];
      }
      Record(s, Turn(w, raised));
    }

    method HGetAll(w: Worker, id: TaskId) returns (raised: bool, found: bool)
      requires Valid() && w in pc && pc[w] == Load(id)
      modifies this
      ensures Valid() && Happened(old(run), w, Turn(w, raised)) && w in pc
      ensures if raised then EndedHere(w, id, Stranded)
              else if found then pc[w] == MarkHash(id) else EndedHere(w, id, Dropped)
      ensures found <==> !raised && id in hash
    {
      Interfere(w);
      var s := View();
      raised := *;
      found := !raised && id in hash;
      Record(s, Turn(w, raised));
    }

    /** The calls of `w` that write the status of `id`, file it under its outcome, or remove it from `processing`. */
    predicate WritesStatus(w: Worker, id: TaskId, status: Status)
      reads this
    {
      && w in pc
      && ((pc[w] == MarkHash(id) && status == Processing) || (pc[w] == FailHash(id) && status == Failed))
    }

    predicate Files(w: Worker, id: TaskId, outcome: Outcome)
      reads this
    {
      w in pc && (pc[w] == File(id, outcome) || (pc[w] == FailFile(id) && outcome == Failure))
    }

    predicate Removes(w: Worker, id: TaskId)
      reads this
    {
      w in pc && ((pc[w].Unmark? && pc[w].id == id) || pc[w] == FailUnmark(id))
    }

    /** An error in this call leads to the handler, or else out of process_task. */
    ghost predicate Failing(w: Worker, id: TaskId, call: Control)
      reads this
    {
      w in pc && if call.Unprotected() then EndedHere(w, id, Stranded) else pc[w] == FailHash(id)
    }

    method HSet(w: Worker, id: TaskId, status: Status) returns (raised: bool)
      requires Valid() && WritesStatus(w, id, status)
      modifies this
      ensures Valid() && Happened(old(run), w, Turn(w, raised)) && w in pc
      ensures if raised then Failing(w, id, old(pc[w]))
              else pc[w] == if status == Processing then MarkSet(id) else FailUnmark(id)
    {
      Interfere(w);
      var s := View();
      raised := *;
      if !raised {
        hash := hash[id := status];
      }
      Record(s, Turn(w, raised));
    }

    /** The result goes through json.dumps before anything is written. */
    method HSetResult(w: Worker, id: TaskId, outcome: Outcome, serialisable: bool) returns (raised: bool)
      requires Valid() && w in pc && pc[w] == SaveResult(id, outcome, serialisable)
      modifies this
      ensures Valid() && Happened(old(run), w, Turn(w, raised)) && w in pc
      ensures !serialisable ==> raised
      ensures if raised then Failing(w, id, old(pc[w])) else pc[w] == Unmark(id, outcome)
    {
      Interfere(w);
      var s := View();
      raised := *;
      raised := raised || !serialisable;
      if !raised {
        hash := hash[id := StatusOf(outcome)];
      }
      Record(s, Turn(w, raised));
    }

    method SAddProcessing(w: Worker, id: TaskId) returns (raised: bool)
      requires Valid() && w in pc && pc[w] == MarkSet(id)
      modifies this
      ensures Valid() && Happened(old(run), w, Turn(w, raised)) && w in pc
      ensures if raised then Failing(w, id, old(pc[w])) else pc[w] == Run(id)
    {
      Interfere(w);
      var s := View();
      raised := *;
      if !raised {
        processing := processing + {id};
      }
      Record(s, Turn(w, raised));
    }

    /** Add the id to the set `completed` or to the set `failed`. */
    method SAddResult(w: Worker, outcome: Outcome, id: TaskId) returns (raised: bool)
      requires Valid() && Files(w, id, outcome)
      modifies this
      ensures Valid() && Happened(old(run), w, Turn(w, raised)) && w in pc
      ensures if raised then Failing(w, id, old(pc[w])) else EndedHere(w, id, Done(outcome))
    {
      Interfere(w);
      var s := View();
      raised := *;
      if !raised {
        if outcome == Success {
          completed := completed + {id};
        } else {
          failed := failed + {id};
        }
      }
      Record(s, Turn(w, raised));
    }

    method SRem(w: Worker, id: TaskId) returns (raised: bool)
      requires Valid() && Removes(w, id)
      modifies this
      ensures Valid() && Happened(old(run), w, Turn(w, raised)) && w in pc
      ensures if raised then Failing(w, id, old(pc[w]))
              else pc[w] == if old(pc[w]).Unmark? then File(id, old(pc[w]).outcome) else FailFile(id)
    {
      Interfere(w);
      var s := View();
      raised := *;
      if !raised {
        processing := processing - {id};
      }
      Record(s, Turn(w, raised));
    }

    /** The run of `id` ended with the last event. */
    ghost predicate EndedHere(w: Worker, id: TaskId, fate: Fate)
      reads this
    {
      w in pc && pc[w] == Top && log != [] && log[|log| - 1] == Entry(id, fate) && !View().Active(id)
    }

    // ---- the worker's own code ----

    /** Lines 70 to 155: everything up to the status and the result to be saved. */
    method Analyse(w: Worker, id: TaskId) returns (raised: bool, outcome: Outcome, serialisable: bool)
      requires Valid() && w in pc && pc[w] == Run(id)
      modifies this
      ensures Valid() && w in pc
      ensures exists a :: Happened(old(run), w, Analysed(w, a))
      ensures pc[w] == if raised then FailHash(id) else SaveResult(id, outcome, serialisable)
      ensures Ran(Since(old(run)), w) && Turn(w, true) !in Since(old(run))
      ensures WentWell(Since(old(run)), w) <==> !raised && outcome == Success && serialisable
    {
      Interfere(w);
      var s := View();
      var a: Analysis := *;
      raised, outcome, serialisable := false, Failure, true;
      match a {
        case Returned(success, json) =>
          serialisable := json;
          if success {
            outcome := Success;
          }
        case Empty =>
        case AnalysisRaised =>
        case Aborted => raised := true;
      }
      Record(s, Analysed(w, a));
      OneMove(old(run), w, Analysed(w, a));
    }

    /** Lines 70 to 168, the try body; true when an exception leaves it. */
    method TryBody(w: Worker, id: TaskId) returns (raised: bool)
      requires Valid() && w in pc && pc[w] == Run(id)
      modifies this
      ensures Valid() && old(run) < run && w in pc
      ensures if raised then pc[w] == FailHash(id)
              else EndedHere(w, id, Done(Success)) || EndedHere(w, id, Done(Failure))
      ensures Ran(Since(old(run)), w)
      ensures EndedHere(w, id, Done(Success)) <==> WentWell(Since(old(run)), w)
    {
      var outcome, serialisable;
      raised, outcome, serialisable := Analyse(w, id);
      if raised { return; }
      ghost var analysed := run;
      raised := SaveAndFile(w, id, outcome, serialisable);
      Stretches(old(run), analysed, run, w);
    }

    /** Lines 157 to 168. */
    method SaveAndFile(w: Worker, id: TaskId, outcome: Outcome, serialisable: bool) returns (raised: bool)
      requires Valid() && w in pc && pc[w] == SaveResult(id, outcome, serialisable)
      modifies this
      ensures Valid() && old(run) < run && w in pc
      ensures if raised then pc[w] == FailHash(id) else EndedHere(w, id, Done(outcome))
      ensures !serialisable ==> raised
      ensures !Ran(Since(old(run)), w) && (raised <==> Turn(w, true) in Since(old(run)))
    {
      raised := HSetResult(w, id, outcome, serialisable);
      OneMove(old(run), w, Turn(w, raised));
      if raised { return; }
      ghost var saved := run;
      raised := SRem(w, id);
      OneMove(saved, w, Turn(w, raised));
      Stretches(old(run), saved, run, w);
      if raised { return; }
      ghost var removed := run;
      raised := SAddResult(w, outcome, id);
      OneMove(removed, w, Turn(w, raised));
      Stretches(old(run), removed, run, w);
    }

    /** Lines 172 to 181, the handler; true when an exception leaves it. */
    method Handler(w: Worker, id: TaskId) returns (raised: bool)
      requires Valid() && w in pc && pc[w] == FailHash(id)
      modifies this
      ensures Valid() && old(run) < run
      ensures EndedHere(w, id, if raised then Stranded else Done(Failure))
      ensures !Ran(Since(old(run)), w)
    {
      raised := HSet(w, id, Failed);
      OneMove(old(run), w, Turn(w, raised));
      if raised { return; }
      ghost var written := run;
      raised := SRem(w, id);
      OneMove(written, w, Turn(w, raised));
      Stretches(old(run), written, run, w);
      if raised { return; }
      ghost var removed := run;
      raised := SAddResult(w, Failure, id);
      OneMove(removed, w, Turn(w, raised));
      Stretches(old(run), removed, run, w);
    }

    /** process_task: the run of `id` ends with the last event, stranded exactly when an exception leaves. */
    method ProcessTask(w: Worker, id: TaskId) returns (raised: bool)
      requires Valid() && w in pc && pc[w] == Load(id)
      modifies this
      ensures Valid() && old(run) < run && w in pc && pc[w] == Top
      ensures raised ==> EndedHere(w, id, Stranded)
      ensures !raised ==> EndedHere(w, id, Dropped) || EndedHere(w, id, Done(Success)) || EndedHere(w, id, Done(Failure))
      ensures forall outcome :: EndedHere(w, id, Done(outcome)) ==>
                && id in (if outcome == Success then completed else failed)
                && (id in hash ==> hash[id] == StatusOf(outcome))
                && id !in processing
      ensures EndedHere(w, id, Done(Success)) <==> WentWell(Since(old(run)), w)
      ensures !raised ==> (EndedHere(w, id, Dropped) <==> !Ran(Since(old(run)), w))
    {
      raised := RunTask(w, id);
      Safe(workers, run);
      forall outcome | EndedHere(w, id, Done(outcome))
        ensures id in (if outcome == Success then completed else failed)
        ensures id in hash ==> hash[id] == StatusOf(outcome)
        ensures id !in processing
      {
        OutcomesRecorded(workers, run, id, outcome);
        assert Entry(id, Done(outcome)) in log;
      }
    }

    method RunTask(w: Worker, id: TaskId) returns (raised: bool)
      requires Valid() && w in pc && pc[w] == Load(id)
      modifies this
      ensures Valid() && old(run) < run && w in pc && pc[w] == Top
      ensures raised ==> EndedHere(w, id, Stranded)
      ensures !raised ==> EndedHere(w, id, Dropped) || EndedHere(w, id, Done(Success)) || EndedHere(w, id, Done(Failure))
      ensures EndedHere(w, id, Done(Success)) <==> WentWell(Since(old(run)), w)
      ensures !raised ==> (EndedHere(w, id, Dropped) <==> !Ran(Since(old(run)), w))
    {
      var marked;
      raised, marked := Mark(w, id);
      if raised || !marked { return; }
      ghost var begun := run;
      raised := TryBody(w, id);
      Stretches(old(run), begun, run, w);
      if raised {
        ghost var tried := run;
        raised := Handler(w, id);
        Stretches(old(run), tried, run, w);
      }
    }

    /** Lines 58 to 67; `marked` when the task is there. */
    method Mark(w: Worker, id: TaskId) returns (raised: bool, marked: bool)
      requires Valid() && w in pc && pc[w] == Load(id)
      modifies this
      ensures Valid() && old(run) < run && w in pc
      ensures if raised then EndedHere(w, id, Stranded)
              else if marked then pc[w] == Run(id) else EndedHere(w, id, Dropped)
      ensures !Ran(Since(old(run)), w) && (raised <==> Turn(w, true) in Since(old(run)))
    {
      raised, marked := HGetAll(w, id);
      OneMove(old(run), w, Turn(w, raised));
      if raised || !marked { return; }
      ghost var loaded := run;
      raised := HSet(w, id, Processing);
      OneMove(loaded, w, Turn(w, raised));
      Stretches(old(run), loaded, run, w);
      if raised { return; }
      ghost var written := run;
      raised := SAddProcessing(w, id);
      OneMove(written, w, Turn(w, raised));
      Stretches(old(run), written, run, w);
    }

    method IsStopped(w: Worker) returns (stopped: bool)
      requires Valid() && w in pc && pc[w] == Top
      modifies this
      ensures Valid() && Happened(old(run), w, Turn(w, false)) && w in pc
      ensures pc[w] == if stopped then Stopped else Pop
      ensures stopped <==> w in stops
    {
      Interfere(w);
      var s := View();
      stopped := w in stops;
      Record(s, Turn(w, false));
    }

    /** worker_loop, for at most `rounds` rounds. An error of process_task ends the round, not the loop. */
    method WorkerLoop(w: Worker, rounds: nat) returns (stopped: bool)
      requires Valid() && w in pc && pc[w] == Top
      modifies this
      ensures Valid() && old(run) <= run && w in pc
      ensures pc[w] == if stopped then Stopped else Top
      ensures stopped ==> w in stops
    {
      stopped := false;
      var n := 0;
      while n < rounds
        invariant Valid() && old(run) <= run && w in pc && pc[w] == Top
      {
        n := n + 1;
        stopped := IsStopped(w);
        if stopped { return; }
        var raised, item := BLPop(w);
        if raised || item.None? { continue; }
        raised := ProcessTask(w, item.value);
      }
    }
  }
}
