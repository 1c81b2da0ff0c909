/** app/worker.py: several workers share the ready list, a hash per task and the sets `processing`,
    `completed` and `failed`. Every Redis call is one atomic step that succeeds or raises without
    effect; the steps of the workers interleave in any order. */
module TaskProtocol {

  type TaskId = nat
  type Worker = nat

  datatype Status = Queued | Processing | Completed | Failed
  datatype Outcome = Success | Failure

  /** What the lines between marking a task and saving its result come to: a result that can or
      cannot be turned into JSON, no result, an error of the analysis, an error anywhere else. */
  datatype Analysis =
    | Returned(success: bool, serialisable: bool)
    | Empty
    | AnalysisRaised
    | Aborted

  /** The next call of a worker. */
  datatype Control =
    | Top | Stopped | Pop
    | Load(id: TaskId) | MarkHash(id: TaskId) | MarkSet(id: TaskId)
    | Run(id: TaskId) | SaveResult(id: TaskId, outcome: Outcome, serialisable: bool)
    | Unmark(id: TaskId, outcome: Outcome) | File(id: TaskId, outcome: Outcome)
    | FailHash(id: TaskId) | FailUnmark(id: TaskId) | FailFile(id: TaskId)
  {
    predicate Busy() {
      !Top? && !Stopped? && !Pop?
    }

    /** Calls outside the try body: an error in one of them leaves process_task. */
    predicate Unprotected() {
      Load? || MarkHash? || MarkSet? || FailHash? || FailUnmark? || FailFile?
    }

    /** Between adding the id to `processing` and removing it again. */
    predicate Marked() {
      Run? || SaveResult? || Unmark?
    }

    predicate InFlight() {
      Marked() || FailHash? || FailUnmark?
    }

    /** An upper bound on the moves a worker still makes before it stops, once it was told to. */
    function Left(): nat {
      match this
      case Stopped => 0 case Top => 1
      case FailFile(_) => 2 case FailUnmark(_) => 3 case FailHash(_) => 4
      case File(_, _) => 5 case Unmark(_, _) => 6 case SaveResult(_, _, _) => 7
      case Run(_) => 8 case MarkSet(_) => 9 case MarkHash(_) => 10 case Load(_) => 11
      case Pop => 12
    }
  }

  /** How one enqueued run of an id ends. */
  datatype Fate = Done(outcome: Outcome) | Dropped | Stranded
  datatype Entry = Entry(id: TaskId, fate: Fate)

  datatype Event =
    | Save(id: TaskId)
    | Push(id: TaskId)
    | Expire(id: TaskId)
    | Stop(worker: Worker)
    | Turn(worker: Worker, raised: bool)
    | Analysed(worker: Worker, analysis: Analysis)

  function StatusOf(outcome: Outcome): Status {
    match outcome
    case Success => Completed
    case Failure => Failed
  }

  /** How many runs of `id` have ended. */
  function Settled(log: seq<Entry>, id: TaskId): nat {
    if log == [] then 0
    else Settled(log[..|log| - 1], id) + if log[|log| - 1].id == id then 1 else 0
  }

  /** How the latest run of `id` ended. */
  predicate Latest(log: seq<Entry>, id: TaskId, fate: Fate) {
    log != [] &&
    if log[|log| - 1].id == id then log[|log| - 1].fate == fate
    else Latest(log[..|log| - 1], id, fate)
  }

  lemma LatestStep(log: seq<Entry>, last: Entry, id: TaskId, fate: Fate)
    ensures Latest(log + [last], id, fate) <==> if last.id == id then last.fate == fate else Latest(log, id, fate)
  {
    assert (log + [last])[..|log|] == log;
  }

  /** `saved`: hash written, not yet pushed; `enqueued`: how often an id was enqueued; `log`: the runs
      that ended, oldest first. The remaining fields are the keys in Redis and the workers. */
  datatype State = State(
    hash: map<TaskId, Status>,
    ready: seq<TaskId>,
    processing: set<TaskId>,
    completed: set<TaskId>,
    failed: set<TaskId>,
    stops: set<Worker>,
    pc: map<Worker, Control>,
    saved: set<TaskId>,
    enqueued: multiset<TaskId>,
    log: seq<Entry>)
  {
    predicate HeldBy(w: Worker, id: TaskId) {
      w in pc && pc[w].Busy() && pc[w].id == id
    }

    predicate InFlightBy(w: Worker, id: TaskId) {
      HeldBy(w, id) && pc[w].InFlight()
    }

    predicate Held(id: TaskId) {
      exists w {:trigger HeldBy(w, id)} :: w in pc && HeldBy(w, id)
    }

    predicate Active(id: TaskId) {
      id in saved || id in ready || Held(id)
    }

    // ---- steps ----

    function Goto(w: Worker, next: Control): State {
      this.(pc := pc[w := next])
    }

    function Settle(w: Worker, id: TaskId, fate: Fate): State {
      this.(pc := pc[w := Top], log := log + [Entry(id, fate)])
    }

    /** An id is enqueued again only after its previous run ended; each worker stops only its own loop. */
    predicate Enabled(e: Event) {
      match e
      case Save(id) => !Active(id)
      case Push(id) => id in saved
      case Expire(id) => true
      case Stop(w) => true
      case Turn(w, raised) => w in pc && !pc[w].Run?
      case Analysed(w, a) => w in pc && pc[w].Run?
    }

    /** Lines 188 to 194: the loop test and the pop, which yields nothing when the list stays empty. */
    function LoopTurn(w: Worker, raised: bool): State
      requires w in pc && !pc[w].Busy()
    {
      match pc[w]
      case Top => Goto(w, if w in stops then Stopped else Pop)
      case Pop =>
        if raised || ready == [] then Goto(w, Top)
        else this.(ready := ready[1..]).Goto(w, Load(ready[0]))
      case _ => this
    }

    /** Lines 58 to 67: any error here strands the task. */
    function MarkTurn(w: Worker, raised: bool): State
      requires w in pc && (pc[w].Load? || pc[w].MarkHash? || pc[w].MarkSet?)
    {
      var id := pc[w].id;
      if raised then Settle(w, id, Stranded)
      else match pc[w]
        case Load(_) => if id in hash then Goto(w, MarkHash(id)) else Settle(w, id, Dropped)
        case MarkHash(_) => this.(hash := hash[id := Processing]).Goto(w, MarkSet(id))
        case _ => this.(processing := processing + {id}).Goto(w, Run(id))
    }

    /** Lines 157 to 168: any error here leads to the handler. */
    function ResultTurn(w: Worker, raised: bool): State
      requires w in pc && (pc[w].SaveResult? || pc[w].Unmark? || pc[w].File?)
    {
      var id, outcome := pc[w].id, pc[w].outcome;
      if raised || (pc[w].SaveResult? && !pc[w].serialisable) then Goto(w, FailHash(id))
      else match pc[w]
        case SaveResult(_, _, _) => this.(hash := hash[id := StatusOf(outcome)]).Goto(w, Unmark(id, outcome))
        case Unmark(_, _) => this.(processing := processing - {id}).Goto(w, File(id, outcome))
        case _ =>
          if outcome.Success? then this.(completed := completed + {id}).Settle(w, id, Done(outcome))
          else this.(failed := failed + {id}).Settle(w, id, Done(outcome))
    }

    /** Lines 172 to 181, the handler. */
    function HandlerTurn(w: Worker, raised: bool): State
      requires w in pc && (pc[w].FailHash? || pc[w].FailUnmark? || pc[w].FailFile?)
    {
      var id := pc[w].id;
      if raised then Settle(w, id, Stranded)
      else match pc[w]
        case FailHash(_) => this.(hash := hash[id := Failed]).Goto(w, FailUnmark(id))
        case FailUnmark(_) => this.(processing := processing - {id}).Goto(w, FailFile(id))
        case _ => this.(failed := failed + {id}).Settle(w, id, Done(Failure))
    }

    /** Lines 70 to 155. */
    function AnalysisTurn(w: Worker, a: Analysis): State
      requires w in pc && pc[w].Run?
    {
      var id := pc[w].id;
      match a
      case Returned(success, serialisable) =>
        Goto(w, SaveResult(id, if success then Success else Failure, serialisable))
      case Empty => Goto(w, SaveResult(id, Failure, true))
      case AnalysisRaised => Goto(w, SaveResult(id, Failure, true))
      case Aborted => Goto(w, FailHash(id))
    }

    function Step(e: Event): State
      requires Enabled(e)
    {
      match e
      case Save(id) => this.(hash := hash[id := Queued], saved := saved + {id}, enqueued := enqueued + multiset{id})
      case Push(id) => this.(ready := [id] + ready, saved := saved - {id})
      case Expire(id) => this.(hash := hash - {id})
      case Stop(w) => this.(stops := stops + {w})
      case Analysed(w, a) => AnalysisTurn(w, a)
      case Turn(w, raised) =>
        if !pc[w].Busy() then LoopTurn(w, raised)
        else if pc[w].Load? || pc[w].MarkHash? || pc[w].MarkSet? then MarkTurn(w, raised)
        else if pc[w].SaveResult? || pc[w].Unmark? || pc[w].File? then ResultTurn(w, raised)
        else HandlerTurn(w, raised)
    }

    // ---- what every step keeps ----

    ghost predicate OnePlace() {
      && (forall w, v :: w in pc && v in pc && w != v && pc[w].Busy() && pc[v].Busy() ==> pc[w].id != pc[v].id)
      && (forall w :: w in pc && pc[w].Busy() ==> pc[w].id !in ready && pc[w].id !in saved)
      && (forall i, j :: 0 <= i < j < |ready| ==> ready[i] != ready[j])
      && (forall i :: 0 <= i < |ready| ==> ready[i] !in saved)
    }

    ghost predicate Conserved() {
      forall id :: enqueued[id] == Settled(log, id) + if Active(id) then 1 else 0
    }

    ghost predicate SetsMatchLog() {
      && (forall id :: id in completed <==> Entry(id, Done(Success)) in log)
      && (forall id :: id in failed <==> Entry(id, Done(Failure)) in log)
    }

    ghost predicate ProcessingHeld() {
      && (forall w :: w in pc && pc[w].Marked() ==> pc[w].id in processing)
      && (forall w :: w in pc && (pc[w].File? || pc[w].FailFile?) ==> pc[w].id !in processing)
      && (forall id :: id in processing ==> Entry(id, Stranded) in log || exists w :: InFlightBy(w, id))
    }

    /** An id whose latest run finished is out of `processing`, until a worker marks it again. */
    ghost predicate FinishedUnmarked() {
      forall id, outcome :: Latest(log, id, Done(outcome)) && id in processing ==> exists w :: InFlightBy(w, id)
    }

    /** What the hash of a held id says, as long as it has not expired. */
    ghost predicate HashOfHeld(c: Control)
      requires c.Busy()
    {
      c.id in hash ==>
        match c
        case Load(_) => hash[c.id] == Queued
        case MarkHash(_) => hash[c.id] == Queued
        case MarkSet(_) => hash[c.id] == Processing
        case Run(_) => hash[c.id] == Processing
        case SaveResult(_, _, _) => hash[c.id] == Processing
        case Unmark(_, outcome) => hash[c.id] == StatusOf(outcome)
        case File(_, outcome) => hash[c.id] == StatusOf(outcome)
        case FailHash(_) => !hash[c.id].Queued?
        case FailUnmark(_) => hash[c.id] == Failed
        case FailFile(_) => hash[c.id] == Failed
    }

    ghost predicate HashOfIdle(id: TaskId) {
      id in hash ==>
        || Latest(log, id, Stranded)
        || (Latest(log, id, Done(Success)) && hash[id] == Completed)
        || (Latest(log, id, Done(Failure)) && hash[id] == Failed)
    }

    ghost predicate HashAgrees() {
      && (forall w :: w in pc && pc[w].Busy() ==> HashOfHeld(pc[w]))
      && (forall id :: id in hash && (id in saved || id in ready) ==> hash[id] == Queued)
      && (forall id :: !Active(id) ==> HashOfIdle(id))
    }

    ghost predicate Inv() {
      OnePlace() && Conserved() && SetsMatchLog() && ProcessingHeld() && FinishedUnmarked() && HashAgrees()
    }

    // ---- every step keeps the invariant ----

    /** Worker `w` goes on with what it has, or without anything. */
    ghost predicate GoesOn(t: State, w: Worker) {
      && w in pc && w in t.pc && t.pc == pc[w := t.pc[w]]
      && t.pc[w].Busy() == pc[w].Busy() && (pc[w].Busy() ==> t.pc[w].id == pc[w].id)
      && t.ready == ready && t.log == log
    }

    ghost predicate TakesFirst(t: State, w: Worker) {
      && w in pc && w in t.pc && t.pc == pc[w := t.pc[w]]
      && !pc[w].Busy() && t.pc[w].Load?
      && ready != [] && t.ready == ready[1..] && t.pc[w].id == ready[0] && t.log == log
    }

    ghost predicate Settles(t: State, w: Worker) {
      && w in pc && w in t.pc && t.pc == pc[w := t.pc[w]]
      && pc[w].Busy() && !t.pc[w].Busy() && t.ready == ready
      && |t.log| == |log| + 1 && t.log[..|log|] == log && t.log[|log|].id == pc[w].id
    }

    /** Where the ids are after an event. */
    ghost predicate Shape(e: Event, t: State) {
      match e
      case Save(id) => t.pc == pc && t.ready == ready && t.saved == saved + {id} && t.log == log
      case Push(id) => t.pc == pc && t.ready == [id] + ready && t.saved == saved - {id} && t.log == log
      case Expire(_) => t.pc == pc && t.ready == ready && t.saved == saved && t.log == log
      case Stop(_) => t.pc == pc && t.ready == ready && t.saved == saved && t.log == log
      case Turn(w, _) => t.saved == saved && (GoesOn(t, w) || TakesFirst(t, w) || Settles(t, w))
      case Analysed(w, _) => t.saved == saved && GoesOn(t, w)
    }

    lemma StepShape(e: Event)
      requires Enabled(e)
      ensures Shape(e, Step(e))
      ensures Step(e).enqueued == enqueued + if e.Save? then multiset{e.id} else multiset{}
    {
      if e.Turn? {
        if !pc[e.worker].Busy() {
          LoopShape(e.worker, e.raised);
        } else {
          BusyShape(e.worker, e.raised);
        }
      }
    }

    lemma LoopShape(w: Worker, raised: bool)
      requires w in pc && !pc[w].Busy()
      ensures Shape(Turn(w, raised), LoopTurn(w, raised)) && LoopTurn(w, raised).enqueued == enqueued
    {
    }

    lemma BusyShape(w: Worker, raised: bool)
      requires w in pc && pc[w].Busy() && !pc[w].Run?
      ensures Shape(Turn(w, raised), Step(Turn(w, raised))) && Step(Turn(w, raised)).enqueued == enqueued
    {
    }

    lemma OnePlaceKept(e: Event, t: State)
      requires OnePlace() && Enabled(e) && Shape(e, t)
      ensures t.OnePlace()
    {
      if e.Save? {
        assert forall w :: w in pc && pc[w].Busy() ==> HeldBy(w, pc[w].id);
      } else if e.Turn? && TakesFirst(t, e.worker) {
        assert forall i :: 0 <= i < |t.ready| ==> t.ready[i] == ready[i + 1];
      }
    }

    lemma HeldStays(e: Event, t: State, w: Worker, id: TaskId)
      requires Enabled(e) && Shape(e, t) && (t.log == log || t.log[|t.log| - 1].id != id)
      requires HeldBy(w, id)
      ensures t.HeldBy(w, id)
    {
    }

    lemma HeldBefore(e: Event, t: State, w: Worker, id: TaskId)
      requires Enabled(e) && Shape(e, t) && t.HeldBy(w, id)
      ensures HeldBy(w, id) || (TakesFirst(t, w) && e.Turn? && e.worker == w && id == ready[0])
    {
    }

    /** Outside the event itself no id enters or leaves the queue. */
    lemma ActiveElsewhere(e: Event, t: State, id: TaskId)
      requires OnePlace() && Enabled(e) && Shape(e, t)
      requires e != Save(id) && (t.log == log || t.log[|t.log| - 1].id != id)
      ensures t.Active(id) <==> Active(id)
    {
      if Held(id) {
        var w :| w in pc && HeldBy(w, id);
        HeldStays(e, t, w, id);
      }
      if t.Held(id) {
        var w :| w in t.pc && t.HeldBy(w, id);
        HeldBefore(e, t, w, id);
      }
      if e.Turn? && TakesFirst(t, e.worker) {
        assert ready == [ready[0]] + t.ready;
        assert t.HeldBy(e.worker, ready[0]);
      }
    }

    lemma ActiveHere(e: Event, t: State)
      requires OnePlace() && Enabled(e) && Shape(e, t)
      ensures e.Save? ==> t.Active(e.id) && !Active(e.id)
      ensures t.log != log ==> Active(t.log[|log|].id) && !t.Active(t.log[|log|].id)
    {
      if t.log != log {
        assert HeldBy(e.worker, t.log[|log|].id);
      }
    }

    lemma ConservedKept(e: Event, t: State)
      requires OnePlace() && Conserved() && Enabled(e) && Shape(e, t)
      requires t.enqueued == enqueued + if e.Save? then multiset{e.id} else multiset{}
      ensures t.Conserved()
    {
      forall id ensures t.enqueued[id] == Settled(t.log, id) + if t.Active(id) then 1 else 0 {
        ActiveHere(e, t);
        if e != Save(id) && (t.log == log || t.log[|t.log| - 1].id != id) {
          ActiveElsewhere(e, t, id);
        }
      }
    }

    /** What a worker files is what it logs. */
    ghost predicate Files(t: State) {
      if t.log == log then t.completed == completed && t.failed == failed
      else
        && t.log != []
        && var last := t.log[|t.log| - 1];
        && t.log == log + [last]
        && t.completed == completed + (if last.fate == Done(Success) then {last.id} else {})
        && t.failed == failed + (if last.fate == Done(Failure) then {last.id} else {})
    }

    lemma ResultFiles(w: Worker, raised: bool)
      requires w in pc && (pc[w].SaveResult? || pc[w].Unmark? || pc[w].File?)
      ensures |ResultTurn(w, raised).log| >= |log| && Files(ResultTurn(w, raised))
    {
    }

    lemma HandlerFiles(w: Worker, raised: bool)
      requires w in pc && (pc[w].FailHash? || pc[w].FailUnmark? || pc[w].FailFile?)
      ensures |HandlerTurn(w, raised).log| >= |log| && Files(HandlerTurn(w, raised))
    {
    }

    lemma MarkFiles(w: Worker, raised: bool)
      requires w in pc && (pc[w].Load? || pc[w].MarkHash? || pc[w].MarkSet?)
      ensures |MarkTurn(w, raised).log| >= |log| && Files(MarkTurn(w, raised))
    {
    }

    lemma StepFiles(e: Event)
      requires Enabled(e)
      ensures |Step(e).log| >= |log| && Files(Step(e))
    {
      if e.Turn? && pc[e.worker].Busy() {
        if pc[e.worker].Load? || pc[e.worker].MarkHash? || pc[e.worker].MarkSet? {
          MarkFiles(e.worker, e.raised);
        } else if pc[e.worker].SaveResult? || pc[e.worker].Unmark? || pc[e.worker].File? {
          ResultFiles(e.worker, e.raised);
        } else {
          HandlerFiles(e.worker, e.raised);
        }
      }
    }

    lemma SetsKept(t: State)
      requires SetsMatchLog() && |t.log| >= |log| && Files(t)
      ensures t.SetsMatchLog()
    {
    }

    /** `processing` changes only at the id of the worker, when it is marked or unmarked. */
    ghost predicate Marks(e: Event, t: State)
      requires Enabled(e) && Shape(e, t)
    {
      if e.Turn? && pc[e.worker].MarkSet? && !e.raised
      then t.processing == processing + {pc[e.worker].id} && t.pc[e.worker].Run?
      else if e.Turn? && (pc[e.worker].Unmark? || pc[e.worker].FailUnmark?) && !e.raised
      then t.processing == processing - {pc[e.worker].id} && (t.pc[e.worker].File? || t.pc[e.worker].FailFile?)
      else
        && t.processing == processing
        && (e.Turn? || e.Analysed? ==>
              && (t.pc[e.worker].Marked() ==> pc[e.worker].Marked())
              && !t.pc[e.worker].File? && !t.pc[e.worker].FailFile?
              && (pc[e.worker].InFlight() ==>
                    t.pc[e.worker].InFlight() || t.log == log + [Entry(pc[e.worker].id, Stranded)]))
    }

    lemma StepMarks(e: Event)
      requires Enabled(e) && Shape(e, Step(e))
      ensures Marks(e, Step(e))
    {
    }

    lemma ProcessingKept(e: Event, t: State)
      requires OnePlace() && ProcessingHeld() && Enabled(e) && Shape(e, t) && log <= t.log && Marks(e, t)
      ensures t.ProcessingHeld()
    {
      forall id | id in t.processing
        ensures Entry(id, Stranded) in t.log || exists w :: t.InFlightBy(w, id)
      {
        if id in processing {
          if w :| InFlightBy(w, id) {
            InFlightGoesOn(e, t, w);
          }
        } else {
          assert t.InFlightBy(e.worker, id);
        }
      }
    }

    lemma InFlightGoesOn(e: Event, t: State, w: Worker)
      requires OnePlace() && Enabled(e) && Shape(e, t) && Marks(e, t)
      requires w in pc && pc[w].InFlight() && pc[w].id in t.processing
      ensures t.InFlightBy(w, pc[w].id) || t.log == log + [Entry(pc[w].id, Stranded)]
    {
    }

    lemma FinishedUnmarkedKept(e: Event, t: State)
      requires OnePlace() && ProcessingHeld() && FinishedUnmarked() && Enabled(e)
      requires t == Step(e) && Shape(e, t) && Marks(e, t)
      ensures t.FinishedUnmarked()
    {
      forall id, outcome | Latest(t.log, id, Done(outcome)) && id in t.processing
        ensures exists w :: t.InFlightBy(w, id)
      {
        if id !in processing {
          assert t.InFlightBy(e.worker, id);
        } else {
          FiledIsUnmarked(e, id, outcome);
          var w :| InFlightBy(w, id);
          InFlightGoesOn(e, t, w);
        }
      }
    }

    /** A run ends with an outcome only when its id was unmarked before. */
    lemma DoneIsUnmarked(e: Event)
      requires ProcessingHeld() && Enabled(e) && Step(e).log != log
      ensures var t := Step(e);
              && t.log == log + [t.log[|log|]]
              && (t.log[|log|].fate.Done? ==> t.log[|log|].id !in t.processing)
    {
    }

    lemma FiledIsUnmarked(e: Event, id: TaskId, outcome: Outcome)
      requires ProcessingHeld() && Enabled(e) && id in Step(e).processing
      requires Latest(Step(e).log, id, Done(outcome))
      ensures Latest(log, id, Done(outcome))
    {
      if Step(e).log != log {
        DoneIsUnmarked(e);
        LatestStep(log, Step(e).log[|log|], id, Done(outcome));
      }
    }

    /** Whose hash an event may write. */
    ghost predicate Concerns(e: Event, id: TaskId)
      requires Enabled(e)
    {
      match e
      case Save(i) => i == id
      case Push(_) => false
      case Expire(i) => i == id
      case Stop(_) => false
      case Turn(w, _) => HeldBy(w, id)
      case Analysed(w, _) => HeldBy(w, id)
    }

    /** An event writes at most the hash it concerns. */
    ghost predicate SameHash(t: State, id: TaskId) {
      (id in t.hash <==> id in hash) && (id in hash ==> t.hash[id] == hash[id])
    }

    lemma HashElsewhere(e: Event, id: TaskId)
      requires Enabled(e) && !Concerns(e, id)
      ensures SameHash(Step(e), id)
    {
    }

    /** The worker that moves leaves the hash of its id as its next call expects it. */
    lemma HashOfMover(e: Event)
      requires Enabled(e) && (e.Turn? || e.Analysed?) && pc[e.worker].Busy() && HashOfHeld(pc[e.worker])
      ensures var t, c := Step(e), Step(e).pc[e.worker];
              if c.Busy() then t.HashOfHeld(c) else t.HashOfIdle(pc[e.worker].id)
    {
    }

    lemma IdleElsewhere(e: Event, t: State, id: TaskId)
      requires OnePlace() && HashAgrees() && Enabled(e) && Shape(e, t)
      requires !Concerns(e, id) && SameHash(t, id) && !t.Active(id)
      ensures t.HashOfIdle(id)
    {
      if t.log != log {
        assert HeldBy(e.worker, t.log[|log|].id);
      }
      ActiveElsewhere(e, t, id);
    }

    lemma WaitingElsewhere(e: Event, t: State, id: TaskId)
      requires HashAgrees() && Enabled(e) && Shape(e, t) && !Concerns(e, id) && SameHash(t, id)
      requires id in t.hash && (id in t.saved || id in t.ready)
      ensures t.hash[id] == Queued
    {
      assert id in saved || id in ready;
    }

    lemma HeldElsewhere(e: Event, t: State, w: Worker)
      requires OnePlace() && HashAgrees() && Enabled(e) && Shape(e, t)
      requires w in t.pc && t.pc[w].Busy() && !Concerns(e, t.pc[w].id) && SameHash(t, t.pc[w].id)
      ensures t.HashOfHeld(t.pc[w])
    {
      if w !in pc || t.pc[w] != pc[w] {
        assert TakesFirst(t, w);
      }
    }

    /** An event that concerns an id leaves its hash as the id's new place demands. */
    lemma HashHere(e: Event, t: State, id: TaskId)
      requires OnePlace() && HashAgrees() && Enabled(e) && Shape(e, t) && t.OnePlace() && t == Step(e)
      requires Concerns(e, id)
      ensures !t.Active(id) ==> t.HashOfIdle(id)
      ensures id in t.hash && (id in t.saved || id in t.ready) ==> t.hash[id] == Queued
      ensures forall w :: t.HeldBy(w, id) ==> t.HashOfHeld(t.pc[w])
    {
      if e.Turn? || e.Analysed? {
        HashOfMover(e);
        if t.pc[e.worker].Busy() {
          assert t.HeldBy(e.worker, id);
        }
      } else if e.Save? {
        assert forall w :: t.HeldBy(w, id) ==> HeldBy(w, id);
      }
    }

    lemma HashKept(e: Event, t: State)
      requires OnePlace() && HashAgrees() && Enabled(e) && Shape(e, t) && t.OnePlace() && t == Step(e)
      ensures t.HashAgrees()
    {
      forall id
        ensures !t.Active(id) ==> t.HashOfIdle(id)
        ensures id in t.hash && (id in t.saved || id in t.ready) ==> t.hash[id] == Queued
        ensures forall w :: t.HeldBy(w, id) ==> t.HashOfHeld(t.pc[w])
      {
        if Concerns(e, id) {
          HashHere(e, t, id);
        } else {
          HashAway(e, t, id);
        }
      }
      assert forall w :: w in t.pc && t.pc[w].Busy() ==> t.HeldBy(w, t.pc[w].id);
    }

    lemma HashAway(e: Event, t: State, id: TaskId)
      requires OnePlace() && HashAgrees() && Enabled(e) && Shape(e, t) && t == Step(e)
      requires !Concerns(e, id)
      ensures !t.Active(id) ==> t.HashOfIdle(id)
      ensures id in t.hash && (id in t.saved || id in t.ready) ==> t.hash[id] == Queued
      ensures forall w :: t.HeldBy(w, id) ==> t.HashOfHeld(t.pc[w])
    {
      HashElsewhere(e, id);
      if !t.Active(id) {
        IdleElsewhere(e, t, id);
      } else if id in t.hash && (id in t.saved || id in t.ready) {
        WaitingElsewhere(e, t, id);
      }
      forall w | t.HeldBy(w, id) ensures t.HashOfHeld(t.pc[w]) {
        HeldElsewhere(e, t, w);
      }
    }

    /** Every enabled step keeps the whole invariant. */
    lemma StepKeepsInv(e: Event)
      requires Inv() && Enabled(e)
      ensures Step(e).Inv()
    {
      var t := Step(e);
      StepShape(e);
      OnePlaceKept(e, t);
      ConservedKept(e, t);
      StepFiles(e);
      SetsKept(t);
      StepMarks(e);
      ProcessingKept(e, t);
      FinishedUnmarkedKept(e, t);
      HashKept(e, t);
    }

    /** A run ends stranded when a call outside the try body raises, and only then. */
    lemma StepStrands(e: Event, id: TaskId)
      requires Enabled(e)
      ensures Count(Step(e).log, Entry(id, Stranded)) ==
              Count(log, Entry(id, Stranded))
              + if e.Turn? && e.raised && HeldBy(e.worker, id) && pc[e.worker].Unprotected() then 1 else 0
    {
      if Step(e).log != log {
        assert Step(e).log[..|log|] == log;
      }
    }

    /** Each move brings a worker closer to the end of its loop, unless it starts a new round or has stopped. */
    lemma LeftDrops(e: Event)
      requires Enabled(e) && (e.Turn? || e.Analysed?)
      ensures var t, w := Step(e), e.worker;
              && w in t.pc
              && (if pc[w].Stopped? then t.pc[w].Stopped?
                  else if pc[w].Top? && w !in stops then t.pc[w].Pop?
                  else t.pc[w].Left() < pc[w].Left())
    {
    }

    lemma OthersStay(e: Event, w: Worker)
      requires Enabled(e) && !Moves(e, w) && w in pc
      ensures w in Step(e).pc && Step(e).pc[w] == pc[w]
    {
      StepShape(e);
    }

    /** A worker that holds an id comes closer to the end of the run with each move, and lets go of the
        id only by settling it. Nobody else moves it. */
    lemma HolderStep(e: Event, w: Worker, id: TaskId)
      requires Enabled(e) && HeldBy(w, id)
      ensures var t := Step(e);
              || (t.HeldBy(w, id) && t.pc[w].Left() + (if Moves(e, w) then 1 else 0) <= pc[w].Left())
              || Settled(t.log, id) == Settled(log, id) + 1
    {
      var t := Step(e);
      if Moves(e, w) {
        LeftDrops(e);
        StepShape(e);
      } else {
        OthersStay(e, w);
      }
    }

    lemma SettledGrows(e: Event, id: TaskId)
      requires Enabled(e)
      ensures Settled(Step(e).log, id) >= Settled(log, id)
    {
      if Step(e).log != log {
        assert Step(e).log[..|log|] == log;
      }
    }

    lemma StoppingStep(e: Event, w: Worker)
      requires Enabled(e) && w in pc && w in stops
      ensures var t := Step(e);
              && w in t.pc && w in t.stops
              && (if Moves(e, w) && pc[w].Left() > 0 then t.pc[w].Left() < pc[w].Left() else t.pc[w] == pc[w])
    {
      StopsStay(e);
      if Moves(e, w) {
        LeftDrops(e);
      } else {
        OthersStay(e, w);
      }
    }

    lemma StopsStay(e: Event)
      requires Enabled(e)
      ensures stops <= Step(e).stops
    {
    }

    /** Without being enqueued again, an id that is not on its way stays so. */
    lemma IdleStep(e: Event, id: TaskId)
      requires OnePlace() && Enabled(e) && !Active(id) && e != Save(id)
      ensures !Step(e).Active(id) && Settled(Step(e).log, id) == Settled(log, id)
    {
      var t := Step(e);
      StepShape(e);
      ActiveHere(e, t);
      ActiveElsewhere(e, t, id);
      if t.log != log {
        assert t.log[..|log|] == log;
      }
    }

    // ---- runs ----

    ghost predicate Runs(events: seq<Event>)
      decreases |events|, 0
    {
      events == [] ||
      (Runs(events[..|events| - 1]) && After(events[..|events| - 1]).Enabled(events[|events| - 1]))
    }

    ghost function After(events: seq<Event>): State
      requires Runs(events)
      decreases |events|, 1
    {
      if events == [] then this
      else After(events[..|events| - 1]).Step(events[|events| - 1])
    }

    /** How often worker `w` moves. */
    function OwnSteps(events: seq<Event>, w: Worker): nat {
      if events == [] then 0
      else
        OwnSteps(events[..|events| - 1], w)
        + if Moves(events[|events| - 1], w) then 1 else 0
    }

    predicate Moves(e: Event, w: Worker) {
      (e.Turn? || e.Analysed?) && e.worker == w
    }

    /** How many calls outside the try body raise. */
    ghost function UnprotectedRaises(events: seq<Event>, id: TaskId): nat
      requires Runs(events)
      decreases |events|
    {
      if events == [] then 0
      else
        var front, e := events[..|events| - 1], events[|events| - 1];
        UnprotectedRaises(front, id)
        + if e.Turn? && e.raised && After(front).HeldBy(e.worker, id) && After(front).pc[e.worker].Unprotected()
          then 1 else 0
    }
  }

  /** No task yet, every worker at the top of its loop. */
  function Start(workers: set<Worker>): State {
    State(map[], [], {}, {}, {}, {}, map w | w in workers :: Top, {}, multiset{}, [])
  }

  // ---- results over every run ----

  /** Any number of workers, any interleaving, errors in any call: the invariant holds throughout. */
  lemma {:induction false} Safe(workers: set<Worker>, events: seq<Event>)
    requires Start(workers).Runs(events)
    ensures Start(workers).After(events).Inv()
    decreases |events|
  {
    if events != [] {
      Safe(workers, events[..|events| - 1]);
      Start(workers).After(events[..|events| - 1]).StepKeepsInv(events[|events| - 1]);
    }
  }

  lemma {:induction false} SettledEntries(log: seq<Entry>, id: TaskId)
    ensures Settled(log, id) == 0 <==> forall fate :: Entry(id, fate) !in log
    ensures Settled(log, id) == 1 ==> exists fate :: Entry(id, fate) in log
    ensures Settled(log, id) <= 1 ==>
              forall fate, other :: Entry(id, fate) in log && Entry(id, other) in log ==> fate == other
  {
    if log != [] {
      var front, last := log[..|log| - 1], log[|log| - 1];
      SettledEntries(front, id);
      assert log == front + [last];
      assert last == Entry(last.id, last.fate);
    }
  }

  datatype Place = Waiting | Ready | Held | InCompleted | InFailed | WasDropped | WasStranded

  ghost predicate At(s: State, id: TaskId, place: Place) {
    match place
    case Waiting => id in s.saved
    case Ready => id in s.ready
    case Held => s.Held(id)
    case InCompleted => id in s.completed
    case InFailed => id in s.failed
    case WasDropped => Entry(id, Dropped) in s.log
    case WasStranded => Entry(id, Stranded) in s.log
  }

  /** An id that was enqueued once is in exactly one place: waiting for its push, in the ready list,
      held, completed, failed, dropped because its hash is gone, or stranded by an error. */
  lemma OncePlaced(workers: set<Worker>, events: seq<Event>, id: TaskId) returns (place: Place)
    requires Start(workers).Runs(events)
    requires Start(workers).After(events).enqueued[id] == 1
    ensures At(Start(workers).After(events), id, place)
    ensures forall other :: At(Start(workers).After(events), id, other) ==> other == place
  {
    Safe(workers, events);
    place := PlaceIn(Start(workers).After(events), id);
  }

  lemma PlaceIn(s: State, id: TaskId) returns (place: Place)
    requires s.SetsMatchLog() && s.OnePlace() && s.Conserved() && s.enqueued[id] == 1
    ensures At(s, id, place)
    ensures forall other :: At(s, id, other) ==> other == place
  {
    SettledEntries(s.log, id);
    if s.Active(id) {
      place := if id in s.saved then Waiting else if id in s.ready then Ready else Held;
      ActivePlace(s, id, place);
    } else {
      var fate :| Entry(id, fate) in s.log;
      place := PlaceOf(fate);
    }
  }

  function PlaceOf(fate: Fate): Place {
    match fate
    case Done(Success) => InCompleted
    case Done(Failure) => InFailed
    case Dropped => WasDropped
    case Stranded => WasStranded
  }

  lemma ActivePlace(s: State, id: TaskId, place: Place)
    requires s.OnePlace() && s.SetsMatchLog() && forall fate :: Entry(id, fate) !in s.log
    requires At(s, id, place) && (place.Waiting? || place.Ready? || place.Held?)
    ensures forall other :: At(s, id, other) ==> other == place
  {
    if w :| s.HeldBy(w, id) {
      assert s.pc[w].id == id;
    }
  }

  /** At most one worker holds an id, and the ready list names it at most once. */
  lemma HolderIsUnique(workers: set<Worker>, events: seq<Event>, id: TaskId, w: Worker, v: Worker)
    requires Start(workers).Runs(events)
    ensures var s := Start(workers).After(events);
            && (s.HeldBy(w, id) && s.HeldBy(v, id) ==> w == v)
            && (s.HeldBy(w, id) ==> id !in s.ready && id !in s.saved)
            && multiset(s.ready)[id] <= 1
  {
    Safe(workers, events);
    var ready := Start(workers).After(events).ready;
    Distinct(ready, id);
  }

  lemma {:induction false} Distinct(ids: seq<TaskId>, id: TaskId)
    requires forall i, j :: 0 <= i < j < |ids| ==> ids[i] != ids[j]
    ensures multiset(ids)[id] == if id in ids then 1 else 0
  {
    if ids != [] {
      Distinct(ids[1..], id);
      assert ids == [ids[0]] + ids[1..];
    }
  }

  /** Each enqueueing of an id ends exactly once; only the last one may still be on its way. */
  lemma EveryRunEndsOnce(workers: set<Worker>, events: seq<Event>, id: TaskId)
    requires Start(workers).Runs(events)
    ensures var s := Start(workers).After(events);
            s.enqueued[id] == Settled(s.log, id) + if s.Active(id) then 1 else 0
  {
    Safe(workers, events);
  }

  /** `completed` and `failed` hold exactly the ids with a run of that outcome, however often an id
      was enqueued; the hash of an id that is not on its way tells its latest run. */
  lemma OutcomesRecorded(workers: set<Worker>, events: seq<Event>, id: TaskId, outcome: Outcome)
    requires Start(workers).Runs(events)
    ensures var s := Start(workers).After(events);
            && (id in s.completed <==> Entry(id, Done(Success)) in s.log)
            && (id in s.failed <==> Entry(id, Done(Failure)) in s.log)
            && (!s.Active(id) && Latest(s.log, id, Done(outcome)) && id in s.hash ==> s.hash[id] == StatusOf(outcome))
            && (!s.Active(id) && Latest(s.log, id, Done(outcome)) ==> id !in s.processing)
            && (!s.Active(id) && Latest(s.log, id, Dropped) ==> id !in s.hash)
  {
    Safe(workers, events);
    LatestOnce(Start(workers).After(events).log, id);
  }

  lemma {:induction false} LatestOnce(log: seq<Entry>, id: TaskId)
    ensures forall fate, other :: Latest(log, id, fate) && Latest(log, id, other) ==> fate == other
  {
    if log != [] {
      LatestOnce(log[..|log| - 1], id);
    }
  }

  /** The two result sets only grow. */
  lemma ResultsGrow(s: State, e: Event)
    requires s.Enabled(e)
    ensures s.completed <= s.Step(e).completed && s.failed <= s.Step(e).failed
  {
    s.StepFiles(e);
  }

  /** An id is stranded once for each call outside the try body that raises while it is held. */
  lemma {:induction false} StrandedByRaise(workers: set<Worker>, events: seq<Event>, id: TaskId)
    requires Start(workers).Runs(events)
    ensures Count(Start(workers).After(events).log, Entry(id, Stranded)) == Start(workers).UnprotectedRaises(events, id)
    decreases |events|
  {
    if events != [] {
      var front, e := events[..|events| - 1], events[|events| - 1];
      StrandedByRaise(workers, front, id);
      Start(workers).After(front).StepStrands(e, id);
    }
  }

  /** When no call outside the try body raises, `processing` holds only ids that a worker has between
      marking and filing them. */
  lemma ProcessingOnlyHeld(workers: set<Worker>, events: seq<Event>, id: TaskId)
    requires Start(workers).Runs(events) && Start(workers).UnprotectedRaises(events, id) == 0
    ensures var s := Start(workers).After(events);
            && Entry(id, Stranded) !in s.log
            && (id in s.processing ==> exists w :: s.InFlightBy(w, id))
            && (forall w :: s.HeldBy(w, id) && s.pc[w].Marked() ==> id in s.processing)
  {
    Safe(workers, events);
    StrandedByRaise(workers, events, id);
    CountZero(Start(workers).After(events).log, Entry(id, Stranded));
  }

  function Count(log: seq<Entry>, entry: Entry): nat {
    if log == [] then 0
    else Count(log[..|log| - 1], entry) + if log[|log| - 1] == entry then 1 else 0
  }

  lemma {:induction false} CountZero(log: seq<Entry>, entry: Entry)
    ensures Count(log, entry) == 0 <==> entry !in log
  {
    if log != [] {
      CountZero(log[..|log| - 1], entry);
      assert log == log[..|log| - 1] + [log[|log| - 1]];
    }
  }

  /** The event that ends a run of an id leaves it off its way. */
  lemma EndedIsIdle(workers: set<Worker>, events: seq<Event>, e: Event)
    requires Start(workers).Runs(events) && Start(workers).After(events).Enabled(e)
    ensures var s := Start(workers).After(events);
            |s.Step(e).log| > |s.log| ==> !s.Step(e).Active(s.Step(e).log[|s.log|].id)
  {
    Safe(workers, events);
    Start(workers).After(events).StepShape(e);
    Start(workers).After(events).ActiveHere(e, Start(workers).After(events).Step(e));
  }

  // ---- progress and shutdown ----

  /** From `s` to `t`, with `moves` of its own, worker `w` has come that much closer to settling `id`, or
      a run of `id` has been settled. */
  ghost predicate Progress(s: State, t: State, w: Worker, id: TaskId, moves: nat)
    requires s.HeldBy(w, id)
  {
    || (t.HeldBy(w, id) && t.pc[w].Left() + moves <= s.pc[w].Left())
    || Settled(t.log, id) > Settled(s.log, id)
  }

  lemma ProgressStep(s: State, t: State, w: Worker, id: TaskId, moves: nat, e: Event)
    requires s.HeldBy(w, id) && Progress(s, t, w, id, moves) && t.Enabled(e)
    requires t.HeldBy(w, id) ==> Settled(t.log, id) >= Settled(s.log, id)
    ensures Progress(s, t.Step(e), w, id, moves + if s.Moves(e, w) then 1 else 0)
  {
    t.SettledGrows(e, id);
    if t.HeldBy(w, id) {
      t.HolderStep(e, w, id);
    }
  }

  lemma {:induction false} SettledOnlyGrows(s: State, events: seq<Event>, id: TaskId)
    requires s.Runs(events)
    ensures Settled(s.After(events).log, id) >= Settled(s.log, id)
    decreases |events|
  {
    if events != [] {
      SettledOnlyGrows(s, events[..|events| - 1], id);
      s.After(events[..|events| - 1]).SettledGrows(events[|events| - 1], id);
    }
  }

  lemma {:induction false} HolderProgress(s: State, events: seq<Event>, w: Worker, id: TaskId)
    requires s.HeldBy(w, id) && s.Runs(events)
    ensures Progress(s, s.After(events), w, id, s.OwnSteps(events, w))
    decreases |events|
  {
    if events != [] {
      var front, e := events[..|events| - 1], events[|events| - 1];
      HolderProgress(s, front, w, id);
      SettledOnlyGrows(s, front, id);
      ProgressStep(s, s.After(front), w, id, s.OwnSteps(front, w), e);
    }
  }

  /** A worker that holds an id settles it within ten moves of its own (as many as are left before
      `Top`), whatever the others do and whether or not it was told to stop; until then it holds it. */
  lemma HeldUntilSettled(s: State, events: seq<Event>, w: Worker, id: TaskId)
    requires s.HeldBy(w, id) && s.Runs(events)
    ensures s.After(events).HeldBy(w, id) || Settled(s.After(events).log, id) > Settled(s.log, id)
    ensures s.OwnSteps(events, w) >= s.pc[w].Left() - 1 ==> Settled(s.After(events).log, id) > Settled(s.log, id)
  {
    HolderProgress(s, events, w, id);
    ProgressEnds(s, s.After(events), w, id, s.OwnSteps(events, w));
  }

  lemma ProgressEnds(s: State, t: State, w: Worker, id: TaskId, moves: nat)
    requires s.HeldBy(w, id) && Progress(s, t, w, id, moves)
    ensures t.HeldBy(w, id) || Settled(t.log, id) > Settled(s.log, id)
    ensures moves >= s.pc[w].Left() - 1 ==> Settled(t.log, id) > Settled(s.log, id)
  {
  }

  /** A worker told to stop leaves its loop within twelve moves of its own. */
  lemma StopsInTime(s: State, events: seq<Event>, w: Worker)
    requires w in s.pc && w in s.stops && s.Runs(events)
    ensures w in s.After(events).pc
    ensures s.OwnSteps(events, w) >= s.pc[w].Left() ==> s.After(events).pc[w].Stopped?
  {
    StoppingRun(s, events, w);
  }

  /** When a worker has left its loop, the id it held before has been settled: a stop signal never makes
      it exit while holding a task. */
  lemma NeverExitsHolding(s: State, events: seq<Event>, w: Worker, id: TaskId)
    requires s.HeldBy(w, id) && s.Runs(events)
    requires w in s.After(events).pc && s.After(events).pc[w].Stopped?
    ensures Settled(s.After(events).log, id) > Settled(s.log, id)
  {
    HeldUntilSettled(s, events, w, id);
  }

  lemma {:induction false} StoppingRun(s: State, events: seq<Event>, w: Worker)
    requires w in s.pc && w in s.stops && s.Runs(events)
    ensures var t := s.After(events);
            && w in t.pc && w in t.stops
            && (t.pc[w].Left() == 0 || t.pc[w].Left() + s.OwnSteps(events, w) <= s.pc[w].Left())
    decreases |events|
  {
    if events != [] {
      var front, e := events[..|events| - 1], events[|events| - 1];
      StoppingRun(s, front, w);
      s.After(front).StoppingStep(e, w);
    }
  }

  /** A run that ended, in particular a stranded one, is never taken up again by itself. */
  lemma {:induction false} NeverRetried(s: State, events: seq<Event>, id: TaskId)
    requires s.OnePlace() && !s.Active(id) && s.Runs(events) && Save(id) !in events
    ensures s.After(events).OnePlace() && !s.After(events).Active(id)
    ensures Settled(s.After(events).log, id) == Settled(s.log, id)
    decreases |events|
  {
    if events != [] {
      var front, e := events[..|events| - 1], events[|events| - 1];
      NeverRetried(s, front, id);
      s.After(front).StepShape(e);
      s.After(front).OnePlaceKept(e, s.After(events));
      s.After(front).IdleStep(e, id);
    }
  }

  // ---- the order of service ----

  /** When `id` was last pushed, counted from one; zero if never. */
  function LastPush(events: seq<Event>, id: TaskId): (n: nat)
    ensures n <= |events|
  {
    if events == [] then 0
    else if events[|events| - 1] == Push(id) then |events|
    else LastPush(events[..|events| - 1], id)
  }

  /** Later pushes stand further in front. */
  ghost predicate NewestInFront(events: seq<Event>, ready: seq<TaskId>) {
    forall i, j :: 0 <= i < j < |ready| ==> LastPush(events, ready[i]) > LastPush(events, ready[j])
  }

  lemma PushGoesInFront(events: seq<Event>, ready: seq<TaskId>, id: TaskId)
    requires NewestInFront(events, ready) && id !in ready
    ensures NewestInFront(events + [Push(id)], [id] + ready)
  {
    assert (events + [Push(id)])[..|events|] == events;
    assert forall i :: 0 <= i < |ready| ==> LastPush(events + [Push(id)], ready[i]) == LastPush(events, ready[i]);
  }

  lemma OthersKeepOrder(events: seq<Event>, ready: seq<TaskId>, e: Event)
    requires NewestInFront(events, ready) && !e.Push?
    ensures NewestInFront(events + [e], ready)
    ensures ready != [] ==> NewestInFront(events + [e], ready[1..])
  {
    assert (events + [e])[..|events|] == events;
    assert forall id :: LastPush(events + [e], id) == LastPush(events, id);
  }

  lemma OrderKept(front: seq<Event>, s: State, e: Event, t: State)
    requires NewestInFront(front, s.ready) && s.OnePlace() && s.Enabled(e) && s.Shape(e, t)
    ensures NewestInFront(front + [e], t.ready)
  {
    if e.Push? {
      PushGoesInFront(front, s.ready, e.id);
    } else {
      OthersKeepOrder(front, s.ready, e);
    }
  }

  lemma LastStepKeepsOrder(workers: set<Worker>, front: seq<Event>, e: Event)
    requires Start(workers).Runs(front) && Start(workers).After(front).Enabled(e)
    requires NewestInFront(front, Start(workers).After(front).ready)
    ensures NewestInFront(front + [e], Start(workers).After(front).Step(e).ready)
  {
    Safe(workers, front);
    Start(workers).After(front).StepShape(e);
    OrderKept(front, Start(workers).After(front), e, Start(workers).After(front).Step(e));
  }

  /** In every run the ready list is ordered by the latest push of its ids, the newest first. */
  lemma {:induction false} ReadyIsByAge(workers: set<Worker>, events: seq<Event>)
    requires Start(workers).Runs(events)
    ensures NewestInFront(events, Start(workers).After(events).ready)
    decreases |events|
  {
    if events != [] {
      ReadyIsByAge(workers, events[..|events| - 1]);
      LastStepKeepsOrder(workers, events[..|events| - 1], events[|events| - 1]);
      assert events == events[..|events| - 1] + [events[|events| - 1]];
    }
  }

  /** A successful pop takes the id pushed last; it is the one that waits longest only if it is alone. */
  lemma PopTakesNewest(workers: set<Worker>, events: seq<Event>, w: Worker)
    requires Start(workers).Runs(events)
    requires var s := Start(workers).After(events); w in s.pc && s.pc[w].Pop? && s.ready != []
    ensures var s := Start(workers).After(events);
            && s.Step(Turn(w, false)).HeldBy(w, s.ready[0])
            && (forall id :: id in s.ready ==> LastPush(events, s.ready[0]) >= LastPush(events, id))
            && ((forall id :: id in s.ready ==> LastPush(events, s.ready[0]) <= LastPush(events, id)) <==> |s.ready| == 1)
  {
    ReadyIsByAge(workers, events);
    FrontIsNewest(events, Start(workers).After(events).ready);
  }

  lemma FrontIsNewest(events: seq<Event>, ready: seq<TaskId>)
    requires NewestInFront(events, ready) && ready != []
    ensures forall id :: id in ready ==> LastPush(events, ready[0]) >= LastPush(events, id)
    ensures (forall id :: id in ready ==> LastPush(events, ready[0]) <= LastPush(events, id)) <==> |ready| == 1
  {
    forall id | id in ready ensures LastPush(events, ready[0]) >= LastPush(events, id) {
      var i :| 0 <= i < |ready| && ready[i] == id;
    }
    if |ready| > 1 {
      assert ready[1] in ready && LastPush(events, ready[0]) > LastPush(events, ready[1]);
    }
  }
}
