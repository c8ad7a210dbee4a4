/**
 Kick coalescing: promotion requests of one process, per Environment.

 A kick finds either no goroutine for its Environment and starts one, or a running one and leaves a
 mark.  A goroutine promotes, then looks at the mark under the mutex: it promotes again or leaves.
 Each critical section is one step; everything else interleaves freely.
 */
module Kicks {
  import opened Basics

  type Environment = nat
  type Worker = nat

  /** The pending map: an Environment is a key while a goroutine runs for it; the value is the mark. */
  type Pending = map<Environment, bool>

  function Marked(pending: Pending, e: Environment): Pending {
    pending[e := e in pending]
  }

  function Looked(pending: Pending, e: Environment): Pending {
    if e in pending && pending[e] then pending[e := false] else pending - {e}
  }

  class KickTable {
    var pending: Pending

    constructor ()
      ensures pending == map[]
    {
      pending := map[];
    }

    /** The critical section of KickDeploymentQueue; start says that the caller launches the goroutine. */
    method Kick(e: Environment) returns (start: bool)
      modifies this
      ensures pending == Marked(old(pending), e) && start == (e !in old(pending))
    {
      if e in pending {
        pending := pending[e := true];
        return false;
      }
      pending := pending[e := false];
      return true;
    }

    /** The critical section after a promotion; again says that the goroutine promotes once more. */
    method Look(e: Environment) returns (again: bool)
      modifies this
      ensures pending == Looked(old(pending), e) && again == (e in old(pending) && old(pending)[e])
    {
      if e !in pending || !pending[e] {
        pending := pending - {e};
        return false;
      }
      pending := pending[e := false];
      return true;
    }
  }

  // ---------------------------------------------------------------- all interleavings

  datatype Phase = Ready | Promoting | Looking

  datatype Goroutine = Goroutine(environment: Environment, phase: Phase)

  datatype Entry = Kicked(environment: Environment) | Started(environment: Environment)

  datatype State = State(pending: Pending, workers: map<Worker, Goroutine>, used: set<Worker>, log: seq<Entry>)

  const Initial := State(map[], map[], {}, [])

  /** A kick (w names the goroutine it may start), or the next step of goroutine w. */
  datatype Event = Kick(e: Environment, w: Worker) | Go(w: Worker)

  function Step(s: State, event: Event): State {
    match event
    case Kick(e, w) =>
      if w in s.used then s
      else
        State(Marked(s.pending, e), if e in s.pending then s.workers else s.workers[w := Goroutine(e, Ready)],
              s.used + {w}, s.log + [Kicked(e)])
    case Go(w) =>
      if w !in s.workers then s
      else
        var g := s.workers[w];
        match g.phase
        case Ready => s.(workers := s.workers[w := g.(phase := Promoting)], log := s.log + [Started(g.environment)])
        case Promoting => s.(workers := s.workers[w := g.(phase := Looking)])
        case Looking =>
          var again := g.environment in s.pending && s.pending[g.environment];
          s.(pending := Looked(s.pending, g.environment),
             workers := if again then s.workers[w := g.(phase := Ready)] else s.workers - {w})
  }

  function Run(s: State, events: seq<Event>): State
    decreases |events|
  {
    if events == [] then s else Run(Step(s, events[0]), events[1..])
  }

  /** A promotion of the Environment started after log entry k. */
  predicate ServedAfter(log: seq<Entry>, e: Environment, k: nat) {
    exists m :: k < m < |log| && log[m] == Started(e)
  }

  predicate AllServed(log: seq<Entry>, e: Environment) {
    forall k :: 0 <= k < |log| && log[k] == Kicked(e) ==> ServedAfter(log, e, k)
  }

  predicate WorkerOf(s: State, w: Worker, e: Environment) {
    w in s.workers && s.workers[w].environment == e
  }

  predicate SomeoneReady(s: State, e: Environment) {
    exists w :: w in s.workers && s.workers[w] == Goroutine(e, Ready)
  }

  /** Every kick was served, or its Environment is marked, or a goroutine is about to serve it. */
  predicate Accounted(s: State, e: Environment) {
    AllServed(s.log, e) || (e in s.pending && (s.pending[e] || SomeoneReady(s, e)))
  }

  predicate HasWorker(s: State, e: Environment) {
    exists w :: w in s.workers && WorkerOf(s, w, e)
  }

  predicate TableOk(s: State) {
    && (forall w :: w in s.workers ==> w in s.used && s.workers[w].environment in s.pending)
    && (forall e :: e in s.pending ==> HasWorker(s, e))
    && (forall w, v :: w in s.workers && v in s.workers && s.workers[w].environment == s.workers[v].environment ==> w == v)
  }

  ghost predicate Inv(s: State) {
    TableOk(s) && forall e :: Accounted(s, e)
  }

  lemma LogGrows(log: seq<Entry>, entry: Entry, e: Environment)
    requires entry == Started(e) || (AllServed(log, e) && entry != Kicked(e))
    ensures AllServed(log + [entry], e)
  {
    var log' := log + [entry];
    forall k | 0 <= k < |log'| && log'[k] == Kicked(e) ensures ServedAfter(log', e, k) {
      if entry == Started(e) {
        assert log'[|log|] == Started(e);
      } else {
        assert ServedAfter(log, e, k);
        var m :| k < m < |log| && log[m] == Started(e);
        assert log'[m] == Started(e);
      }
    }
  }

  lemma KickKeepsTable(s: State, e: Environment, w: Worker)
    requires TableOk(s) && w !in s.used
    ensures TableOk(Step(s, Kick(e, w)))
  {
    var s' := Step(s, Kick(e, w));
    forall d | d in s'.pending ensures HasWorker(s', d) {
      if d in s.pending {
        assert HasWorker(s, d);
        var v :| v in s.workers && WorkerOf(s, v, d);
        assert v in s'.workers && WorkerOf(s', v, d);
      } else {
        assert w in s'.workers && WorkerOf(s', w, d);
      }
    }
  }

  lemma KickKeepsAccounts(s: State, e: Environment, w: Worker, d: Environment)
    requires w !in s.used && TableOk(s) && Accounted(s, d)
    ensures Accounted(Step(s, Kick(e, w)), d)
  {
    var s' := Step(s, Kick(e, w));
    hide TableOk, AllServed;
    if d == e {
      if e !in s.pending { assert s'.workers[w] == Goroutine(e, Ready); }
    } else if AllServed(s.log, d) {
      LogGrows(s.log, Kicked(e), d);
    } else if SomeoneReady(s, d) {
      var v :| v in s.workers && s.workers[v] == Goroutine(d, Ready);
      UsedWorker(s, v);
      assert s'.workers[v] == Goroutine(d, Ready);
    }
  }

  lemma UsedWorker(s: State, v: Worker)
    requires TableOk(s) && v in s.workers
    ensures v in s.used
  {
  }

  lemma GoKeepsWorker(s: State, w: Worker, d: Environment)
    requires TableOk(s) && w in s.workers && d in Step(s, Go(w)).pending
    ensures HasWorker(Step(s, Go(w)), d)
  {
    var s' := Step(s, Go(w));
    assert HasWorker(s, d);
    var v :| v in s.workers && WorkerOf(s, v, d);
    assert v in s'.workers && WorkerOf(s', v, d);
  }

  lemma GoKeepsTable(s: State, w: Worker)
    requires TableOk(s) && w in s.workers
    ensures TableOk(Step(s, Go(w)))
  {
    var s' := Step(s, Go(w));
    forall d | d in s'.pending ensures HasWorker(s', d) { GoKeepsWorker(s, w, d); }
    hide HasWorker;
    assert forall v :: v in s'.workers ==> v in s.workers && s'.workers[v].environment == s.workers[v].environment;
  }

  lemma GoKeepsAccounts(s: State, w: Worker, d: Environment)
    requires TableOk(s) && w in s.workers && Accounted(s, d)
    ensures Accounted(Step(s, Go(w)), d)
  {
    var s' := Step(s, Go(w));
    var g := s.workers[w];
    if g.phase.Ready? && d == g.environment { LogGrows(s.log, Started(d), d); }
    else if AllServed(s.log, d) { if g.phase.Ready? { LogGrows(s.log, Started(g.environment), d); } }
    else if d == g.environment {
      hide AllServed;
      assert s.pending[d];
      if g.phase.Looking? { assert s'.workers[w] == Goroutine(d, Ready); }
    } else if SomeoneReady(s, d) {
      hide AllServed, TableOk;
      var v :| v in s.workers && s.workers[v] == Goroutine(d, Ready);
      assert s'.workers[v] == Goroutine(d, Ready);
    }
  }

  lemma StepKeeps(s: State, event: Event)
    requires Inv(s)
    ensures Inv(Step(s, event))
  {
    hide TableOk, Accounted;
    match event {
      case Kick(e, w) =>
        if w !in s.used {
          KickKeepsTable(s, e, w);
          forall d ensures Accounted(Step(s, event), d) { KickKeepsAccounts(s, e, w, d); }
        }
      case Go(w) =>
        if w in s.workers {
          GoKeepsTable(s, w);
          forall d ensures Accounted(Step(s, event), d) { GoKeepsAccounts(s, w, d); }
        }
    }
  }

  lemma {:induction false} RunKeeps(s: State, events: seq<Event>)
    requires Inv(s)
    ensures Inv(Run(s, events))
    decreases |events|
  {
    hide Inv, Step;
    if events != [] {
      StepKeeps(s, events[0]);
      RunKeeps(Step(s, events[0]), events[1..]);
    }
  }

  // ---------------------------------------------------------------- theorems

  lemma Reachable(events: seq<Event>)
    ensures Inv(Run(Initial, events))
  {
    assert forall e :: Accounted(Initial, e);
    RunKeeps(Initial, events);
  }

  /** In every interleaving at most one goroutine promotes an Environment, and one exists exactly while it is a key. */
  lemma OneGoroutinePerEnvironment(events: seq<Event>, e: Environment)
    ensures var s := Run(Initial, events);
            && (forall w, v :: WorkerOf(s, w, e) && WorkerOf(s, v, e) ==> w == v)
            && (e in s.pending <==> HasWorker(s, e))
  {
    Reachable(events);
    hide Run, Accounted;
  }

  /** No wakeup is lost: whenever no goroutine runs for an Environment, each of its kicks was followed by a promotion that started after it. */
  lemma NoWakeupIsLost(events: seq<Event>, e: Environment, k: nat)
    requires var s := Run(Initial, events); e !in s.pending && k < |s.log| && s.log[k] == Kicked(e)
    ensures ServedAfter(Run(Initial, events).log, e, k)
  {
    Reachable(events);
    hide Run, ServedAfter;
    assert Accounted(Run(Initial, events), e);
  }

  /** Steps a goroutine still takes if nobody kicks. */
  function Left(s: State, w: Worker): nat {
    if w !in s.workers then 0
    else
      (match s.workers[w].phase case Ready => 3 case Promoting => 2 case Looking => 1)
      + (if s.workers[w].environment in s.pending && s.pending[s.workers[w].environment] then 3 else 0)
  }

  function Turns(events: seq<Event>, w: Worker): nat {
    if events == [] then 0 else (if events[0] == Go(w) then 1 else 0) + Turns(events[1..], w)
  }

  predicate NobodyKicks(events: seq<Event>, e: Environment) {
    forall k :: 0 <= k < |events| && events[k].Kick? ==> events[k].e != e
  }

  /** A goroutine's own step uses up one of its remaining steps; nothing but a kick of its Environment adds any. */
  lemma StepsRunOut(s: State, event: Event, e: Environment, w: Worker)
    requires TableOk(s) && w in s.used && (WorkerOf(s, w, e) || (w !in s.workers && e !in s.pending))
    requires event.Kick? ==> event.e != e
    ensures var s' := Step(s, event);
            && w in s'.used && (WorkerOf(s', w, e) || (w !in s'.workers && e !in s'.pending))
            && Left(s', w) == if event == Go(w) && Left(s, w) > 0 then Left(s, w) - 1 else Left(s, w)
  {
    if event.Go? && event.w in s.workers && event.w != w && w in s.workers {
      assert s.workers[event.w].environment != e;
    }
  }

  /** A goroutine leaves after at most six of its own steps without a further kick, whatever the others do; then no kick is unserved. */
  lemma {:induction false} GoroutineLeaves(s: State, events: seq<Event>, e: Environment, w: Worker)
    requires Inv(s) && w in s.used && (WorkerOf(s, w, e) || (w !in s.workers && e !in s.pending))
    requires NobodyKicks(events, e) && Turns(events, w) >= Left(s, w)
    ensures w !in Run(s, events).workers && e !in Run(s, events).pending && AllServed(Run(s, events).log, e)
    ensures Left(s, w) <= 6
    decreases |events|
  {
    if events == [] {
      assert Accounted(s, e);
    } else {
      StepKeeps(s, events[0]);
      StepsRunOut(s, events[0], e, w);
      hide TableOk, Accounted, Step, AllServed, WorkerOf;
      GoroutineLeaves(Step(s, events[0]), events[1..], e, w);
    }
  }
}
