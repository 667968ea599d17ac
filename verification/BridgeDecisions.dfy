/** What each decision of the bridge depends on, and what follows from it over whole runs. */
module BridgeDecisions {
  import opened Results
  import opened Bridge

  // ----- Taking connections in -------------------------------------------------------

  /** A connection is taken in exactly if it comes from the same user and a slot is free; it then
      takes one. Any other is closed without a trace but that it was seen. */
  lemma AcceptDecides(s: Server, c: nat, sameUser: bool)
    requires s.acceptor.Polling? && c !in s.seen
    ensures After(s, Accept(c, sameUser)) ==
              if sameUser && s.slots > 0
              then Some(s.(seen := s.seen + {c}, slots := s.slots - 1, acceptor := Acquired(c)))
              else Some(s.(seen := s.seen + {c}, acceptor := Listening))
  {
  }

  /** Whether the server has anything to do with a connection. */
  predicate IsKnown(s: Server, c: nat) {
    c in s.threads || TakesIn(s.acceptor, c) || c in s.connections || c in s.requests || c in s.written
  }

  lemma KnownByAccepting(s: Server, step: Step, c: nat)
    requires After(s, step).Some? && !IsKnown(s, c) && IsKnown(After(s, step).value, c)
    ensures step == Accept(c, true)
  {
  }

  /** In every interleaving, a connection that has a thread, a request or an answer was offered by
      the same user. */
  lemma {:induction false} OnlyTheSameUserIsServed(s: Server, steps: seq<Step>, c: nat)
    requires Run(s, steps).Some? && !IsKnown(s, c) && IsKnown(Run(s, steps).value, c)
    ensures Accept(c, true) in steps
    decreases steps
  {
    var next := After(s, steps[0]).value;
    if IsKnown(next, c) {
      KnownByAccepting(s, steps[0], c);
    } else {
      OnlyTheSameUserIsServed(next, steps[1..], c);
    }
  }

  // ----- Stopping --------------------------------------------------------------------

  /** The acceptor looks at `stopped` before each wait for a connection. */
  lemma PollDecides(s: Server)
    requires s.acceptor.Listening?
    ensures After(s, Poll) == Some(s.(acceptor := if s.stopped then Ended else Polling))
  {
  }

  lemma StoppedStays(s: Server, step: Step)
    requires After(s, step).Some? && s.stopped && !s.acceptor.Polling?
    ensures After(s, step).value.stopped && !After(s, step).value.acceptor.Polling?
    ensures After(s, step).value.seen == s.seen
  {
  }

  /** Once the server is stopped, and but for a wait already begun, no connection is ever accepted. */
  lemma {:induction false} StoppedAcceptsNoMore(s: Server, steps: seq<Step>)
    requires Run(s, steps).Some? && s.stopped && !s.acceptor.Polling?
    ensures Run(s, steps).value.seen == s.seen && Run(s, steps).value.stopped
    decreases steps
  {
    if steps != [] {
      StoppedStays(s, steps[0]);
      StoppedAcceptsNoMore(After(s, steps[0]).value, steps[1..]);
    }
  }

  // ----- Requests --------------------------------------------------------------------

  lemma RequestsByReading(s: Server, step: Step, c: nat)
    requires After(s, step).Some? && c in After(s, step).value.requests
    ensures (c in s.requests && After(s, step).value.requests[c] == s.requests[c])
         || (step.Read? && step.connection == c && After(s, step).value.requests[c] == step.id && IsRequestId(step.id))
  {
  }

  /** In every interleaving, the request of a connection is one it sent, with a well-formed id. */
  lemma {:induction false} RequestsWereSent(s: Server, steps: seq<Step>, c: nat)
    requires Run(s, steps).Some? && c !in s.requests && c in Run(s, steps).value.requests
    ensures exists id :: Read(c, id) in steps && IsRequestId(id)
    decreases steps
  {
    var next := After(s, steps[0]).value;
    if c in next.requests {
      RequestsByReading(s, steps[0], c);
      assert steps[0] == Read(c, next.requests[c]);
    } else {
      RequestsWereSent(next, steps[1..], c);
      var id :| Read(c, id) in steps[1..] && IsRequestId(id);
      assert Read(c, id) in steps;
    }
  }

  /** A request becomes a job with two minutes to live; it is queued exactly if the queue is not
      full, and otherwise cancelled at once, its thread leaving. */
  lemma PutDecides(s: Server, c: nat)
    requires c in s.threads && s.threads[c].Accepted?
    ensures var (j, id) := (|s.jobs|, s.threads[c].id);
            After(s, Put(c)) ==
              if |s.queue| < 32
              then Some(s.(jobs := s.jobs + [Job(c, id, s.now + 120, false, false, None)], queue := s.queue + [j],
                           threads := s.threads[c := Waiting(j)]))
              else Some(s.(jobs := s.jobs + [Job(c, id, s.now + 120, false, true, None)],
                           threads := s.threads[c := Leaving]))
  {
  }

  // ----- Waiting ---------------------------------------------------------------------

  /** A thread goes on to answer exactly if its job is done. */
  lemma WaitDecides(s: Server, c: nat)
    requires c in s.threads && s.threads[c].Waiting? && s.threads[c].job < |s.jobs|
    ensures var j := s.threads[c].job;
            After(s, Wait(c)) == Some(s.(threads := s.threads[c := if s.jobs[j].done then Writing(j) else Checking(j)]))
  {
  }

  /** A thread gives its job up exactly if the server is stopped, the job's time is over, or its
      peer has closed; otherwise it waits on and nothing changes. */
  lemma CheckDecides(s: Server, c: nat, peerClosed: bool)
    requires c in s.threads && s.threads[c].Checking? && s.threads[c].job < |s.jobs|
    ensures var j := s.threads[c].job;
            After(s, Check(c, peerClosed)) ==
              if s.stopped || s.jobs[j].deadline <= s.now || peerClosed
              then Some(s.(jobs := s.jobs[j := s.jobs[j].(cancelled := true)], threads := s.threads[c := Leaving]))
              else Some(s.(threads := s.threads[c := Waiting(j)]))
  {
  }

  /** A thread that fails at anything leaves, and gives its job up if it has one. */
  lemma QuitDecides(s: Server, c: nat)
    requires c in s.threads && !s.threads[c].Leaving? && !s.threads[c].Forgotten? && !s.threads[c].Closed?
    requires JobOf(s.threads[c]).Some? ==> JobOf(s.threads[c]).value < |s.jobs|
    ensures var leaving := s.(threads := s.threads[c := Leaving]);
            match JobOf(s.threads[c])
            case None => After(s, Quit(c)) == Some(leaving)
            case Some(j) => After(s, Quit(c)) == Some(leaving.(jobs := s.jobs[j := s.jobs[j].(cancelled := true)]))
  {
  }

  lemma GivingUpPrevents(s: Server, step: Step, steps: seq<Step>, j: nat)
    requires After(s, step).Some? && IsGivenUp(After(s, step).value, j) && !HasStarted(s, j) && j < |s.jobs|
    requires !step.Clear? && Run(s, [step] + steps).Some?
    ensures !HasStarted(Run(s, [step] + steps).value, j)
  {
    var next := After(s, step).value;
    RunOn(s, step, next, steps);
    StartsExactlyIfWanted(s, step, j);
    GivenUpNeverRuns(next, steps, j);
  }

  /** Over any run: if a thread looks after its job once the server is stopped, the job's time is
      over or its peer has closed, and the main thread has not let the job through by then, the
      job never runs. */
  lemma CheckedAwayNeverRuns(s: Server, c: nat, peerClosed: bool, steps: seq<Step>)
    requires c in s.threads && s.threads[c].Checking? && s.threads[c].job < |s.jobs|
    requires s.stopped || s.jobs[s.threads[c].job].deadline <= s.now || peerClosed
    requires !HasStarted(s, s.threads[c].job) && Run(s, [Check(c, peerClosed)] + steps).Some?
    ensures !HasStarted(Run(s, [Check(c, peerClosed)] + steps).value, s.threads[c].job)
  {
    CheckDecides(s, c, peerClosed);
    GivingUpPrevents(s, Check(c, peerClosed), steps, s.threads[c].job);
  }

  /** Over any run: nor does the job of a thread that fails before it was let through. */
  lemma FailedThreadsJobNeverRuns(s: Server, c: nat, steps: seq<Step>)
    requires c in s.threads && JobOf(s.threads[c]).Some? && JobOf(s.threads[c]).value < |s.jobs|
    requires !HasStarted(s, JobOf(s.threads[c]).value) && Run(s, [Quit(c)] + steps).Some?
    ensures !HasStarted(Run(s, [Quit(c)] + steps).value, JobOf(s.threads[c]).value)
  {
    QuitDecides(s, c);
    GivingUpPrevents(s, Quit(c), steps, JobOf(s.threads[c]).value);
  }

  // ----- The main thread and the clock -----------------------------------------------

  /** A call of `drain` with `max` jobs, left to itself, serves that many from the queue, or all. */
  lemma DrainCallServes(s: Server, max: nat, outcomes: nat -> Outcome) returns (steps: seq<Step>, end: Server)
    requires s.main.Idle? && IsInLine(s)
    ensures Run(s, [Drain(max)] + steps) == Some(end) && (forall step :: step in steps ==> IsDraining(step))
    ensures end.main.Idle? && Served(s, end, if max < |s.queue| then max else |s.queue|)
  {
    var draining := s.(main := Draining(max));
    RunOn(s, Drain(max), draining, []);
    steps, end := DrainServes(draining, outcomes);
    RunOn(s, Drain(max), draining, steps);
    SameService(s, draining, end, Turns(draining));
  }

  lemma SameService(s: Server, draining: Server, end: Server, k: nat)
    requires Served(draining, end, k) && draining == s.(main := draining.main)
    ensures Served(s, end, k)
  {
    WantedAlike(draining, s, s.queue[..k]);
  }

  lemma ClockAndStop(s: Server, seconds: nat)
    ensures After(s, Tick(seconds)) == Some(s.(now := s.now + seconds))
    ensures After(s, Stop) == Some(s.(stopped := true))
  {
  }

  // ----- A whole exchange ------------------------------------------------------------

  /** The request of the first connection, taken and let through, answered, and done. */
  function Cleared0(id: string): Server { Queued0(id).(queue := [], main := Dispatching(0, 0)) }

  function Answered0(id: string, outcome: Outcome): Server {
    Cleared0(id).(main := Answered(0, 0), ran := [0],
                  jobs := [Job(0, id, PATIENCE, false, false, Some(Response(id, outcome)))])
  }

  function Done0(id: string, outcome: Outcome): Server {
    Answered0(id, outcome).(main := Idle, jobs := [Job(0, id, PATIENCE, true, false, Some(Response(id, outcome)))])
  }

  /** Its answer is written, and its connection forgotten and closed. */
  function Written0(id: string, outcome: Outcome): Server {
    Done0(id, outcome).(threads := map[0 := Leaving], written := map[0 := Frame(0, Some(Response(id, outcome)))])
  }

  function Closed0(id: string, outcome: Outcome): Server {
    Written0(id, outcome).(threads := map[0 := Closed], connections := {})
  }

  lemma JobIsCleared(id: string)
    ensures Run(Queued0(id), [Drain(1), Take] + [Clear]) == Some(Cleared0(id))
  {
    var s := Queued0(id);
    var taken := s.(main := Taken(0, 0), queue := []);
    assert s.queue[1..] == [];
    TwoSteps(s, Drain(1), s.(main := Draining(1)), Take);
    RunOn(taken, Clear, Cleared0(id), []);
    assert [Clear] + [] == [Clear];
    JoinedSteps(s, [Drain(1), Take], taken, [Clear], Cleared0(id));
  }

  lemma JobIsAnswered(id: string, outcome: Outcome)
    ensures Run(Cleared0(id), [Dispatch(outcome), Finish] + [Take]) == Some(Done0(id, outcome))
  {
    var s, answered := Cleared0(id), Answered0(id, outcome);
    assert s.ran + [0] == [0];
    assert s.jobs[0 := s.jobs[0].(response := Some(Response(id, outcome)))] == answered.jobs;
    assert answered.jobs[0 := answered.jobs[0].(done := true)] == Done0(id, outcome).jobs;
    var finished := Done0(id, outcome).(main := Draining(0));
    TwoSteps(s, Dispatch(outcome), answered, Finish);
    RunOn(finished, Take, Done0(id, outcome), []);
    assert [Take] + [] == [Take];
    JoinedSteps(s, [Dispatch(outcome), Finish], finished, [Take], Done0(id, outcome));
  }

  lemma AnswerIsWritten(id: string, outcome: Outcome)
    ensures Run(Done0(id, outcome), [Wait(0), Write(0)]) == Some(Written0(id, outcome))
  {
    var s := Done0(id, outcome);
    var writing := s.(threads := map[0 := Writing(0)]);
    assert s.threads[0 := Writing(0)] == writing.threads;
    assert writing.threads[0 := Leaving] == Written0(id, outcome).threads;
    assert s.written[0 := Frame(0, Some(Response(id, outcome)))] == Written0(id, outcome).written;
    TwoSteps(s, Wait(0), writing, Write(0));
  }

  lemma ConnectionIsClosed(id: string, outcome: Outcome)
    ensures Run(Written0(id, outcome), [Forget(0), CloseSocket(0)]) == Some(Closed0(id, outcome))
  {
    var s, closed := Written0(id, outcome), Closed0(id, outcome);
    var forgotten := closed.(threads := map[0 := Forgotten]);
    assert s.threads[0 := Forgotten] == forgotten.threads && forgotten.threads[0 := Closed] == closed.threads;
    assert s.connections - {0} == {};
    TwoSteps(s, Forget(0), forgotten, CloseSocket(0));
  }

  lemma SlotIsReleased(id: string, outcome: Outcome)
    ensures Run(Closed0(id, outcome), [Release(0)]) == Some(Closed0(id, outcome).(threads := map[], slots := SLOTS))
  {
    var s := Closed0(id, outcome);
    assert s.threads - {0} == map[];
    RunOn(s, Release(0), s.(threads := map[], slots := SLOTS), []);
    assert [Release(0)] + [] == [Release(0)];
  }

  /** From the start there is a run that serves a connection: its request is dispatched in time,
      the answer carries its id and the outcome, and nothing is left taken. */
  lemma RequestIsAnswered(id: string, outcome: Outcome) returns (steps: seq<Step>, end: Server)
    requires IsRequestId(id)
    ensures Run(START, steps) == Some(end)
    ensures 0 in end.written && end.written[0].response == Some(Response(id, outcome)) && end.ran == [0]
    ensures end.slots == SLOTS && end.threads == map[] && end.connections == {} && end.main.Idle?
  {
    ConnectionIsTaken();
    steps := [Poll, Accept(0, true)] + [Register, Spawn];
    RequestIsQueued(id);
    steps := Extended(steps, Served0(), [Greet(0), Read(0, id)] + [Put(0)], Queued0(id));
    JobIsCleared(id);
    steps := Extended(steps, Queued0(id), [Drain(1), Take] + [Clear], Cleared0(id));
    JobIsAnswered(id, outcome);
    steps := Extended(steps, Cleared0(id), [Dispatch(outcome), Finish] + [Take], Done0(id, outcome));
    AnswerIsWritten(id, outcome);
    steps := Extended(steps, Done0(id, outcome), [Wait(0), Write(0)], Written0(id, outcome));
    ConnectionIsClosed(id, outcome);
    steps := Extended(steps, Written0(id, outcome), [Forget(0), CloseSocket(0)], Closed0(id, outcome));
    SlotIsReleased(id, outcome);
    end := Closed0(id, outcome).(threads := map[], slots := SLOTS);
    steps := Extended(steps, Closed0(id, outcome), [Release(0)], end);
  }

  lemma Extended(steps: seq<Step>, middle: Server, rest: seq<Step>, end: Server) returns (longer: seq<Step>)
    requires Run(START, steps) == Some(middle) && Run(middle, rest) == Some(end)
    ensures Run(START, longer) == Some(end)
  {
    longer := steps + rest;
    JoinedSteps(START, steps, middle, rest, end);
  }
}
