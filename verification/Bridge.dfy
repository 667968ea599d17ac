/** The bridge between socket threads and the main thread, as interleaved steps: one acceptor,
    any number of serving threads, one draining main thread, a clock, and a stop from anywhere.
    A step is what one thread does between two points where another may intervene. */
module Bridge {
  import opened Results
  import opened Sets

  const SLOTS := 8
  const QUEUE_SIZE := 32
  const PATIENCE := 120

  /** What a dispatched command comes back with: data, or an error code. */
  datatype Outcome = Data(text: string) | Failed(code: string)
  datatype Response = Response(id: string, outcome: Outcome)

  datatype Job = Job(owner: nat, id: string, deadline: nat, done: bool, cancelled: bool, response: Option<Response>)

  /** Where a serving thread is. `Leaving` on are the steps of its `finally` block. */
  datatype Phase =
    | Hello
    | Ready
    | Accepted(id: string)
    | Waiting(job: nat)
    | Checking(job: nat)
    | Writing(job: nat)
    | Leaving
    | Forgotten
    | Closed

  /** `Polling` is inside `accept`, after `stopped` was looked at. */
  datatype Acceptor = Listening | Polling | Acquired(connection: nat) | Registered(connection: nat) | Ended

  /** Where the main thread is; `left` jobs may still be taken in this call of `drain`. */
  datatype Main =
    | Idle
    | Draining(left: nat)
    | Taken(job: nat, left: nat)
    | Dispatching(job: nat, left: nat)
    | Answered(job: nat, left: nat)

  /** The last frame of a connection; a response of None is a null frame. */
  datatype Frame = Frame(job: nat, response: Option<Response>)

  /** Jobs are known by their position in `jobs`. `seen`, `requests`, `written` and `ran` are
      history: connections offered, the request of each, its answer, and jobs dispatched. */
  datatype Server = Server(slots: nat, connections: set<nat>, threads: map<nat, Phase>, acceptor: Acceptor,
                           queue: seq<nat>, jobs: seq<Job>, main: Main, stopped: bool, now: nat,
                           seen: set<nat>, requests: map<nat, string>, written: map<nat, Frame>, ran: seq<nat>)

  const START := Server(SLOTS, {}, map[], Listening, [], [], Idle, false, 0, {}, map[], map[], [])

  // ----- Steps -----------------------------------------------------------------------

  datatype Step =
    // `_accept`
    | Poll
    | Accept(connection: nat, sameUser: bool)
    | AcceptNone(broken: bool)
    | Register
    | Spawn
    // `_serve`
    | Greet(connection: nat)
    | Read(connection: nat, id: string)
    | Put(connection: nat)
    | Wait(connection: nat)
    | Check(connection: nat, peerClosed: bool)
    | Write(connection: nat)
    | Quit(connection: nat)
    | Forget(connection: nat)
    | CloseSocket(connection: nat)
    | Release(connection: nat)
    // `drain`
    | Drain(max: nat)
    | Take
    | Clear
    | Dispatch(outcome: Outcome)
    | Finish
    // `stop` and time
    | Stop
    | Tick(seconds: nat)

  ghost predicate IsRequestId(id: string) {
    |id| == 32 && forall i :: 0 <= i < 32 ==> '0' <= id[i] <= '9' || 'a' <= id[i] <= 'f'
  }

  function Moved(s: Server, c: nat, phase: Phase): Server { s.(threads := s.threads[c := phase]) }

  function Cancelled(s: Server, j: nat): Server
    requires j < |s.jobs|
  {
    s.(jobs := s.jobs[j := s.jobs[j].(cancelled := true)])
  }

  function Done(s: Server, j: nat): Server
    requires j < |s.jobs|
  {
    s.(jobs := s.jobs[j := s.jobs[j].(done := true)])
  }

  /** The job a thread waits for or answers, if it has one. */
  function JobOf(phase: Phase): Option<nat> {
    match phase
    case Waiting(j) => Some(j)
    case Checking(j) => Some(j)
    case Writing(j) => Some(j)
    case _ => None
  }

  /** Whether a step of `_serve` is the next one in the given phase. */
  ghost predicate IsNext(step: Step, phase: Phase) {
    match step
    case Greet(_) => phase.Hello?
    case Read(_, id) => phase.Ready? && IsRequestId(id)
    case Put(_) => phase.Accepted?
    case Wait(_) => phase.Waiting?
    case Check(_, _) => phase.Checking?
    case Write(_) => phase.Writing?
    // A wrong hello or request, or any socket, frame or encoding error.
    case Quit(_) => !phase.Leaving? && !phase.Forgotten? && !phase.Closed?
    case Forget(_) => phase.Leaving?
    case CloseSocket(_) => phase.Forgotten?
    case Release(_) => phase.Closed?
    case _ => false
  }

  predicate IsServing(step: Step) {
    step.Greet? || step.Read? || step.Put? || step.Wait? || step.Check? || step.Write? || step.Quit? || step.Forget?
    || step.CloseSocket? || step.Release?
  }

  predicate IsDraining(step: Step) {
    step.Drain? || step.Take? || step.Clear? || step.Dispatch? || step.Finish?
  }

  predicate IsAccepting(step: Step) {
    step.Poll? || step.Accept? || step.AcceptNone? || step.Register? || step.Spawn?
  }

  /** A serving thread takes a step. */
  ghost function Serve(s: Server, step: Step): Server
    requires CanServe(s, step)
  {
    var c, phase := step.connection, s.threads[step.connection];
    match step
    case Greet(_) => Moved(s, c, Ready)
    case Read(_, id) => Moved(s, c, Accepted(id)).(requests := s.requests[c := id])
    case Put(_) =>
      var j, job := |s.jobs|, Job(c, phase.id, s.now + PATIENCE, false, false, None);
      if |s.queue| < QUEUE_SIZE then Moved(s, c, Waiting(j)).(jobs := s.jobs + [job], queue := s.queue + [j])
      else Moved(s, c, Leaving).(jobs := s.jobs + [job.(cancelled := true)])
    case Wait(_) => Moved(s, c, if s.jobs[phase.job].done then Writing(phase.job) else Checking(phase.job))
    case Check(_, peerClosed) =>
      if s.stopped || s.now >= s.jobs[phase.job].deadline || peerClosed then Moved(Cancelled(s, phase.job), c, Leaving)
      else Moved(s, c, Waiting(phase.job))
    case Write(_) => Moved(s, c, Leaving).(written := s.written[c := Frame(phase.job, s.jobs[phase.job].response)])
    case Quit(_) => Moved(if JobOf(phase).Some? then Cancelled(s, JobOf(phase).value) else s, c, Leaving)
    case Forget(_) => Moved(s, c, Forgotten).(connections := s.connections - {c})
    case CloseSocket(_) => Moved(s, c, Closed)
    case Release(_) => s.(threads := s.threads - {c}, slots := s.slots + 1)
  }

  /** The acceptor takes a step, if it is its next one. */
  function AcceptorAfter(s: Server, step: Step): Option<Server> {
    match step
    case Poll =>
      if !s.acceptor.Listening? then None else Some(s.(acceptor := if s.stopped then Ended else Polling))
    case AcceptNone(broken) =>
      if !s.acceptor.Polling? then None else Some(s.(acceptor := if broken then Ended else Listening))
    case Accept(c, sameUser) =>
      if !s.acceptor.Polling? || c in s.seen then None
      else if !sameUser || s.slots == 0 then Some(s.(seen := s.seen + {c}, acceptor := Listening))
      else Some(s.(seen := s.seen + {c}, slots := s.slots - 1, acceptor := Acquired(c)))
    case Register =>
      if !s.acceptor.Acquired? then None
      else Some(s.(connections := s.connections + {s.acceptor.connection},
                   acceptor := Registered(s.acceptor.connection)))
    case Spawn =>
      if !s.acceptor.Registered? then None
      else Some(Moved(s, s.acceptor.connection, Hello).(acceptor := Listening))
    case _ => None
  }

  /** The main thread takes a step, if it is its next one. */
  function MainAfter(s: Server, step: Step): Option<Server> {
    match step
    case Drain(max) =>
      if !s.main.Idle? then None else Some(s.(main := Draining(max)))
    case Take =>
      if !s.main.Draining? then None
      else if s.main.left == 0 || s.queue == [] then Some(s.(main := Idle))
      else Some(s.(main := Taken(s.queue[0], s.main.left - 1), queue := s.queue[1..]))
    case Clear =>
      if !s.main.Taken? || s.main.job >= |s.jobs| then None
      else if s.jobs[s.main.job].cancelled || s.now >= s.jobs[s.main.job].deadline then
        Some(Done(s, s.main.job).(main := Draining(s.main.left)))
      else Some(s.(main := Dispatching(s.main.job, s.main.left)))
    case Dispatch(outcome) =>
      if !s.main.Dispatching? || s.main.job >= |s.jobs| then None else
        var j := s.main.job;
        var job := s.jobs[j].(response := Some(Response(s.jobs[j].id, outcome)));
        Some(s.(jobs := s.jobs[j := job], ran := s.ran + [j], main := Answered(j, s.main.left)))
    case Finish =>
      if !s.main.Answered? || s.main.job >= |s.jobs| then None
      else Some(Done(s, s.main.job).(main := Draining(s.main.left)))
    case _ => None
  }

  /** Whether a step of `_serve` is the next one of its thread. */
  ghost predicate CanServe(s: Server, step: Step) {
    && IsServing(step) && step.connection in s.threads
    && var phase := s.threads[step.connection];
       IsNext(step, phase) && (JobOf(phase).Some? ==> JobOf(phase).value < |s.jobs|)
  }

  /** The state after a step, or None where the step is not the next one of its thread. */
  ghost function After(s: Server, step: Step): Option<Server> {
    match step
    case Stop => Some(s.(stopped := true))
    case Tick(seconds) => Some(s.(now := s.now + seconds))
    case _ =>
      if IsServing(step) then if CanServe(s, step) then Some(Serve(s, step)) else None
      else if IsDraining(step) then MainAfter(s, step)
      else AcceptorAfter(s, step)
  }

  // ----- The invariant ---------------------------------------------------------------

  predicate TakesIn(acceptor: Acceptor, c: nat) {
    (acceptor.Acquired? || acceptor.Registered?) && acceptor.connection == c
  }

  /** Who holds a slot: every thread that is not gone, and the connection being taken in. */
  ghost function Holders(threads: map<nat, Phase>, acceptor: Acceptor): set<nat> {
    threads.Keys + if acceptor.Acquired? || acceptor.Registered? then {acceptor.connection} else {}
  }

  ghost predicate SlotsOk(s: Server) { s.slots + |Holders(s.threads, s.acceptor)| == SLOTS }

  /** One connection: taken in once, and open as long as `stop` would shut it down. */
  ghost predicate ConnectionOk(s: Server, c: nat) {
    && (c in s.threads || c in s.requests || TakesIn(s.acceptor, c) ==> c in s.seen)
    && (TakesIn(s.acceptor, c) ==> c !in s.threads && c !in s.requests)
    && (c in s.connections ==>
          if c in s.threads then !s.threads[c].Forgotten? && !s.threads[c].Closed? else s.acceptor == Registered(c))
  }

  predicate MainHas(main: Main, j: nat) {
    (main.Taken? || main.Dispatching? || main.Answered?) && main.job == j
  }

  /** Jobs in the order they have run or may still run. */
  function Line(s: Server): seq<nat> {
    s.ran + (if s.main.Taken? || s.main.Dispatching? then [s.main.job] else []) + s.queue
  }

  ghost predicate Increasing(line: seq<nat>) { forall a, b :: 0 <= a < b < |line| ==> line[a] < line[b] }

  ghost predicate LineOk(s: Server) {
    && |s.queue| <= QUEUE_SIZE
    && Increasing(Line(s))
    && (forall a :: 0 <= a < |Line(s)| ==> Line(s)[a] < |s.jobs|)
    && (s.main.Answered? ==> s.main.job in s.ran)
  }

  /** A thread stands by the job until it is done. */
  ghost predicate IsWatched(job: Job, j: nat, threads: map<nat, Phase>) {
    job.owner in threads && (threads[job.owner] == Waiting(j) || threads[job.owner] == Checking(j))
  }

  /** One job: answered with its own id exactly if it ran, undone while the main thread may
      still come to it, never lost, and watched or cancelled as long as it is undone. */
  ghost predicate JobOk(s: Server, j: nat)
    requires j < |s.jobs|
  {
    var job := s.jobs[j];
    && (job.response.Some? <==> j in s.ran)
    && (job.response.Some? ==> job.response.value.id == job.id)
    && job.owner in s.requests && s.requests[job.owner] == job.id
    && (job.owner in s.threads ==> !s.threads[job.owner].Accepted?)
    && (j in s.queue || MainHas(s.main, j) ==> !job.done)
    && (!job.done ==> j in s.queue || MainHas(s.main, j) || job.cancelled)
    && (!job.done ==> job.cancelled || IsWatched(job, j, s.threads))
    && (job.done && job.response.None? ==> job.cancelled || job.deadline <= s.now)
  }

  /** Two jobs are two connections' jobs. */
  ghost predicate Apart(s: Server, i: nat, j: nat) {
    i < j < |s.jobs| ==> s.jobs[i].owner != s.jobs[j].owner
  }

  /** One thread: it remembers its request, and owns the job it waits for, not yet given up. */
  ghost predicate ThreadOk(s: Server, c: nat)
    requires c in s.threads
  {
    var phase := s.threads[c];
    && (phase.Hello? || phase.Ready? ==> c !in s.requests)
    && (phase.Accepted? ==> c in s.requests && s.requests[c] == phase.id)
    && (JobOf(phase).Some? ==>
          var j := JobOf(phase).value;
          j < |s.jobs| && s.jobs[j].owner == c && !s.jobs[j].cancelled && (phase.Writing? ==> s.jobs[j].done))
  }

  /** One answer: the response of the connection's own job, null only past its deadline. */
  ghost predicate FrameOk(s: Server, c: nat)
    requires c in s.written
  {
    var frame := s.written[c];
    && frame.job < |s.jobs| && s.jobs[frame.job].owner == c && s.jobs[frame.job].done
    && frame.response == s.jobs[frame.job].response
    && (frame.response.None? ==> s.jobs[frame.job].deadline <= s.now)
  }

  ghost predicate Connections(s: Server) { forall c {:trigger ConnectionOk(s, c)} :: ConnectionOk(s, c) }

  ghost predicate Jobs(s: Server) { forall j: nat {:trigger JobOk(s, j)} :: j < |s.jobs| ==> JobOk(s, j) }

  ghost predicate Owners(s: Server) { forall i: nat, j: nat {:trigger Apart(s, i, j)} :: Apart(s, i, j) }

  ghost predicate Threads(s: Server) { forall c {:trigger ThreadOk(s, c)} :: c in s.threads ==> ThreadOk(s, c) }

  ghost predicate Frames(s: Server) { forall c {:trigger FrameOk(s, c)} :: c in s.written ==> FrameOk(s, c) }

  ghost predicate Inv(s: Server) {
    SlotsOk(s) && LineOk(s) && Connections(s) && Jobs(s) && Owners(s) && Threads(s) && Frames(s)
  }

  // ----- What every step keeps -------------------------------------------------------

  lemma MovingHoldsOn(threads: map<nat, Phase>, acceptor: Acceptor, c: nat, phase: Phase)
    requires c in threads
    ensures Holders(threads[c := phase], acceptor) == Holders(threads, acceptor)
  {
  }

  lemma ReleasingGivesUp(threads: map<nat, Phase>, acceptor: Acceptor, c: nat)
    requires c in threads && !TakesIn(acceptor, c)
    ensures |Holders(threads, acceptor)| == |Holders(threads - {c}, acceptor)| + 1
  {
    assert Holders(threads, acceptor) == Holders(threads - {c}, acceptor) + {c};
  }

  lemma AcquiringHolds(threads: map<nat, Phase>, c: nat)
    requires c !in threads
    ensures |Holders(threads, Acquired(c))| == |Holders(threads, Polling)| + 1
    ensures Holders(threads, Registered(c)) == Holders(threads, Acquired(c))
    ensures Holders(threads[c := Hello], Listening) == Holders(threads, Registered(c))
  {
    assert Holders(threads, Polling) == threads.Keys;
    assert Holders(threads, Acquired(c)) == threads.Keys + {c};
  }

  lemma ReleaseKeepsSlots(s: Server, step: Step)
    requires SlotsOk(s) && step.Release? && CanServe(s, step) && ConnectionOk(s, step.connection)
    ensures SlotsOk(Serve(s, step))
  {
    ReleasingGivesUp(s.threads, s.acceptor, step.connection);
  }

  lemma ServingMovesOn(s: Server, step: Step)
    requires CanServe(s, step) && !step.Release?
    ensures var s' := Serve(s, step);
            && s'.slots == s.slots && s'.acceptor == s.acceptor && step.connection in s'.threads
            && s'.threads == s.threads[step.connection := s'.threads[step.connection]]
  {
  }

  lemma MovedSlots(s: Server, s': Server, c: nat)
    requires SlotsOk(s) && c in s.threads && c in s'.threads && s'.threads == s.threads[c := s'.threads[c]]
    requires s'.slots == s.slots && s'.acceptor == s.acceptor
    ensures SlotsOk(s')
  {
    MovingHoldsOn(s.threads, s.acceptor, c, s'.threads[c]);
  }

  lemma ServingKeepsSlots(s: Server, step: Step)
    requires SlotsOk(s) && CanServe(s, step) && ConnectionOk(s, step.connection)
    ensures SlotsOk(Serve(s, step))
  {
    if step.Release? {
      ReleaseKeepsSlots(s, step);
    } else {
      ServingMovesOn(s, step);
      MovedSlots(s, Serve(s, step), step.connection);
    }
  }

  lemma IdlingHoldsOn(threads: map<nat, Phase>)
    ensures Holders(threads, Listening) == Holders(threads, Polling) == Holders(threads, Ended)
  {
  }

  lemma AcceptKeepsSlots(s: Server, step: Step)
    requires SlotsOk(s) && step.Accept? && AcceptorAfter(s, step).Some? && ConnectionOk(s, step.connection)
    ensures SlotsOk(AcceptorAfter(s, step).value)
  {
    IdlingHoldsOn(s.threads);
    AcquiringHolds(s.threads, step.connection);
  }

  lemma AcceptingKeepsSlots(s: Server, step: Step)
    requires SlotsOk(s) && AcceptorAfter(s, step).Some?
    requires step.Accept? ==> ConnectionOk(s, step.connection)
    requires (step.Register? || step.Spawn?) ==> ConnectionOk(s, s.acceptor.connection)
    ensures SlotsOk(AcceptorAfter(s, step).value)
  {
    IdlingHoldsOn(s.threads);
    if step.Accept? {
      AcceptKeepsSlots(s, step);
    } else if step.Register? || step.Spawn? {
      AcquiringHolds(s.threads, s.acceptor.connection);
    }
  }

  lemma ServingKeepsConnection(s: Server, step: Step, c: nat)
    requires ConnectionOk(s, c) && CanServe(s, step) && ConnectionOk(s, step.connection)
    ensures ConnectionOk(Serve(s, step), c)
  {
  }

  lemma AcceptingKeepsConnection(s: Server, step: Step, c: nat)
    requires ConnectionOk(s, c) && AcceptorAfter(s, step).Some?
    ensures ConnectionOk(AcceptorAfter(s, step).value, c)
  {
  }

  lemma DroppingKeepsIncreasing(a: seq<nat>, j: nat, b: seq<nat>)
    requires Increasing(a + [j] + b)
    ensures Increasing(a + b) && j !in a && j !in b
    ensures forall x :: x in a + b ==> x in a + [j] + b
  {
    var all := a + [j] + b;
    forall x, y | 0 <= x < y < |a + b| ensures (a + b)[x] < (a + b)[y] {
      var x', y' := if x < |a| then x else x + 1, if y < |a| then y else y + 1;
      assert all[x'] == (a + b)[x] && all[y'] == (a + b)[y];
    }
    forall x | 0 <= x < |a| ensures a[x] != j { assert all[x] < all[|a|]; }
    forall x | 0 <= x < |b| ensures b[x] != j { assert all[|a|] < all[|a| + 1 + x]; }
  }

  lemma ServingKeepsLine(s: Server, step: Step)
    requires LineOk(s) && CanServe(s, step)
    ensures LineOk(Serve(s, step))
  {
    var s' := Serve(s, step);
    if step.Put? && s'.queue != s.queue {
      assert Line(s') == Line(s) + [|s.jobs|];
    } else {
      assert Line(s') == Line(s);
    }
  }

  lemma DrainingKeepsLine(s: Server, step: Step)
    requires LineOk(s) && MainAfter(s, step).Some?
    ensures LineOk(MainAfter(s, step).value)
  {
    var s' := MainAfter(s, step).value;
    if step.Clear? && s'.main.Draining? {
      DroppingKeepsIncreasing(s.ran, s.main.job, s.queue);
      assert Line(s) == s.ran + [s.main.job] + s.queue;
      assert Line(s') == s.ran + s.queue;
      forall a | 0 <= a < |Line(s')| ensures Line(s')[a] < |s.jobs| { assert Line(s')[a] in Line(s); }
    } else {
      assert Line(s') == Line(s);
    }
  }

  /** The line tells apart what ran, what is at hand and what waits. */
  ghost predicate InTurn(s: Server) {
    && (forall j {:trigger j in s.ran} :: j in s.ran ==> j !in s.queue)
    && (s.main.Taken? || s.main.Dispatching? ==> s.main.job !in s.ran && s.main.job !in s.queue)
    && (s.main.Answered? ==> s.main.job in s.ran)
    && (s.queue != [] ==> s.queue[0] !in s.queue[1..])
  }

  lemma LineIsInTurn(s: Server)
    requires LineOk(s)
    ensures InTurn(s)
  {
    var line := Line(s);
    if s.main.Taken? || s.main.Dispatching? {
      DroppingKeepsIncreasing(s.ran, s.main.job, s.queue);
    }
    var from := |line| - |s.queue|;
    forall j | j in s.ran ensures j !in s.queue {
      var a :| 0 <= a < |s.ran| && s.ran[a] == j;
      forall b | 0 <= b < |s.queue| ensures s.queue[b] != j { assert line[a] < line[from + b]; }
    }
    forall b | 1 <= b < |s.queue| ensures s.queue[b] != s.queue[0] { assert line[from] < line[from + b]; }
  }

  lemma AskingKeepsJob(s: Server, step: Step, j: nat)
    requires j < |s.jobs| && JobOk(s, j) && CanServe(s, step) && ThreadOk(s, step.connection)
    requires step.Greet? || step.Read? || step.Put?
    ensures JobOk(Serve(s, step), j)
  {
  }

  lemma AwaitingKeepsJob(s: Server, step: Step, j: nat)
    requires j < |s.jobs| && JobOk(s, j) && CanServe(s, step) && ThreadOk(s, step.connection)
    requires step.Wait? || step.Check? || step.Write? || step.Quit?
    ensures JobOk(Serve(s, step), j)
  {
  }

  lemma ServingKeepsJob(s: Server, step: Step, j: nat)
    requires j < |s.jobs| && JobOk(s, j) && CanServe(s, step) && ThreadOk(s, step.connection)
    ensures JobOk(Serve(s, step), j)
  {
    if step.Greet? || step.Read? || step.Put? {
      AskingKeepsJob(s, step, j);
    } else if step.Wait? || step.Check? || step.Write? || step.Quit? {
      AwaitingKeepsJob(s, step, j);
    }
  }

  lemma PuttingMakesJob(s: Server, step: Step)
    requires step.Put? && CanServe(s, step) && ThreadOk(s, step.connection) && LineOk(s)
    ensures JobOk(Serve(s, step), |s.jobs|)
  {
    forall a | 0 <= a < |s.ran| ensures s.ran[a] != |s.jobs| { assert Line(s)[a] < |s.jobs|; }
  }

  lemma AcceptingKeepsJob(s: Server, step: Step, j: nat)
    requires j < |s.jobs| && JobOk(s, j) && AcceptorAfter(s, step).Some?
    requires step.Spawn? ==> ConnectionOk(s, s.acceptor.connection)
    ensures JobOk(AcceptorAfter(s, step).value, j)
  {
  }

  lemma DrainingKeepsItsJob(s: Server, step: Step, j: nat)
    requires j < |s.jobs| && JobOk(s, j) && MainAfter(s, step).Some? && InTurn(s) && MainHas(s.main, j)
    ensures JobOk(MainAfter(s, step).value, j)
  {
  }

  lemma DrainingKeepsJob(s: Server, step: Step, j: nat)
    requires j < |s.jobs| && JobOk(s, j) && MainAfter(s, step).Some? && InTurn(s)
    ensures JobOk(MainAfter(s, step).value, j)
  {
    if MainHas(s.main, j) { DrainingKeepsItsJob(s, step, j); }
  }

  lemma ServingKeepsOwnThread(s: Server, step: Step)
    requires CanServe(s, step) && ThreadOk(s, step.connection) && !step.Release?
    ensures ThreadOk(Serve(s, step), step.connection)
  {
  }

  lemma ServingKeepsOtherThread(s: Server, step: Step, c: nat)
    requires CanServe(s, step) && ThreadOk(s, step.connection)
    requires c in s.threads && ThreadOk(s, c) && c != step.connection
    ensures ThreadOk(Serve(s, step), c)
  {
  }

  lemma DrainingKeepsThread(s: Server, step: Step, c: nat)
    requires c in s.threads && ThreadOk(s, c) && MainAfter(s, step).Some?
    ensures ThreadOk(MainAfter(s, step).value, c)
  {
  }

  lemma AcceptingKeepsThread(s: Server, step: Step, c: nat)
    requires c in s.threads ==> ThreadOk(s, c)
    requires AcceptorAfter(s, step).Some? && c in AcceptorAfter(s, step).value.threads
    requires step.Spawn? ==> ConnectionOk(s, s.acceptor.connection)
    ensures ThreadOk(AcceptorAfter(s, step).value, c)
  {
  }

  lemma ServingKeepsFrame(s: Server, step: Step, c: nat)
    requires CanServe(s, step) && ThreadOk(s, step.connection)
    requires JobOf(s.threads[step.connection]).Some? ==> JobOk(s, JobOf(s.threads[step.connection]).value)
    requires c in s.written ==> FrameOk(s, c)
    requires c in Serve(s, step).written
    ensures FrameOk(Serve(s, step), c)
  {
  }

  lemma DrainingKeepsFrame(s: Server, step: Step, c: nat)
    requires c in s.written && FrameOk(s, c) && MainAfter(s, step).Some?
    requires s.main.Dispatching? && s.main.job < |s.jobs| ==> JobOk(s, s.main.job)
    ensures FrameOk(MainAfter(s, step).value, c)
  {
  }

  lemma ServingKeepsSharing(s: Server, step: Step)
    requires SlotsOk(s) && LineOk(s) && Connections(s) && CanServe(s, step)
    ensures SlotsOk(Serve(s, step)) && LineOk(Serve(s, step)) && Connections(Serve(s, step))
  {
    assert ConnectionOk(s, step.connection);
    ServingKeepsSlots(s, step);
    ServingKeepsLine(s, step);
    forall c ensures ConnectionOk(Serve(s, step), c) {
      assert ConnectionOk(s, c);
      ServingKeepsConnection(s, step, c);
    }
  }

  lemma ServingKeepsJobs(s: Server, step: Step)
    requires LineOk(s) && Threads(s) && Jobs(s) && CanServe(s, step)
    ensures Jobs(Serve(s, step))
  {
    assert ThreadOk(s, step.connection);
    forall j: nat | j < |Serve(s, step).jobs| ensures JobOk(Serve(s, step), j) {
      if j < |s.jobs| { assert JobOk(s, j); ServingKeepsJob(s, step, j); } else { PuttingMakesJob(s, step); }
    }
  }

  lemma ServingKeepsOwners(s: Server, step: Step)
    requires Jobs(s) && Owners(s) && CanServe(s, step)
    ensures Owners(Serve(s, step))
  {
    forall i: nat, j: nat ensures Apart(Serve(s, step), i, j) {
      assert Apart(s, i, j);
      if i < |s.jobs| { assert JobOk(s, i); }
    }
  }

  lemma DrainingKeepsOwners(s: Server, step: Step)
    requires Owners(s) && MainAfter(s, step).Some?
    ensures Owners(MainAfter(s, step).value)
  {
    forall i: nat, j: nat ensures Apart(MainAfter(s, step).value, i, j) { assert Apart(s, i, j); }
  }

  lemma AcceptingKeepsOwners(s: Server, step: Step)
    requires Owners(s) && AcceptorAfter(s, step).Some?
    ensures Owners(AcceptorAfter(s, step).value)
  {
    forall i: nat, j: nat ensures Apart(AcceptorAfter(s, step).value, i, j) { assert Apart(s, i, j); }
  }

  lemma ServingKeepsThreads(s: Server, step: Step)
    requires Threads(s) && Jobs(s) && Frames(s) && CanServe(s, step)
    ensures Threads(Serve(s, step)) && Frames(Serve(s, step))
  {
    assert ThreadOk(s, step.connection);
    var j := JobOf(s.threads[step.connection]);
    assert j.Some? ==> JobOk(s, j.value);
    forall c | c in Serve(s, step).threads ensures ThreadOk(Serve(s, step), c) {
      assert ThreadOk(s, c);
      if c == step.connection { ServingKeepsOwnThread(s, step); } else { ServingKeepsOtherThread(s, step, c); }
    }
    forall c | c in Serve(s, step).written ensures FrameOk(Serve(s, step), c) {
      assert c in s.written ==> FrameOk(s, c);
      ServingKeepsFrame(s, step, c);
    }
  }

  lemma DrainingKeepsJobs(s: Server, step: Step)
    requires LineOk(s) && Jobs(s) && MainAfter(s, step).Some?
    ensures Jobs(MainAfter(s, step).value)
  {
    LineIsInTurn(s);
    forall j: nat | j < |s.jobs| ensures JobOk(MainAfter(s, step).value, j) {
      assert JobOk(s, j);
      DrainingKeepsJob(s, step, j);
    }
  }

  lemma DrainingKeepsThreads(s: Server, step: Step)
    requires Threads(s) && MainAfter(s, step).Some?
    ensures Threads(MainAfter(s, step).value)
  {
    forall c | c in s.threads ensures ThreadOk(MainAfter(s, step).value, c) {
      assert ThreadOk(s, c);
      DrainingKeepsThread(s, step, c);
    }
  }

  lemma DrainingKeepsFrames(s: Server, step: Step)
    requires Jobs(s) && Frames(s) && MainAfter(s, step).Some?
    ensures Frames(MainAfter(s, step).value)
  {
    assert s.main.Dispatching? && s.main.job < |s.jobs| ==> JobOk(s, s.main.job);
    forall c | c in MainAfter(s, step).value.written ensures FrameOk(MainAfter(s, step).value, c) {
      assert FrameOk(s, c);
      DrainingKeepsFrame(s, step, c);
    }
  }

  lemma DrainingHoldsOn(s: Server, step: Step)
    requires MainAfter(s, step).Some?
    ensures MainAfter(s, step).value.slots == s.slots
    ensures MainAfter(s, step).value.threads == s.threads && MainAfter(s, step).value.acceptor == s.acceptor
  {
  }

  lemma SameSlots(s: Server, s': Server)
    requires SlotsOk(s) && s'.slots == s.slots && s'.threads == s.threads && s'.acceptor == s.acceptor
    ensures SlotsOk(s')
  {
  }

  lemma DrainingKeepsConnections(s: Server, step: Step)
    requires Connections(s) && MainAfter(s, step).Some?
    ensures Connections(MainAfter(s, step).value)
  {
    forall c ensures ConnectionOk(MainAfter(s, step).value, c) { assert ConnectionOk(s, c); }
  }

  lemma AcceptingKeepsSharing(s: Server, step: Step)
    requires SlotsOk(s) && Connections(s) && AcceptorAfter(s, step).Some?
    ensures SlotsOk(AcceptorAfter(s, step).value) && Connections(AcceptorAfter(s, step).value)
  {
    if step.Accept? { assert ConnectionOk(s, step.connection); }
    if step.Register? || step.Spawn? { assert ConnectionOk(s, s.acceptor.connection); }
    AcceptingKeepsSlots(s, step);
    forall c ensures ConnectionOk(AcceptorAfter(s, step).value, c) {
      assert ConnectionOk(s, c);
      AcceptingKeepsConnection(s, step, c);
    }
  }

  lemma AcceptingKeepsThreads(s: Server, step: Step)
    requires Connections(s) && Jobs(s) && Threads(s) && AcceptorAfter(s, step).Some?
    ensures Jobs(AcceptorAfter(s, step).value) && Threads(AcceptorAfter(s, step).value)
  {
    assert step.Spawn? ==> ConnectionOk(s, s.acceptor.connection);
    forall j: nat | j < |s.jobs| ensures JobOk(AcceptorAfter(s, step).value, j) {
      assert JobOk(s, j);
      AcceptingKeepsJob(s, step, j);
    }
    forall c | c in AcceptorAfter(s, step).value.threads ensures ThreadOk(AcceptorAfter(s, step).value, c) {
      assert c in s.threads ==> ThreadOk(s, c);
      AcceptingKeepsThread(s, step, c);
    }
  }

  lemma AcceptingKeepsLine(s: Server, step: Step)
    requires LineOk(s) && AcceptorAfter(s, step).Some?
    ensures LineOk(AcceptorAfter(s, step).value)
  {
    assert Line(AcceptorAfter(s, step).value) == Line(s);
  }

  lemma AcceptingKeepsFrames(s: Server, step: Step)
    requires Frames(s) && AcceptorAfter(s, step).Some?
    ensures Frames(AcceptorAfter(s, step).value)
  {
    forall c | c in s.written ensures FrameOk(AcceptorAfter(s, step).value, c) { assert FrameOk(s, c); }
  }

  lemma SignalsKeep(s: Server, step: Step)
    requires Inv(s) && (step.Stop? || step.Tick?)
    ensures Inv(After(s, step).value)
  {
    var s' := After(s, step).value;
    assert Line(s') == Line(s);
    forall c ensures ConnectionOk(s', c) { assert ConnectionOk(s, c); }
    forall j: nat | j < |s'.jobs| ensures JobOk(s', j) { assert JobOk(s, j); }
    forall i: nat, j: nat ensures Apart(s', i, j) { assert Apart(s, i, j); }
    forall c | c in s'.threads ensures ThreadOk(s', c) { assert ThreadOk(s, c); }
    forall c | c in s'.written ensures FrameOk(s', c) { assert FrameOk(s, c); }
  }

  lemma StepKeeps(s: Server, step: Step)
    requires Inv(s) && After(s, step).Some?
    ensures Inv(After(s, step).value)
  {
    if IsServing(step) {
      ServingKeepsSharing(s, step);
      ServingKeepsJobs(s, step);
      ServingKeepsOwners(s, step);
      ServingKeepsThreads(s, step);
    } else if IsDraining(step) {
      DrainingHoldsOn(s, step);
      SameSlots(s, MainAfter(s, step).value);
      DrainingKeepsConnections(s, step);
      DrainingKeepsLine(s, step);
      DrainingKeepsJobs(s, step);
      DrainingKeepsOwners(s, step);
      DrainingKeepsThreads(s, step);
      DrainingKeepsFrames(s, step);
    } else if IsAccepting(step) {
      AcceptingKeepsSharing(s, step);
      AcceptingKeepsLine(s, step);
      AcceptingKeepsFrames(s, step);
      AcceptingKeepsOwners(s, step);
      AcceptingKeepsThreads(s, step);
    } else {
      SignalsKeep(s, step);
    }
  }

  // ----- Whole runs ------------------------------------------------------------------

  /** The state after the steps, or None if one of them is not the next of its thread. */
  ghost function Run(s: Server, steps: seq<Step>): Option<Server>
    decreases steps
  {
    if steps == [] then Some(s)
    else if After(s, steps[0]).None? then None
    else Run(After(s, steps[0]).value, steps[1..])
  }

  lemma StartIsOk()
    ensures Inv(START)
  {
    assert Holders(START.threads, START.acceptor) == {};
    assert Line(START) == [];
  }

  lemma {:induction false} RunKeeps(s: Server, steps: seq<Step>)
    requires Inv(s) && Run(s, steps).Some?
    ensures Inv(Run(s, steps).value)
    decreases steps
  {
    if steps != [] {
      StepKeeps(s, steps[0]);
      RunKeeps(After(s, steps[0]).value, steps[1..]);
    }
  }

  /** In every interleaving the connections served or taken in hold exactly the slots that are
      missing, so there are at most eight; a slot is missing whenever one is given back; and
      once nothing is served any more all are free and `stop` has no connection left. */
  lemma SlotsAreConserved(steps: seq<Step>)
    requires Run(START, steps).Some?
    ensures var s := Run(START, steps).value;
            && s.slots == SLOTS - |Holders(s.threads, s.acceptor)| >= 0
            && |s.threads.Keys| <= SLOTS
            && (s.threads != map[] ==> s.slots < SLOTS)
            && s.connections <= Holders(s.threads, s.acceptor)
            && (Holders(s.threads, s.acceptor) == {} ==> s.slots == SLOTS && s.connections == {})
  {
    StartIsOk();
    RunKeeps(START, steps);
    var s := Run(START, steps).value;
    var held := Holders(s.threads, s.acceptor);
    forall c | c in s.connections ensures c in held { assert ConnectionOk(s, c); }
    SubsetIsSmaller(s.threads.Keys, held);
    assert s.threads != map[] ==> s.threads.Keys != {};
  }

  /** In every interleaving the queue stays within its size and jobs run in the order in which
      they were taken up, each at most once, and no connection has two; one neither done nor
      cancelled is in the queue or in the main thread's hand, with its thread standing by. */
  lemma JobsRunInOrder(steps: seq<Step>)
    requires Run(START, steps).Some?
    ensures var s := Run(START, steps).value;
            && |s.queue| <= QUEUE_SIZE
            && Increasing(s.ran) && IsInLine(s)
            && (forall x, y :: x in s.ran && y in s.queue ==> x < y)
            && (forall i: nat, j: nat :: i < j < |s.jobs| ==> s.jobs[i].owner != s.jobs[j].owner)
            && (forall j: nat :: j < |s.jobs| && !s.jobs[j].done && !s.jobs[j].cancelled ==>
                  (j in s.queue || MainHas(s.main, j)) && IsWatched(s.jobs[j], j, s.threads))
  {
    StartIsOk();
    RunKeeps(START, steps);
    var s := Run(START, steps).value;
    LineSplits(s);
    forall i: nat, j: nat | i < j < |s.jobs| ensures s.jobs[i].owner != s.jobs[j].owner { assert Apart(s, i, j); }
    forall j: nat | j < |s.jobs| && !s.jobs[j].done && !s.jobs[j].cancelled
      ensures (j in s.queue || MainHas(s.main, j)) && IsWatched(s.jobs[j], j, s.threads)
    {
      assert JobOk(s, j);
    }
  }

  /** The waiting jobs, in the order in which they were taken up. */
  ghost predicate IsInLine(s: Server) {
    Increasing(s.queue) && forall a :: 0 <= a < |s.queue| ==> s.queue[a] < |s.jobs|
  }

  lemma LineSplits(s: Server)
    requires LineOk(s)
    ensures Increasing(s.ran) && IsInLine(s)
    ensures forall x, y :: x in s.ran && y in s.queue ==> x < y
  {
    var line, from := Line(s), |Line(s)| - |s.queue|;
    forall a, b | 0 <= a < b < |s.ran| ensures s.ran[a] < s.ran[b] { assert line[a] < line[b]; }
    forall a, b | 0 <= a < b < |s.queue| ensures s.queue[a] < s.queue[b] { assert line[from + a] < line[from + b]; }
    forall a | 0 <= a < |s.queue| ensures s.queue[a] < |s.jobs| { assert line[from + a] < |s.jobs|; }
    forall x, y | x in s.ran && y in s.queue ensures x < y {
      var a :| 0 <= a < |s.ran| && s.ran[a] == x;
      var b :| 0 <= b < |s.queue| && s.queue[b] == y;
      assert line[a] < line[from + b];
    }
  }

  /** Whether a connection asked for the answer it was given, and it is what its job came to. */
  ghost predicate IsOwnAnswer(s: Server, c: nat)
    requires c in s.written
  {
    var frame := s.written[c];
    && c in s.requests && frame.job < |s.jobs| && s.jobs[frame.job].owner == c
    && frame.response == s.jobs[frame.job].response
    && (frame.response.Some? ==> frame.response.value.id == s.requests[c] && frame.job in s.ran)
    && (frame.response.None? ==> frame.job !in s.ran && s.jobs[frame.job].deadline <= s.now)
  }

  /** In every interleaving a frame with a response answers the request of its own connection,
      with the outcome of a job that ran; a null frame means that the job ran out of time and
      was never run. */
  lemma AnswersAreOwn(steps: seq<Step>, c: nat)
    requires Run(START, steps).Some? && c in Run(START, steps).value.written
    ensures IsOwnAnswer(Run(START, steps).value, c)
  {
    StartIsOk();
    RunKeeps(START, steps);
    var s := Run(START, steps).value;
    assert FrameOk(s, c) && JobOk(s, s.written[c].job);
  }

  /** Of the main thread's steps the dispatch of a job gives it its response, which is the outcome
      of that dispatch under the id of the request; no job gets a second one. */
  lemma DispatchGivesResponse(s: Server, step: Step, j: nat)
    requires j < |s.jobs| && JobOk(s, j) && InTurn(s) && MainAfter(s, step).Some?
    ensures |MainAfter(s, step).value.jobs| == |s.jobs|
    ensures var job, response := s.jobs[j], MainAfter(s, step).value.jobs[j].response;
            if step.Dispatch? && s.main.job == j
            then job.response.None? && response == Some(Response(job.id, step.outcome))
            else response == job.response
  {
  }

  /** The steps of a serving thread change no response, nor what a response is checked against. */
  lemma ServingKeepsResponse(s: Server, step: Step, j: nat)
    requires j < |s.jobs| && CanServe(s, step)
    ensures |Serve(s, step).jobs| >= |s.jobs| && Serve(s, step).jobs[j].response == s.jobs[j].response
    ensures Serve(s, step).jobs[j].owner == s.jobs[j].owner && Serve(s, step).jobs[j].id == s.jobs[j].id
  {
  }

  /** Whether the main thread has let a job through to its command, now or before. */
  predicate HasStarted(s: Server, j: nat) {
    j in s.ran || (s.main.Dispatching? && s.main.job == j)
  }

  ghost predicate IsGivenUp(s: Server, j: nat) {
    j < |s.jobs| && (s.jobs[j].cancelled || s.jobs[j].deadline <= s.now)
  }

  lemma StaysGivenUp(s: Server, step: Step, j: nat)
    requires After(s, step).Some? && IsGivenUp(s, j)
    ensures IsGivenUp(After(s, step).value, j)
  {
  }

  /** The one step that lets a job through is the main thread's look at the job it took, and it
      does so exactly if the job is then neither cancelled nor late. */
  lemma StartsExactlyIfWanted(s: Server, step: Step, j: nat)
    requires After(s, step).Some? && !HasStarted(s, j) && j < |s.jobs|
    ensures HasStarted(After(s, step).value, j) <==>
            step == Clear && s.main.Taken? && s.main.job == j && !IsGivenUp(s, j)
  {
  }

  /** Over any run: a job cancelled or late before the main thread let it through never runs,
      whatever the threads do afterwards. */
  lemma {:induction false} GivenUpNeverRuns(s: Server, steps: seq<Step>, j: nat)
    requires Run(s, steps).Some? && IsGivenUp(s, j) && !HasStarted(s, j)
    ensures !HasStarted(Run(s, steps).value, j)
    decreases steps
  {
    if steps != [] {
      var next := After(s, steps[0]).value;
      StaysGivenUp(s, steps[0], j);
      StartsExactlyIfWanted(s, steps[0], j);
      GivenUpNeverRuns(next, steps[1..], j);
    }
  }

  /** Over any run: a job whose thread is gone before it was let through never runs. */
  lemma AbandonedNeverRuns(before: seq<Step>, after: seq<Step>, j: nat)
    requires Run(START, before).Some? && Run(Run(START, before).value, after).Some?
    requires var s := Run(START, before).value;
             j < |s.jobs| && !s.jobs[j].done && !HasStarted(s, j) && !IsWatched(s.jobs[j], j, s.threads)
    ensures !HasStarted(Run(Run(START, before).value, after).value, j)
  {
    StartIsOk();
    RunKeeps(START, before);
    assert JobOk(Run(START, before).value, j);
    GivenUpNeverRuns(Run(START, before).value, after, j);
  }

  lemma TwoSteps(s: Server, first: Step, middle: Server, second: Step)
    requires After(s, first) == Some(middle)
    ensures Run(s, [first, second]) == After(middle, second)
  {
    assert [first, second][1..] == [second];
    assert [second][1..] == [];
    assert Run(s, [first, second]) == Run(middle, [second]);
    if After(middle, second).Some? {
      var end := After(middle, second).value;
      assert Run(end, []) == Some(end);
      assert Run(middle, [second]) == Run(end, []);
    }
  }

  lemma LateJobIsDropped(s: Server)
    requires s.main.Taken? && s.main.job < |s.jobs| && s.jobs[s.main.job].deadline <= s.now
    ensures After(s, Clear) == Some(Done(s, s.main.job).(main := Draining(s.main.left)))
  {
  }

  lemma LateJobsAreDropped(s: Server)
    requires s.main.Draining? && s.main.left > 0 && s.queue != [] && s.queue[0] < |s.jobs|
    requires s.jobs[s.queue[0]].deadline <= s.now
    ensures Run(s, [Take, Clear]).Some?
    ensures Run(s, [Take, Clear]).value.threads == s.threads
    ensures Run(s, [Take, Clear]).value.jobs == Done(s, s.queue[0]).jobs
  {
    var taken := s.(main := Taken(s.queue[0], s.main.left - 1), queue := s.queue[1..]);
    TwoSteps(s, Take, taken, Clear);
    LateJobIsDropped(taken);
  }

  lemma FinishedJobsAreAnswered(s: Server, c: nat)
    requires c in s.threads && s.threads[c].Waiting? && s.threads[c].job < |s.jobs| && s.jobs[s.threads[c].job].done
    ensures Run(s, [Wait(c), Write(c)]).Some? && c in Run(s, [Wait(c), Write(c)]).value.written
    ensures Run(s, [Wait(c), Write(c)]).value.written[c].response == s.jobs[s.threads[c].job].response
  {
    TwoSteps(s, Wait(c), Moved(s, c, Writing(s.threads[c].job)), Write(c));
  }

  /** A null frame does happen: whenever a waiting job's time runs out before the main thread
      takes it, and its thread finds it done before it looks at the clock. */
  lemma LateJobsGetNullFrames(s: Server, c: nat)
    requires Inv(s) && c in s.threads && s.threads[c].Waiting? && s.threads[c].job < |s.jobs|
    requires s.main.Draining? && s.main.left > 0 && s.queue != [] && s.queue[0] == s.threads[c].job
    requires s.jobs[s.threads[c].job].deadline <= s.now
    ensures var end := Run(s, [Take, Clear] + [Wait(c), Write(c)]);
            end.Some? && c in end.value.written && end.value.written[c].response.None?
  {
    assert JobOk(s, s.threads[c].job);
    LineIsInTurn(s);
    LateJobsAreDropped(s);
    RunsJoin(s, [Take, Clear], [Wait(c), Write(c)]);
    FinishedJobsAreAnswered(Run(s, [Take, Clear]).value, c);
  }

  lemma {:induction false} RunsJoin(s: Server, first: seq<Step>, rest: seq<Step>)
    requires Run(s, first).Some?
    ensures Run(s, first + rest) == Run(Run(s, first).value, rest)
    decreases first
  {
    if first == [] {
      assert first + rest == rest;
    } else {
      assert (first + rest)[1..] == first[1..] + rest;
      RunsJoin(After(s, first[0]).value, first[1..], rest);
    }
  }

  lemma JoinedSteps(s: Server, first: seq<Step>, middle: Server, rest: seq<Step>, end: Server)
    requires Run(s, first) == Some(middle) && Run(middle, rest) == Some(end)
    ensures Run(s, first + rest) == Some(end)
  {
    RunsJoin(s, first, rest);
  }

  /** The first connection is accepted and has its thread. */
  function Served0(): Server {
    START.(slots := SLOTS - 1, connections := {0}, threads := map[0 := Hello], acceptor := Listening, seen := {0})
  }

  lemma ConnectionIsTaken()
    ensures Run(START, [Poll, Accept(0, true)] + [Register, Spawn]) == Some(Served0())
  {
    var polling := START.(acceptor := Polling);
    var acquired := polling.(seen := {0}, slots := SLOTS - 1, acceptor := Acquired(0));
    var registered := acquired.(connections := {0}, acceptor := Registered(0));
    assert START.seen + {0} == {0} && START.connections + {0} == {0} && START.threads[0 := Hello] == map[0 := Hello];
    TwoSteps(START, Poll, polling, Accept(0, true));
    TwoSteps(acquired, Register, registered, Spawn);
    JoinedSteps(START, [Poll, Accept(0, true)], acquired, [Register, Spawn], Served0());
  }

  /** Its request is in the queue. */
  function Queued0(id: string): Server {
    Served0().(threads := map[0 := Waiting(0)], requests := map[0 := id], queue := [0],
               jobs := [Job(0, id, PATIENCE, false, false, None)])
  }

  lemma RequestIsQueued(id: string)
    requires IsRequestId(id)
    ensures Run(Served0(), [Greet(0), Read(0, id)] + [Put(0)]) == Some(Queued0(id))
  {
    var ready := Served0().(threads := map[0 := Ready]);
    var accepted := ready.(threads := map[0 := Accepted(id)], requests := map[0 := id]);
    assert Served0().threads[0 := Ready] == map[0 := Ready] && Served0().requests[0 := id] == map[0 := id];
    assert ready.threads[0 := Accepted(id)] == map[0 := Accepted(id)];
    assert accepted.threads[0 := Waiting(0)] == map[0 := Waiting(0)] && accepted.queue + [0] == [0];
    assert accepted.jobs + Queued0(id).jobs == Queued0(id).jobs;
    TwoSteps(Served0(), Greet(0), ready, Read(0, id));
    assert After(accepted, Put(0)) == Some(Queued0(id));
    RunOn(accepted, Put(0), Queued0(id), []);
    assert [Put(0)] + [] == [Put(0)];
    JoinedSteps(Served0(), [Greet(0), Read(0, id)], accepted, [Put(0)], Queued0(id));
  }

  /** There is such a run: one connection, one request, and a first call of `drain` after the
      job's time. */
  lemma NullFramesOccur(id: string) returns (steps: seq<Step>)
    requires IsRequestId(id)
    ensures Run(START, steps).Some? && 0 in Run(START, steps).value.written
    ensures Run(START, steps).value.written[0].response.None?
  {
    ConnectionIsTaken();
    RequestIsQueued(id);
    var asking := [Poll, Accept(0, true)] + [Register, Spawn] + ([Greet(0), Read(0, id)] + [Put(0)]);
    JoinedSteps(START, [Poll, Accept(0, true)] + [Register, Spawn], Served0(),
                [Greet(0), Read(0, id)] + [Put(0)], Queued0(id));
    var late := Queued0(id).(now := PATIENCE);
    var draining := late.(main := Draining(1));
    TwoSteps(Queued0(id), Tick(PATIENCE), late, Drain(1));
    JoinedSteps(START, asking, Queued0(id), [Tick(PATIENCE), Drain(1)], draining);
    StartIsOk();
    RunKeeps(START, asking + [Tick(PATIENCE), Drain(1)]);
    LateJobsGetNullFrames(draining, 0);
    steps := asking + [Tick(PATIENCE), Drain(1)] + ([Take, Clear] + [Wait(0), Write(0)]);
    RunsJoin(START, asking + [Tick(PATIENCE), Drain(1)], [Take, Clear] + [Wait(0), Write(0)]);
  }

  // ----- One call of drain -----------------------------------------------------------

  /** The jobs of a list that the main thread would let through now. */
  ghost function Wanted(s: Server, line: seq<nat>): seq<nat> {
    if line == [] then [] else (if IsGivenUp(s, line[0]) then [] else [line[0]]) + Wanted(s, line[1..])
  }

  lemma RunOn(s: Server, step: Step, next: Server, rest: seq<Step>)
    requires After(s, step) == Some(next)
    ensures Run(s, [step] + rest) == Run(next, rest)
  {
    assert ([step] + rest)[1..] == rest;
  }

  /** The first `k` jobs of the queue are done, have run in their order exactly if they were
      wanted, and nothing else happened to any job. */
  ghost predicate Served(s: Server, end: Server, k: nat) {
    && k <= |s.queue| && end.queue == s.queue[k..] && end.now == s.now && |end.jobs| == |s.jobs|
    && end.ran == s.ran + Wanted(s, s.queue[..k])
    && (forall a :: 0 <= a < k ==> s.queue[a] < |s.jobs| && end.jobs[s.queue[a]].done)
    && (forall j: nat :: j < |s.jobs| && j !in s.queue[..k] ==> end.jobs[j] == s.jobs[j])
  }

  lemma FirstServed(s: Server, end: Server)
    requires s.queue != [] && s.queue[0] < |s.jobs| == |end.jobs| && end.queue == s.queue[1..] && end.now == s.now
    requires end.jobs[s.queue[0]].done && end.jobs == s.jobs[s.queue[0] := end.jobs[s.queue[0]]]
    requires end.ran == s.ran + if IsGivenUp(s, s.queue[0]) then [] else [s.queue[0]]
    ensures Served(s, end, 1)
  {
    assert s.queue[..1] == [s.queue[0]];
    assert Wanted(s, [s.queue[0]][1..]) == [];
  }

  lemma UnwantedTurn(s: Server)
    requires s.main.Draining? && s.main.left > 0 && s.queue != [] && s.queue[0] < |s.jobs| && IsGivenUp(s, s.queue[0])
    ensures var end := Done(s, s.queue[0]).(main := Draining(s.main.left - 1), queue := s.queue[1..]);
            Run(s, [Take, Clear]) == Some(end) && Served(s, end, 1)
  {
    var taken := s.(main := Taken(s.queue[0], s.main.left - 1), queue := s.queue[1..]);
    TwoSteps(s, Take, taken, Clear);
    FirstServed(s, After(taken, Clear).value);
  }

  /** A job let through, answered and done. */
  function Completed(s: Server, j: nat, outcome: Outcome): Server
    requires j < |s.jobs|
  {
    s.(jobs := s.jobs[j := s.jobs[j].(response := Some(Response(s.jobs[j].id, outcome)), done := true)],
       ran := s.ran + [j])
  }

  lemma DispatchCompletes(s: Server, outcome: Outcome)
    requires s.main.Dispatching? && s.main.job < |s.jobs|
    ensures Run(s, [Dispatch(outcome), Finish]) ==
              Some(Completed(s, s.main.job, outcome).(main := Draining(s.main.left)))
  {
    var j := s.main.job;
    var job := s.jobs[j].(response := Some(Response(s.jobs[j].id, outcome)));
    var answered := s.(jobs := s.jobs[j := job], ran := s.ran + [j], main := Answered(j, s.main.left));
    assert answered.jobs[j := job.(done := true)] == s.jobs[j := job.(done := true)];
    TwoSteps(s, Dispatch(outcome), answered, Finish);
  }

  lemma WantedIsTaken(s: Server)
    requires s.main.Draining? && s.main.left > 0 && s.queue != [] && s.queue[0] < |s.jobs| && !IsGivenUp(s, s.queue[0])
    ensures Run(s, [Take, Clear]) == Some(s.(main := Dispatching(s.queue[0], s.main.left - 1), queue := s.queue[1..]))
  {
    TwoSteps(s, Take, s.(main := Taken(s.queue[0], s.main.left - 1), queue := s.queue[1..]), Clear);
  }

  lemma WantedTurn(s: Server, outcome: Outcome) returns (end: Server)
    requires s.main.Draining? && s.main.left > 0 && s.queue != [] && s.queue[0] < |s.jobs| && !IsGivenUp(s, s.queue[0])
    ensures Run(s, [Take, Clear] + [Dispatch(outcome), Finish]) == Some(end)
    ensures end.main == Draining(s.main.left - 1) && Served(s, end, 1)
  {
    WantedIsTaken(s);
    var cleared := Run(s, [Take, Clear]).value;
    DispatchCompletes(cleared, outcome);
    RunsJoin(s, [Take, Clear], [Dispatch(outcome), Finish]);
    end := Completed(cleared, s.queue[0], outcome).(main := Draining(s.main.left - 1));
    FirstServed(s, end);
  }

  /** One turn of the loop of `drain`. */
  lemma OneTurn(s: Server, outcome: Outcome) returns (steps: seq<Step>, end: Server)
    requires s.main.Draining? && s.main.left > 0 && s.queue != [] && s.queue[0] < |s.jobs|
    ensures Run(s, steps) == Some(end) && forall step :: step in steps ==> IsDraining(step)
    ensures end.main == Draining(s.main.left - 1) && Served(s, end, 1)
  {
    if IsGivenUp(s, s.queue[0]) {
      UnwantedTurn(s);
      steps, end := [Take, Clear], Run(s, [Take, Clear]).value;
    } else {
      end := WantedTurn(s, outcome);
      steps := [Take, Clear] + [Dispatch(outcome), Finish];
    }
  }

  lemma {:induction false} WantedAlike(s: Server, s': Server, line: seq<nat>)
    requires s'.now == s.now && |s'.jobs| == |s.jobs|
    requires forall j :: j in line && j < |s.jobs| ==> s'.jobs[j] == s.jobs[j]
    ensures Wanted(s', line) == Wanted(s, line)
  {
    if line != [] {
      WantedAlike(s, s', line[1..]);
    }
  }

  lemma ServedOn(s: Server, middle: Server, end: Server, k: nat)
    requires Served(s, middle, 1) && Served(middle, end, k) && Increasing(s.queue)
    ensures Served(s, end, k + 1)
  {
    var rest := middle.queue[..k];
    assert s.queue[..k + 1] == [s.queue[0]] + rest && s.queue[..1] == [s.queue[0]];
    assert s.queue[0] !in rest;
    assert Wanted(s, [s.queue[0]][1..]) == [];
    WantedAlike(s, middle, rest);
    forall a | 0 <= a < k + 1 ensures s.queue[a] < |s.jobs| && end.jobs[s.queue[a]].done {
      if a > 0 { assert s.queue[a] == middle.queue[a - 1]; }
    }
    assert s.queue[k + 1..] == s.queue[1..][k..];
  }

  lemma StaysInLine(s: Server, middle: Server)
    requires IsInLine(s) && Served(s, middle, 1)
    ensures IsInLine(middle) && |middle.queue| == |s.queue| - 1
  {
    forall a, b | 0 <= a < b < |middle.queue| ensures middle.queue[a] < middle.queue[b] {
      assert s.queue[a + 1] < s.queue[b + 1];
    }
  }

  lemma DrainEnds(s: Server)
    requires s.main.Draining? && (s.main.left == 0 || s.queue == [])
    ensures Run(s, [Take]) == Some(s.(main := Idle)) && Served(s, s.(main := Idle), 0)
  {
    RunOn(s, Take, s.(main := Idle), []);
    assert [Take] + [] == [Take];
  }

  function Turns(s: Server): nat
    requires s.main.Draining?
  {
    if s.main.left < |s.queue| then s.main.left else |s.queue|
  }

  /** Left to itself, a call of `drain` comes to its end with the first `left` jobs of the queue
      done, or all of them if there are no more; of these exactly the ones neither cancelled
      nor late have run, in their order, and no other job is touched. */
  lemma {:induction false} DrainServes(s: Server, outcomes: nat -> Outcome) returns (steps: seq<Step>, end: Server)
    requires s.main.Draining? && IsInLine(s)
    ensures Run(s, steps) == Some(end) && forall step :: step in steps ==> IsDraining(step)
    ensures end.main == Idle && Served(s, end, Turns(s))
    decreases s.main.left
  {
    if s.main.left == 0 || s.queue == [] {
      DrainEnds(s);
      steps, end := [Take], s.(main := Idle);
    } else {
      var first, middle := OneTurn(s, outcomes(s.queue[0]));
      StaysInLine(s, middle);
      var rest, last := DrainServes(middle, outcomes);
      RunsJoin(s, first, rest);
      ServedOn(s, middle, last, Turns(middle));
      steps, end := first + rest, last;
    }
  }
}
