/** The CW job queue: senders, aborting operators and the playback worker sharing an
    unbounded channel and a hand-kept depth counter. Channel operations and counter
    updates are atomic steps; everything else interleaves freely. */
module CwQueue {
  import opened Seqs

  datatype Job = Job(text: string, wpm: int)

  /** A call that has done one of its two atomic steps. */
  datatype Call =
    | Sending(job: Job)   // counter raised, channel write to come
    | Draining            // channel read by Abort, counter still to be lowered

  /** How many jobs had entered and left the channel at some moment. */
  datatype Mark = Mark(written: nat, taken: nat)

  datatype Worker =
    | Waiting
    | Took(job: Job)                                   // channel read, counter still to be lowered
    | Deciding(job: Job, remaining: int, since: Mark)  // counter lowered, transmitter not yet asked
    | Playing(job: Job)
    | Played
    | Checked(depth: int, since: Mark)                 // depth read, drained Idle still to come

  /** Idle goes out when the queue has drained, with depth 0, and for a job the
      transmitter refused, with the depth of its start. */
  datatype Status =
    | SendingStatus(job: Job, queueDepth: int)
    | AbortingStatus(job: Job, queueDepth: int)
    | IdleStatus(refused: Option<Job>, queueDepth: int)

  /** `written` lists every job that entered the channel and `taken` every job that
      left it, with whether the worker took it. */
  datatype State = State(pending: int, queue: seq<Job>, calls: map<nat, Call>, worker: Worker,
                         cancelledWrites: nat, written: seq<Job>, taken: seq<(Job, bool)>, statuses: seq<Status>)

  const START := State(0, [], map[], Waiting, 0, [], [], [])

  datatype Step =
    | SendIncrement(caller: nat, text: string, requestedWpm: int)
    | SendWrite(caller: nat)
    | SendCancelled(caller: nat)
    | AbortRead(caller: nat)
    | AbortDecrement(caller: nat)
    | WorkerRead
    | WorkerDecrement
    | WorkerGranted
    | WorkerRefused
    | WorkerPlayed   // finished, or failed with an exception
    | WorkerAborted
    | WorkerCheck
    | WorkerEmit

  function ClampWpm(wpm: int): int {
    if wpm < 5 then 5 else if wpm > 50 then 50 else wpm
  }

  predicate Enabled(s: State, step: Step) {
    match step
    case SendIncrement(c, _, _) => c !in s.calls
    case SendWrite(c) => c in s.calls && s.calls[c].Sending?
    case SendCancelled(c) => c in s.calls && s.calls[c].Sending?
    case AbortRead(c) => c !in s.calls && s.queue != []
    case AbortDecrement(c) => c in s.calls && s.calls[c].Draining?
    case WorkerRead => s.worker.Waiting? && s.queue != []
    case WorkerDecrement => s.worker.Took?
    case WorkerGranted => s.worker.Deciding?
    case WorkerRefused => s.worker.Deciding?
    case WorkerPlayed => s.worker.Playing? || s.worker.Deciding?
    case WorkerAborted => s.worker.Playing?
    case WorkerCheck => s.worker.Played?
    case WorkerEmit => s.worker.Checked?
  }

  function Next(s: State, step: Step): State
    requires Enabled(s, step)
  {
    match step
    case SendIncrement(c, text, wpm) =>
      s.(pending := s.pending + 1, calls := s.calls[c := Sending(Job(text, ClampWpm(wpm)))])
    case SendWrite(c) =>
      var job := s.calls[c].job;
      s.(queue := s.queue + [job], written := s.written + [job], calls := s.calls - {c})
    case SendCancelled(c) =>
      s.(calls := s.calls - {c}, cancelledWrites := s.cancelledWrites + 1)
    case AbortRead(c) =>
      s.(queue := s.queue[1..], taken := s.taken + [(s.queue[0], false)], calls := s.calls[c := Draining])
    case AbortDecrement(c) =>
      s.(pending := s.pending - 1, calls := s.calls - {c})
    case WorkerRead =>
      s.(queue := s.queue[1..], taken := s.taken + [(s.queue[0], true)], worker := Took(s.queue[0]))
    case WorkerDecrement =>
      s.(pending := s.pending - 1, worker := Deciding(s.worker.job, s.pending - 1, MarkOf(s)))
    case WorkerGranted =>
      s.(worker := Playing(s.worker.job),
         statuses := s.statuses + [SendingStatus(s.worker.job, s.worker.remaining)])
    case WorkerRefused =>
      s.(worker := Played,
         statuses := s.statuses + [IdleStatus(Some(s.worker.job), s.worker.remaining)])
    case WorkerPlayed =>
      s.(worker := Played)
    case WorkerAborted =>
      s.(worker := Played, statuses := s.statuses + [AbortingStatus(s.worker.job, s.pending)])
    case WorkerCheck =>
      s.(worker := Checked(s.pending, MarkOf(s)))
    case WorkerEmit =>
      s.(worker := Waiting, statuses := if s.worker.depth == 0 then s.statuses + [IdleStatus(None, 0)] else s.statuses)
  }

  function MarkOf(s: State): Mark {
    Mark(|s.written|, |s.taken|)
  }

  /** The counter is the queue, plus the calls between their two steps, plus the worker
      between its two steps, plus every write that was cancelled after it was counted. */
  ghost predicate Counted(s: State) {
    s.pending == |s.queue| + |s.calls| + (if s.worker.Took? then 1 else 0) + s.cancelledWrites
  }

  function Jobs(taken: seq<(Job, bool)>): (jobs: seq<Job>)
    ensures |jobs| == |taken|
  {
    seq(|taken|, k requires 0 <= k < |taken| => taken[k].0)
  }

  predicate WpmOk(job: Job) {
    5 <= job.wpm <= 50
  }

  /** First in, first out, each job once. */
  ghost predicate InOrder(s: State) {
    s.written == Jobs(s.taken) + s.queue
  }

  /** Since the mark only Abort has taken jobs. */
  ghost predicate Since(s: State, m: Mark) {
    && m.taken <= m.written <= |s.written| && m.taken <= |s.taken|
    && forall k :: m.taken <= k < |s.taken| ==> !s.taken[k].1
  }

  /** The depth a worker holds counted at least the jobs waiting when it was read. */
  ghost predicate DepthSound(s: State) {
    && (s.worker.Checked? ==> Since(s, s.worker.since) && QueuedAt(s.worker.since) <= s.worker.depth)
    && (s.worker.Deciding? ==> Since(s, s.worker.since) && QueuedAt(s.worker.since) <= s.worker.remaining)
  }

  /** The jobs in the channel at the mark. */
  function QueuedAt(m: Mark): int {
    m.written - m.taken
  }

  ghost predicate SpeedsClamped(s: State) {
    && (forall k :: 0 <= k < |s.written| ==> WpmOk(s.written[k]))
    && (forall c :: c in s.calls && s.calls[c].Sending? ==> WpmOk(s.calls[c].job))
  }

  ghost predicate DepthsReported(s: State) {
    forall k :: 0 <= k < |s.statuses| ==> s.statuses[k].queueDepth >= 0
  }

  ghost predicate Inv(s: State) {
    Counted(s) && InOrder(s) && DepthSound(s) && SpeedsClamped(s) && DepthsReported(s)
  }

  lemma CallsUpdate(calls: map<nat, Call>, c: nat, call: Call)
    ensures c in calls ==> |calls - {c}| == |calls| - 1
    ensures c !in calls ==> |calls[c := call]| == |calls| + 1
  {
    if c in calls {
      assert (calls - {c}).Keys == calls.Keys - {c};
      assert |(calls - {c}).Keys| == |calls - {c}|;
      assert |calls.Keys| == |calls|;
    } else {
      assert calls[c := call].Keys == calls.Keys + {c};
      assert |calls[c := call].Keys| == |calls[c := call]|;
      assert |calls.Keys| == |calls|;
    }
  }

  lemma NextCounted(s: State, step: Step)
    requires Counted(s) && Enabled(s, step)
    ensures Counted(Next(s, step))
  {
    match step
    case SendIncrement(c, text, wpm) => CallsUpdate(s.calls, c, Sending(Job(text, ClampWpm(wpm))));
    case SendWrite(c) => CallsUpdate(s.calls, c, Draining);
    case SendCancelled(c) => CallsUpdate(s.calls, c, Draining);
    case AbortRead(c) => CallsUpdate(s.calls, c, Draining);
    case AbortDecrement(c) => CallsUpdate(s.calls, c, Draining);
    case _ =>
  }

  lemma NextInOrder(s: State, step: Step)
    requires InOrder(s) && Enabled(s, step)
    ensures InOrder(Next(s, step))
  {
    match step
    case SendWrite(c) =>
      assert Jobs(s.taken) + (s.queue + [s.calls[c].job]) == s.written + [s.calls[c].job];
    case AbortRead(c) => TakeOne(s, false);
    case WorkerRead => TakeOne(s, true);
    case _ =>
  }

  lemma NextDepthSound(s: State, step: Step)
    requires Counted(s) && InOrder(s) && DepthSound(s) && Enabled(s, step)
    ensures DepthSound(Next(s, step))
  {
  }

  lemma NextSpeedsClamped(s: State, step: Step)
    requires SpeedsClamped(s) && Enabled(s, step)
    ensures SpeedsClamped(Next(s, step))
  {
  }

  lemma NextDepthsReported(s: State, step: Step)
    requires Counted(s) && DepthSound(s) && DepthsReported(s) && Enabled(s, step)
    ensures DepthsReported(Next(s, step))
  {
  }

  lemma NextInv(s: State, step: Step)
    requires Inv(s) && Enabled(s, step)
    ensures Inv(Next(s, step))
  {
    NextCounted(s, step);
    NextInOrder(s, step);
    NextDepthSound(s, step);
    NextSpeedsClamped(s, step);
    NextDepthsReported(s, step);
  }

  lemma TakeOne(s: State, byWorker: bool)
    requires s.written == Jobs(s.taken) + s.queue && s.queue != []
    ensures s.written == Jobs(s.taken + [(s.queue[0], byWorker)]) + s.queue[1..]
  {
    assert Jobs(s.taken + [(s.queue[0], byWorker)]) == Jobs(s.taken) + [s.queue[0]];
  }

  ghost predicate IsRun(s: State, steps: seq<Step>)
    decreases |steps|
  {
    steps == [] || (Enabled(s, steps[0]) && IsRun(Next(s, steps[0]), steps[1..]))
  }

  function Run(s: State, steps: seq<Step>): State
    requires IsRun(s, steps)
    decreases |steps|
  {
    if steps == [] then s else Run(Next(s, steps[0]), steps[1..])
  }

  lemma {:induction false} RunInv(s: State, steps: seq<Step>)
    requires Inv(s) && IsRun(s, steps)
    ensures Inv(Run(s, steps))
    decreases |steps|
  {
    if steps != [] {
      NextInv(s, steps[0]);
      RunInv(Next(s, steps[0]), steps[1..]);
    }
  }

  /** Under every interleaving the counter is accounted for and never negative, jobs
      leave in the order they entered, and a worker that reads zero has an empty
      channel, no call in progress and no cancelled write behind it. */
  lemma EveryInterleaving(steps: seq<Step>)
    requires IsRun(START, steps)
    ensures var s := Run(START, steps);
            && Counted(s) && 0 <= s.pending
            && s.written == Jobs(s.taken) + s.queue
            && (s.pending == 0 <==> s.queue == [] && s.calls == map[] && !s.worker.Took? && s.cancelledWrites == 0)
            && (forall k :: 0 <= k < |s.statuses| ==> s.statuses[k].queueDepth >= 0)
  {
    assert Jobs([]) == [];
    RunInv(START, steps);
    var s := Run(START, steps);
    assert |s.calls| == 0 <==> s.calls == map[];
  }

  /** The job the worker took last. */
  function LastByWorker(taken: seq<(Job, bool)>): Option<Job> {
    if taken == [] then None
    else if taken[|taken| - 1].1 then Some(taken[|taken| - 1].0)
    else LastByWorker(taken[..|taken| - 1])
  }

  /** The job in the worker's hands. */
  function InHand(w: Worker): Option<Job> {
    match w
    case Took(job) => Some(job)
    case Deciding(job, _, _) => Some(job)
    case Playing(job) => Some(job)
    case _ => None
  }

  ghost predicate HoldsLast(s: State) {
    InHand(s.worker).Some? ==> InHand(s.worker) == LastByWorker(s.taken)
  }

  lemma {:induction false} RunHoldsLast(s: State, steps: seq<Step>)
    requires HoldsLast(s) && IsRun(s, steps)
    ensures HoldsLast(Run(s, steps))
    decreases |steps|
  {
    if steps != [] {
      var taken := Next(s, steps[0]).taken;
      assert |taken| > |s.taken| ==> taken[..|taken| - 1] == s.taken;
      RunHoldsLast(Next(s, steps[0]), steps[1..]);
    }
  }

  function JobOf(status: Status): Option<Job> {
    match status
    case SendingStatus(job, _) => Some(job)
    case AbortingStatus(job, _) => Some(job)
    case IdleStatus(refused, _) => refused
  }

  /** Whatever is announced about a job, that it is being sent, aborted or refused, is about
      the one the worker took last. */
  lemma AnnouncesLastTaken(steps: seq<Step>, step: Step, k: nat)
    requires IsRun(START, steps) && Enabled(Run(START, steps), step)
    ensures var s, s' := Run(START, steps), Next(Run(START, steps), step);
            && s.statuses <= s'.statuses
            && (|s.statuses| <= k < |s'.statuses| && JobOf(s'.statuses[k]).Some? ==>
                  JobOf(s'.statuses[k]) == LastByWorker(s.taken))
  {
    RunHoldsLast(START, steps);
  }

  /** An Idle is about to go out: the drained one, or that of a refused job. */
  predicate AnnouncesIdle(s: State, step: Step) {
    (step.WorkerEmit? && s.worker.Checked? && s.worker.depth == 0) || (step.WorkerRefused? && s.worker.Deciding?)
  }

  /** The depth it carries was read at this moment. */
  function ReadAt(s: State): Mark
    requires s.worker.Checked? || s.worker.Deciding?
  {
    s.worker.since
  }

  /** Exactly when an announced Idle finds the channel empty: when Abort has taken, since
      the depth was read, as many jobs as were waiting then and have been written since.
      With no Abort since, that is when nothing was waiting and nothing has been written;
      a drained Idle, or any with depth 0, had nothing waiting. */
  lemma IdleFindsEmptyIff(steps: seq<Step>, step: Step)
    requires IsRun(START, steps) && AnnouncesIdle(Run(START, steps), step)
    ensures var s := Run(START, steps);
            var since := ReadAt(s);
            var waiting, arrived, aborted := QueuedAt(since), |s.written| - since.written, |s.taken| - since.taken;
            && Next(s, step).statuses[|s.statuses|..] ==
                 [if step.WorkerEmit? then IdleStatus(None, 0) else IdleStatus(Some(s.worker.job), s.worker.remaining)]
            && waiting >= 0 && arrived >= 0 && aborted >= 0
            && (s.queue == [] <==> aborted == waiting + arrived)
            && (aborted == 0 ==> (s.queue == [] <==> waiting == 0 && arrived == 0))
            && (step.WorkerEmit? ==> waiting == 0)
            && (step.WorkerRefused? && s.worker.remaining == 0 ==> waiting == 0)
            && (forall k :: since.taken <= k < |s.taken| ==> !s.taken[k].1)
  {
    assert Jobs([]) == [];
    RunInv(START, steps);
  }

  /** The drained Idle: empty exactly when Abort has taken again whatever was written
      since the depth was read, so with no Abort exactly when nothing was. */
  lemma IdleMeansEmpty(steps: seq<Step>)
    requires IsRun(START, steps)
    ensures var s := Run(START, steps);
            s.worker.Checked? && s.worker.depth == 0 ==>
              var arrived, aborted := |s.written| - s.worker.since.written, |s.taken| - s.worker.since.taken;
              && (s.queue == [] <==> aborted == arrived)
              && (aborted == 0 ==> (s.queue == [] <==> arrived == 0))
  {
    if Run(START, steps).worker.Checked? && Run(START, steps).worker.depth == 0 {
      IdleFindsEmptyIff(steps, WorkerEmit);
    }
  }

  /** No step of these is this caller's. */
  ghost predicate Elsewhere(steps: seq<Step>, c: nat) {
    forall k :: 0 <= k < |steps| ==>
      match steps[k]
      case SendIncrement(caller, _, _) => caller != c
      case SendWrite(caller) => caller != c
      case SendCancelled(caller) => caller != c
      case AbortRead(caller) => caller != c
      case AbortDecrement(caller) => caller != c
      case _ => true
  }

  lemma {:induction false} CallStays(s: State, steps: seq<Step>, c: nat)
    requires IsRun(s, steps) && Elsewhere(steps, c) && c in s.calls
    ensures c in Run(s, steps).calls && Run(s, steps).calls[c] == s.calls[c]
    decreases |steps|
  {
    if steps != [] {
      assert Next(s, steps[0]).calls[c] == s.calls[c];
      CallStays(Next(s, steps[0]), steps[1..], c);
    }
  }

  /** A job that is sent enters the channel behind what is waiting then, with its own text
      and its own speed when that is 5 to 50 words a minute, else the nearer end, however
      the other callers and the worker come in between. */
  lemma SentJobArrives(s: State, c: nat, text: string, wpm: int, between: seq<Step>)
    requires c !in s.calls && Elsewhere(between, c)
    requires IsRun(Next(s, SendIncrement(c, text, wpm)), between)
    ensures var m := Run(Next(s, SendIncrement(c, text, wpm)), between);
            Enabled(m, SendWrite(c))
            && exists job: Job ::
                 && Next(m, SendWrite(c)).queue == m.queue + [job] && job.text == text && 5 <= job.wpm <= 50
                 && (5 <= wpm <= 50 ==> job.wpm == wpm) && (wpm < 5 ==> job.wpm == 5) && (wpm > 50 ==> job.wpm == 50)
  {
    var s1 := Next(s, SendIncrement(c, text, wpm));
    CallStays(s1, between, c);
    var m := Run(s1, between);
    assert Next(m, SendWrite(c)).queue == m.queue + [Job(text, ClampWpm(wpm))];
  }

  lemma RunOne(s: State, step: Step, rest: seq<Step>)
    requires Enabled(s, step) && IsRun(Next(s, step), rest)
    ensures IsRun(s, [step] + rest)
    ensures Run(s, [step] + rest) == Run(Next(s, step), rest)
  {
    assert ([step] + rest)[1..] == rest;
  }

  /** Steps one after the other, each enabled. */
  lemma {:induction false} RunConcat(s: State, a: seq<Step>, b: seq<Step>)
    requires IsRun(s, a) && IsRun(Run(s, a), b)
    ensures IsRun(s, a + b) && Run(s, a + b) == Run(Run(s, a), b)
    decreases |a|
  {
    if a == [] {
      assert a + b == b;
    } else {
      RunConcat(Next(s, a[0]), a[1..], b);
      RunOne(s, a[0], a[1..] + b);
      assert a + b == [a[0]] + (a[1..] + b);
    }
  }

  lemma RunOnly(s: State, step: Step)
    requires Enabled(s, step)
    ensures IsRun(s, [step]) && Run(s, [step]) == Next(s, step)
  {
    RunOne(s, step, []);
    assert [step] + [] == [step];
  }

  lemma Then(s: State, steps: seq<Step>, step: Step)
    requires IsRun(s, steps) && Enabled(Run(s, steps), step)
    ensures IsRun(s, steps + [step]) && Run(s, steps + [step]) == Next(Run(s, steps), step)
  {
    RunOnly(Run(s, steps), step);
    RunConcat(s, steps, [step]);
  }

  /** One job is sent, taken and counted down; the transmitter is to be asked next. */
  lemma FirstJobTaken() returns (steps: seq<Step>)
    ensures IsRun(START, steps)
    ensures var s := Run(START, steps);
            && s.worker.Deciding? && s.worker.remaining == 0 == s.pending && s.queue == [] && s.calls == map[]
            && MarkOf(s) == s.worker.since
  {
    var send := SendIncrement(0, "E", 20);
    steps := [];
    Then(START, steps, send);
    steps := steps + [send];
    Then(START, steps, SendWrite(0));
    steps := steps + [SendWrite(0)];
    Then(START, steps, WorkerRead);
    steps := steps + [WorkerRead];
    Then(START, steps, WorkerDecrement);
    steps := steps + [WorkerDecrement];
  }

  lemma ThenSend(before: seq<Step>, text: string) returns (steps: seq<Step>)
    requires IsRun(START, before) && Run(START, before).calls == map[]
    ensures IsRun(START, steps)
    ensures var s, s' := Run(START, before), Run(START, steps);
            && s'.queue == s.queue + [Job(text, 20)] && s'.worker == s.worker && s'.calls == map[]
            && s'.cancelledWrites == s.cancelledWrites
  {
    var send := SendIncrement(0, text, 20);
    Then(START, before, send);
    Then(START, before + [send], SendWrite(0));
    steps := before + [send] + [SendWrite(0)];
  }

  /** A drained Idle can be stale: a job sent between the depth check and the
      announcement is already queued when it goes out. */
  lemma IdleCanBeStale()
    ensures exists steps ::
              && IsRun(START, steps)
              && var s := Run(START, steps);
                 s.worker.Checked? && s.worker.depth == 0 && s.queue != []
  {
    var steps := FirstJobTaken();
    Then(START, steps, WorkerGranted);
    steps := steps + [WorkerGranted];
    Then(START, steps, WorkerPlayed);
    steps := steps + [WorkerPlayed];
    Then(START, steps, WorkerCheck);
    steps := steps + [WorkerCheck];
    steps := ThenSend(steps, "T");
    assert Run(START, steps).worker.Checked?;
  }

  /** A refused job announces Idle with jobs still waiting. */
  lemma RefusedIdleWithJobs()
    ensures exists steps ::
              && IsRun(START, steps)
              && var s := Run(START, steps);
                 AnnouncesIdle(s, WorkerRefused) && s.queue != []
  {
    var steps := FirstJobTaken();
    steps := ThenSend(steps, "T");
    assert AnnouncesIdle(Run(START, steps), WorkerRefused);
  }

  /** A caller of `SendAsync` whose token is cancelled already leaves the counter raised. */
  lemma CancelledWriteReachable()
    ensures exists steps ::
              && IsRun(START, steps)
              && var s := Run(START, steps);
                 s.cancelledWrites == 1 && s.pending == 1 && s.queue == [] && s.calls == map[] && s.worker.Waiting?
  {
    var send := SendIncrement(0, "E", 20);
    var steps: seq<Step> := [];
    Then(START, steps, send);
    steps := steps + [send];
    Then(START, steps, SendCancelled(0));
    steps := steps + [SendCancelled(0)];
    assert Run(START, steps).cancelledWrites == 1;
  }

  /** An Idle for a refused job that says jobs are waiting. */
  predicate RefusedWithDepth(status: Status) {
    status.IdleStatus? ==> status.refused.Some? && status.queueDepth > 0
  }

  /** A write cancelled after it was counted is never uncounted: from then on the depth
      never reads zero, so no drained Idle is announced however long the engine runs,
      and the Idle of a refused job reports a positive depth, waiting jobs or not. A
      depth the worker read before the cancellation may still be announced. */
  lemma {:induction false} CancelledWriteSilencesIdle(s: State, steps: seq<Step>)
    requires Inv(s) && s.cancelledWrites > 0 && IsRun(s, steps)
    requires s.worker.Checked? ==> s.worker.depth != 0
    requires s.worker.Deciding? ==> s.worker.remaining != 0
    ensures var s' := Run(s, steps);
            && s'.pending > 0 && |s.statuses| <= |s'.statuses|
            && forall k :: |s.statuses| <= k < |s'.statuses| ==> RefusedWithDepth(s'.statuses[k])
    decreases |steps|
  {
    if steps != [] {
      var s1 := Next(s, steps[0]);
      NextInv(s, steps[0]);
      CancelledWriteSilencesIdle(s1, steps[1..]);
      StatusesGrow(s1, steps[1..]);
    }
  }

  /** What has been announced stays announced. */
  lemma {:induction false} StatusesGrow(s: State, steps: seq<Step>)
    requires IsRun(s, steps)
    ensures s.statuses <= Run(s, steps).statuses
    decreases |steps|
  {
    if steps != [] {
      StatusesGrow(Next(s, steps[0]), steps[1..]);
    }
  }
}
