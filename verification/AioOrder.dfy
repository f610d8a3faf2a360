/** What the lists and records of the I/O path say about the steps taken so far. */
module AioOrder {
  import opened AioModel
  import opened AioTheorems
  import opened AioEffects

  /** The callback that a step hands to worker w. */
  function Given(s: State, step: Step, w: nat): seq<Job> {
    if step == Dispatch(w) && s.sched.Dispatching? then [Job(s.sched.req, s.sched.k)] else []
  }

  /** The callback that worker w runs after a pop. */
  function Begun(t: State, step: Step, w: nat): seq<Job> {
    if step == Pop(w) && w < |t.workers| && t.workers[w].run.Running? then [t.workers[w].run.job] else []
  }

  function AllGiven(c: Config, s: State, steps: seq<Step>, w: nat): seq<Job>
    requires Sized(c, s) && Run(c, s, steps)
    decreases |steps|
  {
    if steps == [] then [] else Given(s, steps[0], w) + AllGiven(c, Apply(c, s, steps[0]), steps[1..], w)
  }

  function AllBegun(c: Config, s: State, steps: seq<Step>, w: nat): seq<Job>
    requires Sized(c, s) && Run(c, s, steps)
    decreases |steps|
  {
    if steps == [] then [] else
      var t := Apply(c, s, steps[0]);
      Begun(t, steps[0], w) + AllBegun(c, t, steps[1..], w)
  }

  lemma StepOrder(c: Config, m: Memory, s: State, step: Step, w: nat)
    requires Alive(c, m, s) && Enabled(c, s, step) && w < c.workers
    ensures var t := Apply(c, s, step); s.workers[w].queue + Given(s, step, w) == Begun(t, step, w) + t.workers[w].queue
  {
    if step.Drain? {
      DrainEffect(c, m, s);
    } else if step == Pop(w) {
      var q := s.workers[w].queue;
      assert q == [q[0]] + q[1..];
    } else {
      QueueStays(c, s, step, w);
    }
  }

  lemma QueueStays(c: Config, s: State, step: Step, w: nat)
    requires Sized(c, s) && Enabled(c, s, step) && w < c.workers && !step.Drain? && step != Pop(w)
    ensures Apply(c, s, step).workers[w].queue == s.workers[w].queue + Given(s, step, w)
  {
  }

  lemma {:induction false} RunOrder(c: Config, m: Memory, s: State, steps: seq<Step>, w: nat)
    requires Alive(c, m, s) && Run(c, s, steps) && w < c.workers
    ensures s.workers[w].queue + AllGiven(c, s, steps, w) == AllBegun(c, s, steps, w) + After(c, s, steps).workers[w].queue
    decreases |steps|
  {
    if steps != [] {
      var t := Apply(c, s, steps[0]);
      StepOrder(c, m, s, steps[0], w);
      AliveStep(c, m, s, steps[0]);
      RunOrder(c, m, t, steps[1..], w);
      Shift(s.workers[w].queue, Given(s, steps[0], w), Begun(t, steps[0], w), t.workers[w].queue,
            AllGiven(c, t, steps[1..], w), AllBegun(c, t, steps[1..], w), After(c, s, steps).workers[w].queue);
    }
  }

  /** Cutting a step off the front of both sides. */
  lemma Shift(q: seq<Job>, came: seq<Job>, went: seq<Job>, r: seq<Job>, later: seq<Job>, gone: seq<Job>, end: seq<Job>)
    requires q + came == went + r && r + later == gone + end
    ensures q + (came + later) == (went + gone) + end
  {
    assert q + (came + later) == (q + came) + later;
    assert (went + r) + later == went + (r + later);
    assert went + (gone + end) == (went + gone) + end;
  }

  /** Over every run a worker begins its callbacks in the order it was given them, and its list
      holds the rest; the clear in Wait drops none. */
  lemma WorkersAreFifo(c: Config, s: State, steps: seq<Step>, w: nat)
    requires Initial(c, s) && Run(c, s, steps) && w < c.workers
    ensures AllGiven(c, s, steps, w) == AllBegun(c, s, steps, w) + After(c, s, steps).workers[w].queue
  {
    StartsAlive(c, s);
    RunOrder(c, Memory(s.files, s.buffers), s, steps, w);
    Nothing(s.workers[w].queue, AllGiven(c, s, steps, w));
  }

  // ---------------------------------------------------------------- what the records say

  /** What a step from s to t does to the log: an arrival as it came, or the request then in hand. */
  function Logged(t: State, step: Step): seq<Event> {
    match step
    case Accept(r, high) => [Accepted(r, high)]
    case TakeHigh => if t.sched.Dispatching? then [Taken(t.sched.req, true)] else []
    case TakeLow => if t.sched.Dispatching? then [Taken(t.sched.req, false)] else []
    case _ => []
  }

  function AllLogged(c: Config, s: State, steps: seq<Step>): seq<Event>
    requires Sized(c, s) && Run(c, s, steps)
    decreases |steps|
  {
    if steps == [] then [] else
      var t := Apply(c, s, steps[0]);
      Logged(t, steps[0]) + AllLogged(c, t, steps[1..])
  }

  /** The request in hand when the scheduler completes it. */
  function Finished(s: State, step: Step): seq<Request> {
    if step.Complete? && s.sched.Draining? then [s.sched.req] else []
  }

  function AllFinished(c: Config, s: State, steps: seq<Step>): seq<Request>
    requires Sized(c, s) && Run(c, s, steps)
    decreases |steps|
  {
    if steps == [] then [] else Finished(s, steps[0]) + AllFinished(c, Apply(c, s, steps[0]), steps[1..])
  }

  /** The callback a worker has in hand when it is done with it. */
  function RanBy(s: State, step: Step): multiset<Job> {
    if step.Finish? && step.w < |s.workers| && s.workers[step.w].run.Running? then multiset{s.workers[step.w].run.job} else multiset{}
  }

  function AllRan(c: Config, s: State, steps: seq<Step>): multiset<Job>
    requires Sized(c, s) && Run(c, s, steps)
    decreases |steps|
  {
    if steps == [] then multiset{} else RanBy(s, steps[0]) + AllRan(c, Apply(c, s, steps[0]), steps[1..])
  }

  lemma StepRecords(c: Config, s: State, step: Step)
    requires Sized(c, s) && Enabled(c, s, step)
    ensures var t := Apply(c, s, step);
            t.log == s.log + Logged(t, step) && t.done == s.done + Finished(s, step) && t.ran == s.ran + RanBy(s, step)
  {
  }

  lemma {:induction false} RunLog(c: Config, s: State, steps: seq<Step>)
    requires Sized(c, s) && Run(c, s, steps)
    ensures After(c, s, steps).log == s.log + AllLogged(c, s, steps)
    decreases |steps|
  {
    if steps != [] {
      var t := Apply(c, s, steps[0]);
      StepRecords(c, s, steps[0]);
      RunLog(c, t, steps[1..]);
      Append(s.log, Logged(t, steps[0]), AllLogged(c, t, steps[1..]));
    }
  }

  lemma {:induction false} RunDone(c: Config, s: State, steps: seq<Step>)
    requires Sized(c, s) && Run(c, s, steps)
    ensures After(c, s, steps).done == s.done + AllFinished(c, s, steps)
    decreases |steps|
  {
    if steps != [] {
      var t := Apply(c, s, steps[0]);
      StepRecords(c, s, steps[0]);
      RunDone(c, t, steps[1..]);
      Append(s.done, Finished(s, steps[0]), AllFinished(c, t, steps[1..]));
    }
  }

  lemma {:induction false} RunRan(c: Config, s: State, steps: seq<Step>)
    requires Sized(c, s) && Run(c, s, steps)
    ensures After(c, s, steps).ran == s.ran + AllRan(c, s, steps)
    decreases |steps|
  {
    if steps != [] {
      StepRecords(c, s, steps[0]);
      RunRan(c, Apply(c, s, steps[0]), steps[1..]);
    }
  }

  lemma Append<T>(a: seq<T>, b: seq<T>, c: seq<T>)
    ensures (a + b) + c == a + (b + c)
  {
  }

  lemma Nothing<T>(a: seq<T>, b: seq<T>)
    requires a == []
    ensures a + b == b
  {
  }

  /** The log, the completed requests and the callbacks that ran are what the steps of the run did. */
  lemma RecordsAreRun(c: Config, s: State, steps: seq<Step>)
    requires Initial(c, s) && Run(c, s, steps)
    ensures var t := After(c, s, steps);
            t.log == AllLogged(c, s, steps) && t.done == AllFinished(c, s, steps) && t.ran == AllRan(c, s, steps)
  {
    RunLog(c, s, steps);
    RunDone(c, s, steps);
    RunRan(c, s, steps);
    Nothing(s.log, AllLogged(c, s, steps));
    Nothing(s.done, AllFinished(c, s, steps));
  }
}
