/** accept_ride is serializable (services/ride.py:64-82): any number of concurrent accepts of
    any rides by any drivers, interleaved in any way, end as if called one after another in
    the order in which they took the lock; and they all end. */
module AcceptSerial {
  import opened Models
  import opened Worlds
  import opened Machine
  import opened Uninterrupted
  import Serial

  /** Only accepts, none of which has the lock yet, in any world at all. */
  predicate Waiting(c: Config) {
    c.lock.None? && c.order == [] && forall i :: 0 <= i < |c.tasks| ==> c.tasks[i].AcceptWait?
  }

  /** Nothing but steps of the accepts themselves. */
  predicate OnlySteps(actions: seq<Action>) {
    forall k :: 0 <= k < |actions| ==> actions[k].Step?
  }

  predicate Within(order: seq<nat>, n: nat) {
    forall k :: 0 <= k < |order| ==> order[k] < n
  }

  predicate Distinct(order: seq<nat>) {
    forall j, k :: 0 <= j < k < |order| ==> order[j] != order[k]
  }

  // ---------- the specification: one call after another ----------

  function CallOne(c: Config, w: World, i: nat): (World, Outcome)
    requires Waiting(c) && i < |c.tasks|
  {
    Serial.AcceptRide(w, c.tasks[i].ride, c.tasks[i].driver)
  }

  /** The world after the calls of the order, one by one. */
  function SerialWorld(c: Config, order: seq<nat>): World
    requires Waiting(c) && Within(order, |c.tasks|)
  {
    if order == [] then c.w
    else CallOne(c, SerialWorld(c, order[..|order| - 1]), order[|order| - 1]).0
  }

  /** What the k-th call of the order answers. */
  function SerialAnswer(c: Config, order: seq<nat>, k: nat): Outcome
    requires Waiting(c) && Within(order, |c.tasks|) && k < |order|
  {
    CallOne(c, SerialWorld(c, order[..k]), order[k]).1
  }

  lemma AnswersKept(c: Config, order: seq<nat>, i: nat, k: nat)
    requires Waiting(c) && Within(order, |c.tasks|) && i < |c.tasks| && k < |order|
    ensures Within(order + [i], |c.tasks|) && SerialAnswer(c, order + [i], k) == SerialAnswer(c, order, k)
  {
    assert (order + [i])[..k] == order[..k];
  }

  lemma CallAdded(c: Config, order: seq<nat>, i: nat)
    requires Waiting(c) && Within(order, |c.tasks|) && i < |c.tasks|
    ensures Within(order + [i], |c.tasks|)
    ensures (SerialWorld(c, order + [i]), SerialAnswer(c, order + [i], |order|)) == CallOne(c, SerialWorld(c, order), i)
  {
    assert (order + [i])[..|order|] == order;
  }

  // ---------- simulation ----------

  /** The lock's holder, left alone, would end as the serial calls do. */
  predicate HolderOK(c0: Config, c: Config)
    requires Waiting(c0) && Within(c.order, |c0.tasks|) && |c.tasks| == |c0.tasks|
  {
    c.lock.Some? ==>
      var last := |c.order| - 1;
      last >= 0 && c.lock.value == c.order[last]
      && Critical(c.tasks[c.order[last]])
      && Alone(c.w, c.tasks[c.order[last]], NOTHING)
         == (SerialWorld(c0, c.order), Done(SerialAnswer(c0, c.order, last)))
  }

  /** How many calls have left the lock. */
  function Left(c: Config): int {
    if c.lock.Some? then |c.order| - 1 else |c.order|
  }

  predicate Simulates(c0: Config, c: Config)
    requires Waiting(c0)
  {
    && |c.tasks| == |c0.tasks| && Within(c.order, |c0.tasks|) && Distinct(c.order)
    && (forall i :: 0 <= i < |c.tasks| && i !in c.order ==> c.tasks[i] == c0.tasks[i])
    && (forall k :: 0 <= k < Left(c) ==> c.tasks[c.order[k]] == Done(SerialAnswer(c0, c.order, k)))
    && (c.lock.None? ==> c.w == SerialWorld(c0, c.order))
    && HolderOK(c0, c)
  }

  /** Every task is waiting, holds the lock, or has finished. */
  lemma Trichotomy(c0: Config, c: Config, i: nat)
    requires Waiting(c0) && Simulates(c0, c) && i < |c.tasks|
    ensures c.tasks[i].Done? ==> i in c.order
    ensures c.tasks[i].AcceptWait? ==> i !in c.order
    ensures Critical(c.tasks[i]) <==> c.lock == Some(i)
    ensures c.tasks[i].Done? || c.tasks[i].AcceptWait? || Critical(c.tasks[i])
  {
    hide SerialAnswer, SerialWorld, Alone;
    if i in c.order {
      var k :| 0 <= k < |c.order| && c.order[k] == i;
      assert k < Left(c) ==> c.tasks[c.order[k]].Done?;
    }
  }

  lemma AcquireSimulates(c0: Config, c: Config, i: nat)
    requires Waiting(c0) && Simulates(c0, c) && i < |c.tasks| && c.tasks[i].AcceptWait? && c.lock.None?
    ensures Simulates(c0, Acquire(c, i))
  {
    hide Alone, SerialWorld, SerialAnswer, Serial.AcceptRide;
    var c' := Acquire(c, i);
    Trichotomy(c0, c, i);
    CallAdded(c0, c.order, i);
    AcceptAlone(c.w, c.tasks[i].ride, c.tasks[i].driver, NOTHING);
    forall k | 0 <= k < Left(c')
      ensures c'.tasks[c'.order[k]] == Done(SerialAnswer(c0, c'.order, k))
    {
      AnswersKept(c0, c.order, i, k);
      assert c.tasks[c.order[k]] == Done(SerialAnswer(c0, c.order, k));
    }
    assert c'.order[|c.order|] == i;
  }

  /** Inside the lock no step depends on outside input, every step counts down, and the
      task stays inside or is done. */
  lemma CriticalStep(w: World, t: Task, input: Input)
    requires Critical(t)
    ensures StepTask(w, t, input) == StepTask(w, t, NOTHING)
    ensures StepsLeft(StepTask(w, t, input).1) < StepsLeft(t)
    ensures Critical(StepTask(w, t, input).1) || StepTask(w, t, input).1.Done?
  {
  }

  lemma HolderSimulates(c0: Config, c: Config, i: nat, input: Input)
    requires Waiting(c0) && Simulates(c0, c) && c.lock == Some(i)
    ensures i < |c.tasks| && Simulates(c0, Next(c, Step(i, input)))
  {
    hide SerialWorld, SerialAnswer, StepTask, Alone, Critical, StepsLeft;
    var (w', t') := StepTask(c.w, c.tasks[i], input);
    CriticalStep(c.w, c.tasks[i], input);
    OneStep(c.w, c.tasks[i], NOTHING);
    NotWaiting(c.tasks[i]);
    var c' := Next(c, Step(i, input));
    if !Critical(t') {
      Stops(w', t'.outcome, NOTHING);
    }
    forall k | 0 <= k < Left(c')
      ensures c'.tasks[c'.order[k]] == Done(SerialAnswer(c0, c'.order, k))
    {
      assert k < Left(c) ==> c.tasks[c.order[k]] == Done(SerialAnswer(c0, c.order, k));
    }
    if !Critical(t') {
      NotCritical(t');
    }
  }

  lemma NotWaiting(t: Task)
    requires Critical(t)
    ensures !t.AcceptWait? && !t.Done?
  {
  }

  lemma NotCritical(t: Task)
    requires t.Done?
    ensures !Critical(t)
  {
  }

  lemma FinishedIdles(c: Config, i: nat, input: Input)
    requires i < |c.tasks| && c.tasks[i].Done?
    ensures Next(c, Step(i, input)) == c
  {
    assert c.tasks[i := c.tasks[i]] == c.tasks;
  }

  lemma StepSimulates(c0: Config, c: Config, a: Action)
    requires Waiting(c0) && Simulates(c0, c) && a.Step?
    ensures Simulates(c0, Next(c, a))
  {
    var i := a.task;
    if i < |c.tasks| {
      hide Simulates, Next, Critical;
      Trichotomy(c0, c, i);
      if c.tasks[i].Done? {
        FinishedIdles(c, i, a.input);
      } else if c.tasks[i].AcceptWait? {
        WaiterSimulates(c0, c, i, a.input);
      } else {
        HolderSimulates(c0, c, i, a.input);
      }
    }
  }

  lemma WaiterSimulates(c0: Config, c: Config, i: nat, input: Input)
    requires Waiting(c0) && Simulates(c0, c) && i < |c.tasks| && c.tasks[i].AcceptWait?
    ensures Simulates(c0, Next(c, Step(i, input)))
  {
    hide Simulates;
    if c.lock.None? {
      AcquireSimulates(c0, c, i);
    }
  }

  lemma {:induction false} RunSimulates(c0: Config, actions: seq<Action>)
    requires Waiting(c0) && OnlySteps(actions)
    ensures Simulates(c0, Exec(c0, actions))
  {
    if actions == [] {
      StartSimulates(c0);
    } else {
      hide Next, Simulates;
      RunSimulates(c0, actions[..|actions| - 1]);
      StepSimulates(c0, Exec(c0, actions[..|actions| - 1]), actions[|actions| - 1]);
    }
  }

  lemma StartSimulates(c0: Config)
    requires Waiting(c0)
    ensures Simulates(c0, c0)
  {
  }

  // ---------- serializability ----------

  /** Every finished call answered what it answers when the calls run one by one in the order
      in which they took the lock; whenever the lock is free the world (rides, drivers, the
      available set, the ride-accepted log and everything else) is the world those calls
      leave; and once all have finished, the order contains every call exactly once. */
  lemma AcceptsAreSerializable(c0: Config, actions: seq<Action>)
    requires Waiting(c0) && OnlySteps(actions)
    ensures var c := Exec(c0, actions);
            |c.tasks| == |c0.tasks| && Within(c.order, |c0.tasks|) && Distinct(c.order)
            && (c.lock.None? ==> c.w == SerialWorld(c0, c.order))
            && (forall i :: 0 <= i < |c.tasks| && c.tasks[i].Done? ==>
                  exists k :: 0 <= k < |c.order| && c.order[k] == i
                              && c.tasks[i].outcome == SerialAnswer(c0, c.order, k))
            && (AllDone(c) ==> c.lock.None? && forall i :: 0 <= i < |c.tasks| ==> i in c.order)
  {
    hide Exec, SerialWorld, SerialAnswer, Alone, Critical;
    RunSimulates(c0, actions);
    var c := Exec(c0, actions);
    forall i | 0 <= i < |c.tasks| && c.tasks[i].Done?
      ensures exists k :: 0 <= k < |c.order| && c.order[k] == i
                          && c.tasks[i].outcome == SerialAnswer(c0, c.order, k)
    {
      FinishedAnswer(c0, c, i);
    }
    if AllDone(c) {
      AllTookLock(c0, c);
    }
  }

  predicate AllDone(c: Config) {
    forall i :: 0 <= i < |c.tasks| ==> c.tasks[i].Done?
  }

  lemma FinishedAnswer(c0: Config, c: Config, i: nat)
    requires Waiting(c0) && Simulates(c0, c) && i < |c.tasks| && c.tasks[i].Done?
    ensures exists k :: 0 <= k < |c.order| && c.order[k] == i
                        && c.tasks[i].outcome == SerialAnswer(c0, c.order, k)
  {
    hide SerialWorld, SerialAnswer, Alone;
    Trichotomy(c0, c, i);
    var k :| 0 <= k < |c.order| && c.order[k] == i;
    assert k < Left(c) ==> c.tasks[c.order[k]] == Done(SerialAnswer(c0, c.order, k));
  }

  lemma AllTookLock(c0: Config, c: Config)
    requires Waiting(c0) && Simulates(c0, c) && AllDone(c)
    ensures c.lock.None? && forall i :: 0 <= i < |c.tasks| ==> i in c.order
  {
    hide SerialWorld, SerialAnswer, Alone;
    forall i | 0 <= i < |c.tasks|
      ensures i in c.order
    {
      Trichotomy(c0, c, i);
    }
  }

  // ---------- progress ----------

  /** The steps all tasks together still take. */
  function Work(tasks: seq<Task>): nat {
    if tasks == [] then 0 else Work(tasks[..|tasks| - 1]) + StepsLeft(tasks[|tasks| - 1])
  }

  lemma {:induction false} WorkUpdate(tasks: seq<Task>, i: nat, t: Task)
    requires i < |tasks|
    ensures Work(tasks[i := t]) == Work(tasks) - StepsLeft(tasks[i]) + StepsLeft(t)
  {
    hide StepsLeft;
    var n := |tasks| - 1;
    var tasks' := tasks[i := t];
    if i == n {
      assert tasks'[..n] == tasks[..n];
    } else {
      assert tasks'[..n] == tasks[..n][i := t];
      WorkUpdate(tasks[..n], i, t);
    }
  }

  lemma {:induction false} WorkAtMost(tasks: seq<Task>)
    requires forall i :: 0 <= i < |tasks| ==> tasks[i].AcceptWait?
    ensures Work(tasks) == 9 * |tasks|
  {
    if tasks != [] {
      WorkAtMost(tasks[..|tasks| - 1]);
    }
  }

  /** A step of this task does something: the task holds the lock, or waits for a free one. */
  predicate Enabled(c: Config, i: nat) {
    i < |c.tasks| && (c.lock == Some(i) || (c.tasks[i].AcceptWait? && c.lock.None?))
  }

  /** Every enabled step, a refusal's included, takes one off the work that is left; any
      other step changes nothing. */
  lemma EveryStepCounts(c0: Config, c: Config, i: nat, input: Input)
    requires Waiting(c0) && Simulates(c0, c)
    ensures if Enabled(c, i) then Work(Next(c, Step(i, input)).tasks) < Work(c.tasks)
            else Next(c, Step(i, input)) == c
  {
    hide Simulates, Critical, Work, Alone, StepTask, Next;
    if i >= |c.tasks| {
      NoSuchTask(c, i, input);
    } else {
      Trichotomy(c0, c, i);
      if c.tasks[i].Done? {
        FinishedIdles(c, i, input);
        NotCritical(c.tasks[i]);
      } else if c.tasks[i].AcceptWait? {
        WaitersOutside(c.tasks[i]);
        WaiterCounts(c, i, input);
      } else {
        HolderCounts(c, i, input);
      }
    }
  }

  lemma NoSuchTask(c: Config, i: nat, input: Input)
    requires i >= |c.tasks|
    ensures Next(c, Step(i, input)) == c
  {
  }

  lemma WaiterCounts(c: Config, i: nat, input: Input)
    requires i < |c.tasks| && c.tasks[i].AcceptWait?
    ensures if c.lock.None? then Work(Next(c, Step(i, input)).tasks) < Work(c.tasks)
            else Next(c, Step(i, input)) == c
  {
    hide Work;
    WorkUpdate(c.tasks, i, AcceptReadRide(c.tasks[i].ride, c.tasks[i].driver));
  }

  lemma HolderCounts(c: Config, i: nat, input: Input)
    requires i < |c.tasks| && Critical(c.tasks[i])
    ensures Work(Next(c, Step(i, input)).tasks) < Work(c.tasks)
  {
    hide Work, StepTask, StepsLeft, Critical;
    NotWaiting(c.tasks[i]);
    CriticalStep(c.w, c.tasks[i], input);
    WorkUpdate(c.tasks, i, StepTask(c.w, c.tasks[i], input).1);
  }

  lemma WaitersOutside(t: Task)
    requires t.AcceptWait?
    ensures !Critical(t)
  {
  }

  /** While a call is unfinished some step is enabled: no interleaving sticks. */
  lemma NeverStuck(c0: Config, actions: seq<Action>) returns (i: nat)
    requires Waiting(c0) && OnlySteps(actions) && !AllDone(Exec(c0, actions))
    ensures Enabled(Exec(c0, actions), i)
  {
    hide Exec, Critical, Alone, SerialWorld, SerialAnswer;
    RunSimulates(c0, actions);
    var c := Exec(c0, actions);
    if c.lock.Some? {
      i := c.lock.value;
    } else {
      i :| 0 <= i < |c.tasks| && !c.tasks[i].Done?;
      Trichotomy(c0, c, i);
    }
  }

  /** The steps of a run that did something. */
  function Effective(c: Config, actions: seq<Action>): nat {
    if actions == [] then 0
    else
      var init := Exec(c, actions[..|actions| - 1]);
      Effective(c, actions[..|actions| - 1]) + if Next(init, actions[|actions| - 1]) == init then 0 else 1
  }

  /** n calls finish within 9n effective steps, whatever the interleaving. */
  lemma {:induction false} BoundedWork(c0: Config, actions: seq<Action>)
    requires Waiting(c0) && OnlySteps(actions)
    ensures Effective(c0, actions) + Work(Exec(c0, actions).tasks) <= 9 * |c0.tasks|
  {
    hide Next, Work, Simulates;
    if actions == [] {
      WorkAtMost(c0.tasks);
    } else {
      var init := Exec(c0, actions[..|actions| - 1]);
      BoundedWork(c0, actions[..|actions| - 1]);
      RunSimulates(c0, actions[..|actions| - 1]);
      var a := actions[|actions| - 1];
      EveryStepCounts(c0, init, a.task, a.input);
    }
  }

  /** From every moment of every run the accepts can be run to their end. */
  lemma {:induction false} AllFinish(c0: Config, actions: seq<Action>) returns (more: seq<Action>)
    requires Waiting(c0) && OnlySteps(actions)
    ensures OnlySteps(more) && AllDone(Exec(c0, actions + more))
    decreases Work(Exec(c0, actions).tasks)
  {
    hide Next, Work, Simulates, AllDone, Enabled;
    var c := Exec(c0, actions);
    if AllDone(c) {
      more := [];
      assert actions + more == actions;
    } else {
      var i := NeverStuck(c0, actions);
      RunSimulates(c0, actions);
      EveryStepCounts(c0, c, i, NOTHING);
      var step := Step(i, NOTHING);
      assert (actions + [step])[..|actions|] == actions;
      var rest := AllFinish(c0, actions + [step]);
      more := [step] + rest;
      assert actions + more == actions + [step] + rest;
    }
  }
}
