/** The registry of live event streams (sse.py:21-64), over every interleaving of its callers.

    A Hub is the registry's dictionary together with every queue ever handed out. The code
    between two awaits is one Op: the five operations below in any order are all that any
    mix of streams, emitters and closers can do. */
module Sse {
  import opened Models
  import opened EventStream

  type Key = string

  /** What a queue carries: an event, or None as the close sentinel. */
  datatype Item = Send(event: Event) | Close

  /** A queue: items its stream has taken (history), items waiting, and the bytes written. */
  datatype Queue = Queue(key: Key, taken: seq<Item>, pending: seq<Item>, sent: string)

  datatype Hub = Hub(emitters: map<Key, nat>, queues: seq<Queue>)

  datatype Op =
    | Register(key: Key)
    | Unregister(key: Key)
    | Emit(key: Key, event: Event)
    | Complete(key: Key)
    | Take(queue: nat)

  const EmptyHub := Hub(map[], [])

  function Put(q: Queue, item: Item): Queue {
    q.(pending := q.pending + [item])
  }

  /** One turn of the stream's loop: write the next event, or stop at the sentinel. */
  function TakeOne(q: Queue): Queue {
    if q.pending == [] then q
    else
      var item := q.pending[0];
      q.(taken := q.taken + [item], pending := q.pending[1..],
         sent := if item.Send? then q.sent + Format(item.event) else q.sent)
  }

  function Deliver(h: Hub, key: Key, item: Item): seq<Queue> {
    if key in h.emitters && h.emitters[key] < |h.queues| then
      h.queues[h.emitters[key] := Put(h.queues[h.emitters[key]], item)]
    else h.queues
  }

  function Step(h: Hub, op: Op): Hub {
    match op
    case Register(key) =>
      Hub(h.emitters[key := |h.queues|], h.queues + [Queue(key, [], [], "")])
    case Unregister(key) => h.(emitters := h.emitters - {key})
    case Emit(key, event) => h.(queues := Deliver(h, key, Send(event)))
    case Complete(key) => Hub(h.emitters - {key}, Deliver(h, key, Close))
    case Take(q) => if q < |h.queues| then h.(queues := h.queues[q := TakeOne(h.queues[q])]) else h
  }

  function Exec(ops: seq<Op>): Hub {
    if ops == [] then EmptyHub else Step(Exec(ops[..|ops| - 1]), ops[|ops| - 1])
  }

  // ---------- what a stream is owed, read off the operations alone ----------

  /** The operations that end a registration of the key. */
  predicate Ends(op: Op, key: Key) {
    op == Register(key) || op == Unregister(key) || op == Complete(key)
  }

  function FirstEnd(ops: seq<Op>, key: Key): (i: nat)
    ensures i <= |ops| && (i < |ops| ==> Ends(ops[i], key))
    ensures forall k :: 0 <= k < i ==> !Ends(ops[k], key)
  {
    if ops == [] || Ends(ops[0], key) then 0 else 1 + FirstEnd(ops[1..], key)
  }

  /** The events emitted to a key, in order. */
  function EmitsTo(ops: seq<Op>, key: Key): seq<Event> {
    if ops == [] then []
    else
      var last := ops[|ops| - 1];
      EmitsTo(ops[..|ops| - 1], key) + if last.Emit? && last.key == key then [last.event] else []
  }

  /** Emitted to the key before the first complete, unregister or re-register of it. */
  function Owed(ops: seq<Op>, key: Key): seq<Event> {
    EmitsTo(ops[..FirstEnd(ops, key)], key)
  }

  predicate Open(ops: seq<Op>, key: Key) { FirstEnd(ops, key) == |ops| }

  /** The registration ended with a complete, so the stream is told to close. */
  predicate Closed(ops: seq<Op>, key: Key) {
    !Open(ops, key) && ops[FirstEnd(ops, key)] == Complete(key)
  }

  function Sends(events: seq<Event>): (items: seq<Item>)
    ensures |items| == |events|
  {
    seq(|events|, i requires 0 <= i < |events| => Send(events[i]))
  }

  /** Everything ever put on the queue. */
  function Owing(ops: seq<Op>, key: Key): seq<Item> {
    Sends(Owed(ops, key)) + if Closed(ops, key) then [Close] else []
  }

  function Events(items: seq<Item>): seq<Event> {
    if items == [] then []
    else
      var last := items[|items| - 1];
      Events(items[..|items| - 1]) + if last.Send? then [last.event] else []
  }

  // ---------- one more operation ----------

  lemma FirstEndAppend(ops: seq<Op>, op: Op, key: Key)
    ensures FirstEnd(ops + [op], key) ==
            if !Open(ops, key) then FirstEnd(ops, key)
            else if Ends(op, key) then |ops| else |ops| + 1
  {
    var more := ops + [op];
    assert more[|ops|] == op;
    assert forall k :: 0 <= k < |ops| ==> more[k] == ops[k];
  }

  /** After the registration ended, nothing more is owed. */
  lemma AppendToEnded(ops: seq<Op>, op: Op, key: Key)
    requires !Open(ops, key)
    ensures Owing(ops + [op], key) == Owing(ops, key) && !Open(ops + [op], key)
  {
    FirstEndAppend(ops, op, key);
    var i := FirstEnd(ops, key);
    assert (ops + [op])[..i] == ops[..i] && (ops + [op])[i] == ops[i];
  }

  lemma AppendEnding(ops: seq<Op>, op: Op, key: Key)
    requires Open(ops, key) && Ends(op, key)
    ensures Owed(ops + [op], key) == Owed(ops, key) && !Open(ops + [op], key)
    ensures Closed(ops + [op], key) <==> op == Complete(key)
  {
    FirstEndAppend(ops, op, key);
    assert (ops + [op])[..|ops|] == ops == ops[..|ops|] && (ops + [op])[|ops|] == op;
  }

  lemma AppendWhileOpen(ops: seq<Op>, op: Op, key: Key)
    requires Open(ops, key) && !Ends(op, key)
    ensures Open(ops + [op], key)
    ensures Owed(ops + [op], key)
            == Owed(ops, key) + if op.Emit? && op.key == key then [op.event] else []
  {
    FirstEndAppend(ops, op, key);
    var more := ops + [op];
    assert more[..|more|] == more && more[..|ops|] == ops == ops[..|ops|];
  }

  lemma SendsAppend(events: seq<Event>, e: Event)
    ensures Sends(events + [e]) == Sends(events) + [Send(e)]
  {
  }

  /** What one more operation adds to what a registration is owed. */
  lemma AppendOp(ops: seq<Op>, op: Op, key: Key)
    ensures Open(ops + [op], key) <==> Open(ops, key) && !Ends(op, key)
    ensures Owing(ops + [op], key) == Owing(ops, key) +
            if Open(ops, key) && op.Emit? && op.key == key then [Send(op.event)]
            else if Open(ops, key) && op == Complete(key) then [Close] else []
  {
    if !Open(ops, key) {
      AppendToEnded(ops, op, key);
    } else if Ends(op, key) {
      AppendEnding(ops, op, key);
    } else {
      AppendWhileOpen(ops, op, key);
      if op.Emit? && op.key == key {
        SendsAppend(Owed(ops, key), op.event);
      }
    }
  }

  lemma AppendItem(items: seq<Item>, item: Item)
    ensures Events(items + [item]) == if item.Send? then Events(items) + [item.event] else Events(items)
  {
    assert (items + [item])[..|items|] == items;
  }

  lemma {:induction false} EventsConcat(a: seq<Item>, b: seq<Item>)
    ensures Events(a + b) == Events(a) + Events(b)
  {
    if b == [] {
      assert a + b == a;
    } else {
      assert (a + b)[..|a + b| - 1] == a + b[..|b| - 1];
      EventsConcat(a, b[..|b| - 1]);
    }
  }

  lemma {:induction false} EventsOfSends(events: seq<Event>)
    ensures Events(Sends(events)) == events
  {
    if events != [] {
      var init := events[..|events| - 1];
      EventsOfSends(init);
      assert Sends(events)[..|events| - 1] == Sends(init);
    }
  }

  lemma EventsOfOwing(ops: seq<Op>, key: Key)
    ensures Events(Owing(ops, key)) == Owed(ops, key)
  {
    EventsOfSends(Owed(ops, key));
    EventsConcat(Sends(Owed(ops, key)), if Closed(ops, key) then [Close] else []);
    assert Events([Close]) == [] by { assert [Close][..0] == []; }
  }

  // ---------- invariant of the hub ----------

  /** Registered queues exist and know their key, so no queue is registered under two keys. */
  predicate WellKeyed(h: Hub) {
    forall k :: k in h.emitters ==> h.emitters[k] < |h.queues| && h.queues[h.emitters[k]].key == k
  }

  /** The bytes written are the events taken, formatted. */
  predicate WroteTaken(q: Queue) { q.sent == FormatAll(Events(q.taken)) }

  lemma StepKeepsKeys(h: Hub, op: Op)
    requires WellKeyed(h)
    ensures WellKeyed(Step(h, op))
    ensures |Step(h, op).queues| == |h.queues| + if op.Register? then 1 else 0
    ensures forall i :: 0 <= i < |h.queues| ==> Step(h, op).queues[i].key == h.queues[i].key
  {
  }

  lemma {:induction false} KeysKept(ops: seq<Op>)
    ensures WellKeyed(Exec(ops))
  {
    if ops != [] {
      KeysKept(ops[..|ops| - 1]);
      StepKeepsKeys(Exec(ops[..|ops| - 1]), ops[|ops| - 1]);
    }
  }

  /** How many queues were handed out. */
  function Opened(ops: seq<Op>): nat { |Exec(ops).queues| }

  /** The stream that registered at position i: its queue holds, taken or waiting, exactly
      what the later operations owe its key, and it is registered as long as they leave it. */
  predicate Tracks(h: Hub, q: nat, key: Key, later: seq<Op>) {
    && q < |h.queues|
    && h.queues[q].key == key
    && h.queues[q].taken + h.queues[q].pending == Owing(later, key)
    && WroteTaken(h.queues[q])
    && (Open(later, key) <==> (key in h.emitters && h.emitters[key] == q))
  }

  lemma TakeKeepsLog(q: Queue)
    ensures TakeOne(q).taken + TakeOne(q).pending == q.taken + q.pending
  {
    if q.pending != [] {
      assert q.pending == [q.pending[0]] + q.pending[1..];
      assert (q.taken + [q.pending[0]]) + q.pending[1..] == q.taken + ([q.pending[0]] + q.pending[1..]);
    }
  }

  lemma TakeKeepsBytes(q: Queue)
    requires WroteTaken(q)
    ensures WroteTaken(TakeOne(q))
  {
    if q.pending != [] {
      AppendItem(q.taken, q.pending[0]);
      if q.pending[0].Send? {
        FormatAllAppend(Events(q.taken), q.pending[0].event);
      }
    }
  }

  lemma PutExtendsLog(q: Queue, item: Item)
    ensures Put(q, item).taken + Put(q, item).pending == q.taken + q.pending + [item]
  {
  }

  /** What a step does to queue q: an item is put on it, one is taken, or nothing. */
  lemma StepQueue(h: Hub, q: nat, key: Key, op: Op)
    requires WellKeyed(h) && q < |h.queues| && h.queues[q].key == key
    ensures q < |Step(h, op).queues|
    ensures var registered := key in h.emitters && h.emitters[key] == q;
            Step(h, op).queues[q] ==
            if registered && op.Emit? && op.key == key then Put(h.queues[q], Send(op.event))
            else if registered && op == Complete(key) then Put(h.queues[q], Close)
            else if op == Take(q) then TakeOne(h.queues[q])
            else h.queues[q]
    ensures var h' := Step(h, op);
            key in h'.emitters && h'.emitters[key] == q
            <==> key in h.emitters && h.emitters[key] == q && !Ends(op, key)
  {
  }

  lemma StepTracks(h: Hub, q: nat, key: Key, later: seq<Op>, op: Op)
    requires WellKeyed(h) && Tracks(h, q, key, later)
    ensures Tracks(Step(h, op), q, key, later + [op])
  {
    AppendOp(later, op, key);
    StepQueue(h, q, key, op);
    if Open(later, key) && op.Emit? && op.key == key {
      PutExtendsLog(h.queues[q], Send(op.event));
    } else if Open(later, key) && op == Complete(key) {
      PutExtendsLog(h.queues[q], Close);
    } else if op == Take(q) {
      TakeKeepsLog(h.queues[q]);
      TakeKeepsBytes(h.queues[q]);
    }
  }

  lemma {:induction false} RunTracks(ops: seq<Op>, i: nat)
    requires i < |ops| && ops[i].Register?
    ensures Tracks(Exec(ops), Opened(ops[..i]), ops[i].key, ops[i + 1..])
  {
    var n := |ops| - 1;
    var init := ops[..n];
    KeysKept(init);
    if i == n {
      assert ops[i + 1..] == [];
      assert Owing([], ops[i].key) == [];
      assert Events([]) == [];
    } else {
      assert init[..i] == ops[..i] && init[i + 1..] + [ops[n]] == ops[i + 1..];
      RunTracks(init, i);
      StepTracks(Exec(init), Opened(ops[..i]), ops[i].key, init[i + 1..], ops[n]);
    }
  }

  // ---------- end to end ----------

  /** Every event emitted anywhere in the run is sendable. */
  predicate SendableRun(ops: seq<Op>) {
    forall i :: 0 <= i < |ops| && ops[i].Emit? ==> Sendable(ops[i].event)
  }

  lemma {:induction false} EmitsSendable(ops: seq<Op>, key: Key)
    requires SendableRun(ops)
    ensures AllSendable(EmitsTo(ops, key))
  {
    if ops != [] {
      EmitsSendable(ops[..|ops| - 1], key);
    }
  }

  lemma TakenSendable(taken: seq<Item>, pending: seq<Item>, owed: seq<Event>)
    requires AllSendable(owed) && Events(taken + pending) == owed
    ensures AllSendable(Events(taken)) && Events(taken) + Events(pending) == owed
  {
    EventsConcat(taken, pending);
    forall i | 0 <= i < |Events(taken)|
      ensures Sendable(Events(taken)[i])
    {
      assert Events(taken)[i] == owed[i];
    }
  }

  /** In every interleaving, what the client of a stream has read so far, followed by what
      waits on its queue, is exactly and in order what was emitted to its key from its
      register until the first complete, unregister or re-register. The close sentinel is
      the last item ever put on a queue, and is put there only by that complete. */
  lemma EndToEnd(ops: seq<Op>, i: nat)
    requires i < |ops| && ops[i].Register? && SendableRun(ops)
    ensures var key, later := ops[i].key, ops[i + 1..];
            var q := Opened(ops[..i]);
            q < |Exec(ops).queues|
            && (var queue := Exec(ops).queues[q];
                Decode(queue.sent, Blank) + Events(queue.pending) == Owed(later, key)
                && queue.taken + queue.pending
                   == Sends(Owed(later, key)) + (if Closed(later, key) then [Close] else []))
  {
    var key, later := ops[i].key, ops[i + 1..];
    RunTracks(ops, i);
    var queue := Exec(ops).queues[Opened(ops[..i])];
    EventsOfOwing(later, key);
    EmitsSendable(later[..FirstEnd(later, key)], key);
    TakenSendable(queue.taken, queue.pending, Owed(later, key));
    DecodeFormatAll(Events(queue.taken));
  }

  /** No queue is ever registered under two keys, nor back under one it lost. */
  lemma NeverRegisteredTwice(ops: seq<Op>, i: nat, k: Key)
    requires i < |ops| && ops[i].Register?
    ensures var q := Opened(ops[..i]);
            k in Exec(ops).emitters && Exec(ops).emitters[k] == q
            ==> k == ops[i].key && Open(ops[i + 1..], k)
  {
    RunTracks(ops, i);
    KeysKept(ops);
  }

  /** The registry forgets by key, not by queue: when a closed stream's cleanup runs after a
      new stream took over its key, nothing ever reaches the new stream. */
  lemma LateCleanupSilencesSuccessor(before: seq<Op>, key: Key, after: seq<Op>)
    ensures var reopened := before + [Register(key), Complete(key), Register(key)];
            var cleanup := [Take(Opened(before)), Unregister(key)];
            var q := Opened(before + [Register(key), Complete(key)]);
            var queues := Exec(reopened + (cleanup + after)).queues;
            q < |queues| && queues[q].taken + queues[q].pending == []
  {
    var prefix := before + [Register(key), Complete(key)];
    var later := [Take(Opened(before)), Unregister(key)] + after;
    var run := before + [Register(key), Complete(key), Register(key)] + later;
    var i := |before| + 2;
    assert run[..i] == prefix && run[i] == Register(key) && run[i + 1..] == later;
    RunTracks(run, i);
    assert later[0] == Take(Opened(before)) && later[1] == Unregister(key);
    FirstEndIs(later, key, 1);
    assert later[..1] == [Take(Opened(before))];
    EmitsNothing(Take(Opened(before)), key);
    assert Owed(later, key) == [] && !Closed(later, key);
    assert Exec(run).queues[Opened(prefix)].taken + Exec(run).queues[Opened(prefix)].pending == [];
  }

  lemma EmitsNothing(op: Op, key: Key)
    requires !op.Emit?
    ensures EmitsTo([op], key) == []
  {
    assert [op][..|[op]| - 1] == [];
    assert EmitsTo([], key) == [];
  }

  lemma FirstEndIs(ops: seq<Op>, key: Key, i: nat)
    requires i < |ops| && Ends(ops[i], key) && forall k :: 0 <= k < i ==> !Ends(ops[k], key)
    ensures FirstEnd(ops, key) == i
  {
  }

  // ---------- the registry and its streams as objects ----------

  /** asyncio.Queue. */
  class EventQueue {
    var items: seq<Item>

    constructor ()
      ensures items == []
    {
      items := [];
    }
  }

  class Registry {
    var emitters: map<Key, EventQueue>
    ghost var created: seq<EventQueue>
    ghost var hub: Hub

    /** The dictionary and the queues are what the hub says; queues are never shared. */
    ghost predicate Valid()
      reads this, set q | q in created
    {
      && |created| == |hub.queues|
      && (forall i, j :: 0 <= i < j < |created| ==> created[i] != created[j])
      && (forall i :: 0 <= i < |created| ==> created[i].items == hub.queues[i].pending)
      && WellKeyed(hub)
      && emitters.Keys == hub.emitters.Keys
      && (forall k :: k in emitters ==> emitters[k] == created[hub.emitters[k]])
    }

    constructor ()
      ensures Valid() && hub == EmptyHub
    {
      emitters := map[];
      created := [];
      hub := EmptyHub;
    }

    method Register(key: Key) returns (queue: EventQueue)
      requires Valid()
      modifies this
      ensures Valid() && hub == Step(old(hub), Op.Register(key))
      ensures fresh(queue) && created == old(created) + [queue]
    {
      queue := new EventQueue();
      emitters := emitters[key := queue];
      created := created + [queue];
      hub := Step(hub, Op.Register(key));
    }

    method Unregister(key: Key)
      requires Valid()
      modifies this
      ensures Valid() && hub == Step(old(hub), Op.Unregister(key)) && created == old(created)
    {
      emitters := emitters - {key};
      StepKeepsKeys(hub, Op.Unregister(key));
      hub := Step(hub, Op.Unregister(key));
    }

    method Emit(key: Key, event: Event)
      requires Valid()
      modifies `hub, created`items
      ensures Valid() && hub == Step(old(hub), Op.Emit(key, event)) && created == old(created)
    {
      if key in emitters {
        var queue := emitters[key];
        queue.items := queue.items + [Send(event)];
      }
      StepKeepsKeys(hub, Op.Emit(key, event));
      hub := Step(hub, Op.Emit(key, event));
    }

    method Complete(key: Key)
      requires Valid()
      modifies this, created`items
      ensures Valid() && hub == Step(old(hub), Op.Complete(key)) && created == old(created)
    {
      if key in emitters {
        var queue := emitters[key];
        emitters := emitters - {key};
        queue.items := queue.items + [Close];
      }
      StepKeepsKeys(hub, Op.Complete(key));
      hub := Step(hub, Op.Complete(key));
    }
  }

  /** The generator behind a streaming response: registered on entry, unregistered on exit. */
  class Stream {
    const registry: Registry
    const key: Key
    const queue: EventQueue
    ghost const index: nat
    var finished: bool

    ghost predicate Valid()
      reads this, registry, set q | q in registry.created
    {
      registry.Valid() && index < |registry.created| && registry.created[index] == queue
    }

    constructor (registry: Registry, key: Key)
      requires registry.Valid()
      modifies registry
      ensures Valid() && !finished && this.registry == registry && this.key == key
      ensures index == |old(registry.created)|
      ensures registry.hub == Step(old(registry.hub), Op.Register(key))
    {
      var q := registry.Register(key);
      this.registry := registry;
      this.key := key;
      this.queue := q;
      this.index := |registry.created| - 1;
      this.finished := false;
    }

    /** One resumption of the loop: nothing while the queue is empty, a chunk for an event,
        and at the sentinel the exit through the cleanup. */
    method Resume() returns (chunk: Option<string>)
      requires Valid() && !finished
      modifies this`finished, queue`items, registry
      ensures Valid() && registry.created == old(registry.created)
      ensures var before := old(registry.hub); var took := Step(before, Op.Take(index));
              var waiting := before.queues[index].pending;
              if waiting == [] then registry.hub == before && chunk == None && !finished
              else if waiting[0].Send? then
                var e := waiting[0].event;
                registry.hub == took && !finished
                && chunk == Some("event: " + e.name + "\ndata: " + e.data + "\n\n")
              else registry.hub == Step(took, Op.Unregister(key)) && chunk == None && finished
    {
      chunk := None;
      if queue.items != [] {
        var item := queue.items[0];
        queue.items := queue.items[1..];
        StepKeepsKeys(registry.hub, Op.Take(index));
        registry.hub := Step(registry.hub, Op.Take(index));
        if item.Send? {
          FormatText(item.event);
          chunk := Some(Format(item.event));
        } else {
          Exit();
        }
      }
    }

    /** The finally block, also reached when the client disconnects. */
    method Exit()
      requires Valid()
      modifies this`finished, registry
      ensures Valid() && finished && registry.created == old(registry.created)
      ensures registry.hub == Step(old(registry.hub), Op.Unregister(key))
    {
      registry.Unregister(key);
      finished := true;
    }
  }
}
