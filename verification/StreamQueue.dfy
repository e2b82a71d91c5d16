/** Streaming an answer: a producer task and the response generator over one bounded queue. */
module StreamQueue {

  const STREAM_QUEUE_MAX := 512

  datatype Event = Event(name: string, data: string)
  datatype Answer = Answer(kind: string, text: string)
  datatype Outcome = Returned(answer: Answer) | Raised | Cancelled

  datatype Slot = Item(event: Event) | End
  datatype Out =
    | Status | Forward(event: Event) | Keepalive
    | Meta(answer: Answer) | Delta(text: string) | Final(answer: Answer) | Done | Error

  datatype Producer = Running | Closed(outcome: Outcome)
  datatype Consumer = Starting | Waiting | Emitting(rest: seq<Out>) | Gone

  /** What follows the last forwarded item, once the producer's outcome is awaited. */
  function TailOf(o: Outcome): seq<Out> {
    match o
    case Returned(a) =>
      [Meta(a)] + (if a.kind != "analytics" && a.text != "" then [Delta(a.text)] else []) + [Final(a), Done]
    case Raised => [Error]
    case Cancelled => []
  }

  /** The whole state; `written` is every event the writer queued, `body` and `tail` what the client was sent. */
  datatype State = State(queue: seq<Slot>, producer: Producer, consumer: Consumer,
                         written: seq<Event>, body: seq<Out>, tail: seq<Out>)
  {
    function Sent(): seq<Out> { body + tail }
  }

  const INIT := State([], Running, Starting, [], [], [])

  /** put_nowait of the sentinel, with QueueFull suppressed. */
  function WithSentinel(q: seq<Slot>): seq<Slot> { if |q| < STREAM_QUEUE_MAX then q + [End] else q }

  // ------------------------------------------------------------------
  // The steps, in any interleaving
  // ------------------------------------------------------------------

  datatype Action =
    | Write(event: Event)       // the writer's put completes
    | Close(outcome: Outcome)   // the graph returns or raises; its finally clause queues the sentinel
    | Begin                     // the first yield
    | Get                       // queue.get returns
    | Beat                      // queue.get times out
    | Emit                      // one of the yields after the loop
    | Disconnect                // the client goes, and the finally clause cancels the producer

  predicate Enabled(s: State, a: Action) {
    match a
    case Write(_) => s.producer.Running? && |s.queue| < STREAM_QUEUE_MAX
    case Close(o) => s.producer.Running? && !o.Cancelled?
    case Begin => s.consumer.Starting?
    case Get => s.consumer.Waiting? && s.queue != [] && (s.queue[0].End? ==> s.producer.Closed?)
    case Beat => s.consumer.Waiting? && s.queue == []
    case Emit => s.consumer.Emitting? && s.consumer.rest != []
    case Disconnect => !s.consumer.Gone? && s.consumer != Emitting([])
  }

  function Next(s: State, a: Action): State
    requires Enabled(s, a)
  {
    match a
    case Write(e) => s.(queue := s.queue + [Item(e)], written := s.written + [e])
    case Close(o) => s.(queue := WithSentinel(s.queue), producer := Closed(o))
    case Begin => s.(body := [Status], consumer := Waiting)
    case Get =>
      if s.queue[0].End? then s.(queue := s.queue[1..], consumer := Emitting(TailOf(s.producer.outcome)))
      else s.(queue := s.queue[1..], body := s.body + [Forward(s.queue[0].event)])
    case Beat => s.(body := s.body + [Keepalive])
    case Emit => s.(tail := s.tail + [s.consumer.rest[0]], consumer := Emitting(s.consumer.rest[1..]))
    case Disconnect =>
      if s.producer.Running? then s.(consumer := Gone, queue := WithSentinel(s.queue), producer := Closed(Cancelled))
      else s.(consumer := Gone)
  }

  ghost predicate Runs(s: State, actions: seq<Action>, t: State)
    decreases |actions|
  {
    if actions == [] then s == t
    else Enabled(s, actions[0]) && Runs(Next(s, actions[0]), actions[1..], t)
  }

  // ------------------------------------------------------------------
  // The same steps on the shared queue
  // ------------------------------------------------------------------

  class Stream {
    var queue: seq<Slot>
    var producer: Producer
    var consumer: Consumer
    var sent: seq<Out>
    ghost var written: seq<Event>
    ghost var body: seq<Out>
    ghost var tail: seq<Out>

    ghost function Now(): State
      reads this
    {
      State(queue, producer, consumer, written, body, tail)
    }

    ghost predicate Valid()
      reads this
    {
      Inv(Now()) && sent == Now().Sent()
    }

    constructor ()
      ensures Valid() && Now() == INIT
    {
      queue, producer, consumer, sent := [], Running, Starting, [];
      written, body, tail := [], [], [];
    }

    /** The stream writer, once its put has a slot. */
    method Put(e: Event)
      requires Valid() && Enabled(Now(), Write(e))
      modifies this
      ensures Valid() && Now() == Next(old(Now()), Write(e))
    {
      InvStep(Now(), Write(e));
      queue := queue + [Item(e)];
      written := written + [e];
    }

    /** The end of produce(): its finally clause, and the producer has ended. */
    method Finish(o: Outcome)
      requires Valid() && Enabled(Now(), Close(o))
      modifies this
      ensures Valid() && Now() == Next(old(Now()), Close(o))
    {
      InvStep(Now(), Close(o));
      if |queue| < STREAM_QUEUE_MAX { queue := queue + [End]; }
      producer := Closed(o);
    }

    /** One round of the consumer loop: an item, the sentinel, or a heartbeat on an empty queue. */
    method Pull()
      requires Valid() && consumer.Waiting?
      modifies this
      ensures Valid()
      ensures Now() == Next(old(Now()), if old(queue) != [] then Get else Beat)
    {
      if queue == [] {
        InvStep(Now(), Beat);
        sent := sent + [Keepalive];
        body := body + [Keepalive];
        return;
      }
      InvStep(Now(), Get);
      var item := queue[0];
      queue := queue[1..];
      if item.End? {
        consumer := Emitting(TailOf(producer.outcome));
        return;
      }
      sent := sent + [Forward(item.event)];
      body := body + [Forward(item.event)];
    }

    method Start()
      requires Valid() && consumer.Starting?
      modifies this
      ensures Valid() && Now() == Next(old(Now()), Begin)
    {
      InvStep(Now(), Begin);
      sent, consumer := [Status], Waiting;
      body := [Status];
    }

    /** The yields after the loop: meta, a delta for other than analytics, final, done; or error. */
    method Finale()
      requires Valid() && consumer.Emitting?
      modifies this
      ensures Valid() && consumer == Emitting([]) && queue == old(queue) && producer == old(producer)
      ensures written == old(written) && body == old(body) && sent == old(sent) + old(consumer.rest)
    {
      while consumer.rest != []
        invariant Valid() && consumer.Emitting? && queue == old(queue) && producer == old(producer)
        invariant written == old(written) && body == old(body) && sent + consumer.rest == old(sent) + old(consumer.rest)
        decreases |consumer.rest|
      {
        InvStep(Now(), Emit);
        ghost var rest := consumer.rest;
        sent, tail := sent + [consumer.rest[0]], tail + [consumer.rest[0]];
        consumer := Emitting(consumer.rest[1..]);
        assert rest == [rest[0]] + rest[1..];
      }
    }

    /** The generator is closed early. */
    method Abandon()
      requires Valid() && Enabled(Now(), Disconnect)
      modifies this
      ensures Valid() && Now() == Next(old(Now()), Disconnect)
      ensures producer.Closed?
    {
      InvStep(Now(), Disconnect);
      consumer := Gone;
      if producer.Running? {
        if |queue| < STREAM_QUEUE_MAX { queue := queue + [End]; }
        producer := Closed(Cancelled);
      }
    }
  }

  // ------------------------------------------------------------------
  // What every reachable state keeps
  // ------------------------------------------------------------------

  function Forwarded(outs: seq<Out>): seq<Event> {
    if outs == [] then []
    else Forwarded(outs[..|outs| - 1]) + if outs[|outs| - 1].Forward? then [outs[|outs| - 1].event] else []
  }

  function Pending(q: seq<Slot>): seq<Event> {
    if q == [] then [] else (if q[0].Item? then [q[0].event] else []) + Pending(q[1..])
  }

  predicate Live(o: Out) { o.Forward? || o.Keepalive? }

  ghost predicate Inv(s: State) {
    && |s.queue| <= STREAM_QUEUE_MAX
    && (forall i :: 0 <= i < |s.queue| && s.queue[i].End? ==> i == |s.queue| - 1 && s.producer.Closed?)
    && Forwarded(s.body) + Pending(s.queue) == s.written
    && (s.body != [] ==> s.body[0] == Status && forall i :: 1 <= i < |s.body| ==> Live(s.body[i]))
    && (s.producer == Closed(Cancelled) ==> s.consumer.Gone?)
    && match s.consumer
       case Starting => s.body == [] && s.tail == []
       case Waiting => s.body != [] && s.tail == []
       case Emitting(rest) =>
         s.body != [] && s.queue == [] && s.producer.Closed? && s.tail + rest == TailOf(s.producer.outcome)
       case Gone =>
         s.producer.Closed? && (s.tail != [] ==> s.body != [] && s.queue == [] && s.tail <= TailOf(s.producer.outcome))
  }

  lemma {:induction false} PendingAppend(q: seq<Slot>, x: Slot)
    ensures Pending(q + [x]) == Pending(q) + if x.Item? then [x.event] else []
  {
    if q == [] {
      assert q + [x] == [x];
    } else {
      PendingAppend(q[1..], x);
      var head := if q[0].Item? then [q[0].event] else [];
      var last := if x.Item? then [x.event] else [];
      assert (q + [x])[0] == q[0] && (q + [x])[1..] == q[1..] + [x];
      assert head + (Pending(q[1..]) + last) == (head + Pending(q[1..])) + last;
    }
  }

  lemma ForwardedStep(body: seq<Out>, o: Out)
    ensures Forwarded(body + [o]) == Forwarded(body) + if o.Forward? then [o.event] else []
  {
    assert (body + [o])[..|body|] == body;
  }

  lemma GetKeepsOrder(s: State)
    requires Inv(s) && Enabled(s, Get)
    ensures var t := Next(s, Get); Forwarded(t.body) + Pending(t.queue) == s.written
  {
    if s.queue[0].Item? {
      var e := s.queue[0].event;
      ForwardedStep(s.body, Forward(e));
      assert Forwarded(s.body) + ([e] + Pending(s.queue[1..])) == Forwarded(s.body) + [e] + Pending(s.queue[1..]);
    }
  }

  lemma ProducerStepKeeps(s: State, a: Action)
    requires Inv(s) && Enabled(s, a) && (a.Write? || a.Close?)
    ensures Inv(Next(s, a))
  {
    var x := if a.Write? then Item(a.event) else End;
    PendingAppend(s.queue, x);
    if a.Write? {
      assert Forwarded(s.body) + (Pending(s.queue) + [a.event]) == s.written + [a.event];
    } else {
      assert Pending(s.queue) + [] == Pending(s.queue);
    }
  }

  lemma LoopStepKeeps(s: State, a: Action)
    requires Inv(s) && Enabled(s, a) && (a.Begin? || a.Get? || a.Beat?)
    ensures Inv(Next(s, a))
  {
    if a.Get? {
      GetKeepsOrder(s);
    } else {
      var o := if a.Begin? then Status else Keepalive;
      ForwardedStep(s.body, o);
      assert s.body + [o] == if a.Begin? then [Status] else s.body + [o];
    }
  }

  lemma LastStepKeeps(s: State, a: Action)
    requires Inv(s) && Enabled(s, a) && (a.Emit? || a.Disconnect?)
    ensures Inv(Next(s, a))
  {
    if a.Emit? {
      var rest := s.consumer.rest;
      assert s.tail + [rest[0]] + rest[1..] == s.tail + rest;
    } else {
      PendingAppend(s.queue, End);
      assert Pending(s.queue) + [] == Pending(s.queue);
    }
  }

  /** Every step keeps the invariant. */
  lemma InvStep(s: State, a: Action)
    requires Inv(s) && Enabled(s, a)
    ensures Inv(Next(s, a))
  {
    match a {
      case Write(_) => ProducerStepKeeps(s, a);
      case Close(_) => ProducerStepKeeps(s, a);
      case Begin => LoopStepKeeps(s, a);
      case Get => LoopStepKeeps(s, a);
      case Beat => LoopStepKeeps(s, a);
      case Emit => LastStepKeeps(s, a);
      case Disconnect => LastStepKeeps(s, a);
    }
  }

  lemma {:induction false} InvRuns(s: State, actions: seq<Action>, t: State)
    requires Inv(s) && Runs(s, actions, t)
    ensures Inv(t)
    decreases |actions|
  {
    if actions != [] {
      InvStep(s, actions[0]);
      InvRuns(Next(s, actions[0]), actions[1..], t);
    }
  }

  lemma {:induction false} NoForwards(outs: seq<Out>)
    requires forall o :: o in outs ==> !o.Forward?
    ensures Forwarded(outs) == []
  {
    if outs != [] { NoForwards(outs[..|outs| - 1]); }
  }

  lemma {:induction false} ForwardedAppend(xs: seq<Out>, ys: seq<Out>)
    ensures Forwarded(xs + ys) == Forwarded(xs) + Forwarded(ys)
  {
    if ys == [] {
      assert xs + ys == xs;
    } else {
      assert (xs + ys)[..|xs + ys| - 1] == xs + ys[..|ys| - 1];
      ForwardedAppend(xs, ys[..|ys| - 1]);
    }
  }

  /** An output that closes the stream, successfully or not. */
  predicate Closing(o: Out) { !o.Status? && !Live(o) }

  lemma TailCloses(s: State)
    requires Inv(s)
    ensures forall o :: o in s.tail ==> Closing(o)
    ensures s.tail != [] ==> s.queue == [] && s.producer.Closed? && s.tail <= TailOf(s.producer.outcome)
    ensures forall o :: o in s.body ==> !Closing(o)
  {
    if s.tail != [] {
      var all := TailOf(s.producer.outcome);
      assert s.tail <= all;
      assert forall o :: o in all ==> Closing(o);
      assert forall o :: o in s.tail ==> o in all;
    }
  }

  /** Cutting what was sent inside its tail loses no forwarded item. */
  lemma ForwardedAtCut(s: State, i: nat)
    requires Inv(s) && |s.body| <= i <= |s.Sent()|
    ensures Forwarded(s.Sent()[..i]) == Forwarded(s.body)
  {
    var cut := s.tail[..i - |s.body|];
    assert s.Sent()[..i] == s.body + cut;
    TailCloses(s);
    assert forall o :: o in cut ==> o in s.tail;
    NoForwards(cut);
    ForwardedAppend(s.body, cut);
  }

  /**
   * In every interleaving: the queue stays within its bound, and what the client got plus what still
   * waits is exactly what was written, in order; meta, final, done and error come only after all of it.
   */
  lemma StreamSafety(actions: seq<Action>, s: State)
    requires Runs(INIT, actions, s)
    ensures |s.queue| <= 512
    ensures Forwarded(s.Sent()) + Pending(s.queue) == s.written
    ensures forall i :: 0 <= i < |s.Sent()| && Closing(s.Sent()[i])
                        ==> s.queue == [] && Forwarded(s.Sent()[..i]) == s.written
  {
    assert Inv(s) by { InvRuns(INIT, actions, s); }
    ForwardedAtCut(s, |s.Sent()|);
    assert s.Sent()[..|s.Sent()|] == s.Sent();
    TailCloses(s);
    assert forall j :: 0 <= j < |s.body| ==> s.Sent()[j] == s.body[j] && s.body[j] in s.body;
    forall i | 0 <= i < |s.Sent()| && Closing(s.Sent()[i])
      ensures s.queue == [] && Forwarded(s.Sent()[..i]) == s.written
    {
      ForwardedAtCut(s, i);
      assert Forwarded(s.body) + [] == Forwarded(s.body);
    }
  }

  /** The events that end an answer: an analytics answer, or one without text, has no delta. */
  function Ending(a: Answer): seq<Out> {
    if a.kind == "analytics" || a.text == "" then [Meta(a), Final(a), Done]
    else [Meta(a), Delta(a.text), Final(a), Done]
  }

  /** A client that is sent everything gets the ending of the answer, or the error of a graph that raised. */
  lemma FinishedMeans(actions: seq<Action>, s: State)
    requires Runs(INIT, actions, s) && s.consumer == Emitting([])
    ensures s.producer.Closed? && !s.producer.outcome.Cancelled?
    ensures s.producer.outcome.Returned? ==> s.Sent() == s.body + Ending(s.producer.outcome.answer)
    ensures s.producer.outcome.Raised? ==> s.Sent() == s.body + [Error]
    ensures Forwarded(s.body) == s.written && s.body != [] && s.body[0] == Status
    ensures forall i :: 0 < i < |s.body| ==> s.body[i].Forward? || s.body[i].Keepalive?
  {
    InvRuns(INIT, actions, s);
    assert s.tail + [] == s.tail && Forwarded(s.body) + [] == Forwarded(s.body);
  }

  /** A client that saw done saw everything written, then exactly the tail of a graph that returned. */
  lemma DoneMeansComplete(actions: seq<Action>, s: State)
    requires Runs(INIT, actions, s) && Done in s.Sent()
    ensures s.producer.Closed? && s.producer.outcome.Returned?
    ensures Forwarded(s.Sent()) == s.written && Error !in s.Sent()
    ensures s.tail == Ending(s.producer.outcome.answer)
  {
    assert Inv(s) by { InvRuns(INIT, actions, s); }
    DoneInTail(s);
    TailIsEnding(s.producer.outcome.answer);
  }

  lemma TailIsEnding(a: Answer)
    ensures TailOf(Returned(a)) == Ending(a)
  {
  }

  lemma DoneInTail(s: State)
    requires Inv(s) && Done in s.Sent()
    ensures s.producer.Closed? && s.producer.outcome.Returned?
    ensures Forwarded(s.Sent()) == s.written && Error !in s.Sent()
    ensures s.tail == TailOf(s.producer.outcome)
  {
    TailCloses(s);
    assert Closing(Done) && Done in s.tail;
    WholeTail(s.tail, s.producer.outcome);
    ForwardedAtCut(s, |s.Sent()|);
    assert s.Sent()[..|s.Sent()|] == s.Sent() && Forwarded(s.body) + [] == Forwarded(s.body);
    assert Closing(Error);
  }

  lemma WholeTail(tail: seq<Out>, o: Outcome)
    requires tail <= TailOf(o) && Done in tail
    ensures o.Returned? && tail == TailOf(o) && Error !in tail
  {
    var i :| 0 <= i < |tail| && tail[i] == Done;
    assert TailOf(o)[i] == Done;
    assert o.Returned? && i == |TailOf(o)| - 1;
  }

  /** A client may go at any moment before its last event; then the producer is over and nothing more happens. */
  lemma DisconnectStops(s: State)
    requires Inv(s)
    ensures s.consumer.Starting? || s.consumer.Waiting? || (s.consumer.Emitting? && s.consumer.rest != [])
            <==> Enabled(s, Disconnect)
    ensures Enabled(s, Disconnect) ==>
              var next := Next(s, Disconnect);
              && next.producer == (if s.producer.Running? then Closed(Cancelled) else s.producer)
              && next.Sent() == s.Sent() && forall a :: !Enabled(next, a)
  {
  }

  // ------------------------------------------------------------------
  // Reaching done
  // ------------------------------------------------------------------

  /** The producer returned and the sentinel is still to come, or has been taken. */
  predicate Promised(s: State) {
    && s.producer.Closed? && s.producer.outcome.Returned?
    && match s.consumer
       case Starting => s.queue != [] && s.queue[|s.queue| - 1].End?
       case Waiting => s.queue != [] && s.queue[|s.queue| - 1].End?
       case Emitting(_) => true
       case Gone => false
  }

  /** How many more steps of the consumer it takes to finish. */
  function Left(s: State): nat
    requires Promised(s)
  {
    match s.consumer
    case Emitting(rest) => |rest|
    case _ => (if s.consumer.Starting? then 1 else 0) + |s.queue| + |TailOf(s.producer.outcome)|
  }

  /** Until it is finished something can happen, and short of a disconnect it is one step nearer. */
  lemma EveryStepIsNearer(s: State)
    requires Inv(s) && Promised(s)
    ensures Left(s) > 0 ==> Enabled(s, Begin) || Enabled(s, Get) || Enabled(s, Emit)
    ensures forall a :: Enabled(s, a) && a != Disconnect ==> Promised(Next(s, a)) && Left(Next(s, a)) == Left(s) - 1
  {
  }

  /** A consumer that keeps reading reaches done, in exactly Left(s) steps. */
  lemma {:induction false} KeepsReadingReachesDone(s: State, actions: seq<Action>, t: State)
    requires Inv(s) && Promised(s) && Disconnect !in actions && Runs(s, actions, t)
    ensures |actions| <= Left(s)
    ensures |actions| == Left(s) ==> t.Sent() != [] && t.Sent()[|t.Sent()| - 1] == Done
    ensures |actions| == Left(s) ==> Forwarded(t.body) == t.written == s.written
    decreases |actions|
  {
    EveryStepIsNearer(s);
    if actions == [] {
      if Left(s) == 0 { assert s.tail + [] == s.tail == TailOf(s.producer.outcome); }
    } else {
      InvStep(s, actions[0]);
      KeepsReadingReachesDone(Next(s, actions[0]), actions[1..], t);
    }
  }

  /** The steps of such a consumer. */
  ghost function Reading(s: State): seq<Action>
    requires Inv(s) && Promised(s)
    decreases Left(s)
  {
    EveryStepIsNearer(s);
    if Left(s) == 0 then []
    else
      var a := if Enabled(s, Begin) then Begin else if Enabled(s, Get) then Get else Emit;
      InvStep(s, a);
      [a] + Reading(Next(s, a))
  }

  lemma {:induction false} ReadingRuns(s: State)
    requires Inv(s) && Promised(s)
    ensures |Reading(s)| == Left(s) && Disconnect !in Reading(s)
    ensures exists t :: Runs(s, Reading(s), t)
    decreases Left(s)
  {
    EveryStepIsNearer(s);
    if Left(s) > 0 {
      var a := Reading(s)[0];
      InvStep(s, a);
      ReadingRuns(Next(s, a));
      var t :| Runs(Next(s, a), Reading(Next(s, a)), t);
      assert Reading(s) == [a] + Reading(Next(s, a));
      assert Reading(s)[1..] == Reading(Next(s, a));
      assert Runs(s, Reading(s), t);
    } else {
      assert Runs(s, [], s);
    }
  }

  /** The sentinel was dropped: the producer is done and the consumer still waits for it. */
  predicate Lost(s: State) {
    && s.producer.Closed? && s.tail == [] && (s.consumer.Starting? || s.consumer.Waiting? || s.consumer.Gone?)
    && forall i :: 0 <= i < |s.queue| ==> s.queue[i].Item?
  }

  lemma {:induction false} LostStaysLost(s: State, actions: seq<Action>, t: State)
    requires Lost(s) && Inv(s) && Runs(s, actions, t)
    ensures Lost(t) && Done !in t.Sent() && Error !in t.Sent()
    decreases |actions|
  {
    if actions != [] {
      InvStep(s, actions[0]);
      LostStaysLost(Next(s, actions[0]), actions[1..], t);
    } else {
      assert forall o :: o in s.body ==> o == Status || Live(o);
    }
  }

  ghost predicate ReachesDone(s: State) { exists actions, t :: Runs(s, actions, t) && Done in t.Sent() }

  lemma PromisedReachesDone(s: State)
    requires Inv(s) && Promised(s)
    ensures ReachesDone(s)
  {
    ReadingRuns(s);
    var t :| Runs(s, Reading(s), t);
    KeepsReadingReachesDone(s, Reading(s), t);
    assert t.Sent()[|t.Sent()| - 1] in t.Sent();
  }

  lemma LostNeverReachesDone(s: State)
    requires Inv(s) && Lost(s)
    ensures !ReachesDone(s)
  {
    forall actions, t | Runs(s, actions, t) ensures Done !in t.Sent() {
      LostStaysLost(s, actions, t);
    }
  }

  /** When the graph returns, done can still be reached exactly if the queue has a free slot at that moment. */
  lemma DoneReachableIffSlot(s: State, answer: Answer)
    requires Inv(s) && s.producer.Running?
    ensures ReachesDone(Next(s, Close(Returned(answer)))) <==> |s.queue| < 512
  {
    var closed := Next(s, Close(Returned(answer)));
    InvStep(s, Close(Returned(answer)));
    if |s.queue| < STREAM_QUEUE_MAX {
      PromisedReachesDone(closed);
    } else {
      LostNeverReachesDone(closed);
    }
  }

  // ------------------------------------------------------------------
  // A run that fills the queue
  // ------------------------------------------------------------------

  function Writes(e: Event, n: nat): seq<Action> { seq(n, _ => Write(e)) }

  /** n items queued, and none read yet. */
  function Queued(e: Event, n: nat): State { State(seq(n, _ => Item(e)), Running, Starting, seq(n, _ => e), [], []) }

  lemma {:induction false} WritesFill(e: Event, m: nat, n: nat)
    requires m + n <= STREAM_QUEUE_MAX
    ensures Runs(Queued(e, m), Writes(e, n), Queued(e, m + n))
    decreases n
  {
    if n > 0 {
      assert Writes(e, n)[1..] == Writes(e, n - 1);
      assert Next(Queued(e, m), Write(e)) == Queued(e, m + 1);
      WritesFill(e, m + 1, n - 1);
    }
  }

  /** A producer that is ahead by the queue's size when its graph returns leaves a client that never sees done. */
  lemma FullQueueLosesDone(e: Event, answer: Answer, n: nat)
    requires n == 512
    ensures Runs(INIT, Writes(e, n), Queued(e, n))
    ensures Enabled(Queued(e, n), Close(Returned(answer)))
    ensures !ReachesDone(Next(Queued(e, n), Close(Returned(answer))))
  {
    assert Queued(e, 0) == INIT;
    WritesFill(e, 0, n);
    InvRuns(INIT, Writes(e, n), Queued(e, n));
    DoneReachableIffSlot(Queued(e, n), answer);
  }
}
