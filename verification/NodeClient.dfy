/** The Node client's queue: `track`, `flushInternal` and `requeue`, under any server answers. */
module NodeClient {
  import opened Seqs
  import opened Records
  import opened Numbered

  datatype Config = Config(batchSize: nat, maxQueueSize: nat)

  datatype Answer = Status(code: nat) | Unreachable

  predicate IsOk(code: nat) {
    200 <= code <= 299
  }

  predicate IsRetryable(code: nat) {
    code == 429 || code >= 500
  }

  /** `batch` is what the pending request carries, until its answer has been dealt
      with; `flushing` stays set until the `finally` after that. `tracked` and
      `delivered` are the history. */
  datatype State = State(queue: seq<Entry>, flushing: bool, batch: Option<seq<Entry>>, dropped: nat,
                         tracked: seq<LogRecord>, delivered: seq<Entry>)

  function FlushInternal(s: State): State {
    if s.queue == [] || s.flushing then s else s.(queue := [], flushing := true, batch := Some(s.queue))
  }

  function Track(s: State, c: Config, r: LogRecord): State {
    var pushed := s.queue + [Entry(|s.tracked|, r)];
    var over := |pushed| > c.maxQueueSize;
    var t := s.(queue := if over then pushed[1..] else pushed, dropped := s.dropped + if over then 1 else 0,
                tracked := s.tracked + [r]);
    if |t.queue| >= c.batchSize then FlushInternal(t) else t
  }

  function Requeue(s: State, c: Config, batch: seq<Entry>): State {
    var merged := batch + s.queue;
    var excess := Max(|merged| - c.maxQueueSize, 0);
    s.(queue := merged[excess..], dropped := s.dropped + excess)
  }

  /** The `then` and `catch` of a request. */
  function Answered(s: State, c: Config, a: Answer): State
    requires s.batch.Some?
  {
    var settled := s.(batch := None);
    if a.Status? && IsOk(a.code) then settled.(delivered := s.delivered + s.batch.value)
    else if a.Unreachable? || IsRetryable(a.code) then Requeue(settled, c, s.batch.value)
    else settled.(dropped := s.dropped + |s.batch.value|)
  }

  datatype Event = Tracked(record: LogRecord) | FlushCalled | AnswerCame(answer: Answer) | Finally

  predicate Enabled(s: State, e: Event) {
    match e
    case AnswerCame(_) => s.batch.Some?
    case Finally => s.flushing && s.batch.None?
    case _ => true
  }

  function Step(s: State, c: Config, e: Event): State
    requires Enabled(s, e)
  {
    match e
    case Tracked(r) => Track(s, c, r)
    case FlushCalled => FlushInternal(s)
    case AnswerCame(a) => Answered(s, c, a)
    case Finally => s.(flushing := false)
  }

  predicate Legal(s: State, c: Config, events: seq<Event>)
    decreases |events|
  {
    events == [] || (Enabled(s, events[0]) && Legal(Step(s, c, events[0]), c, events[1..]))
  }

  function Exec(s: State, c: Config, events: seq<Event>): State
    requires Legal(s, c, events)
    decreases |events|
  {
    if events == [] then s else Exec(Step(s, c, events[0]), c, events[1..])
  }

  function InFlight(s: State): seq<Entry> {
    if s.batch.Some? then s.batch.value else []
  }

  /** Nothing is lost without being counted, the queue is bounded, and everything
      delivered, in flight or queued is distinct and in the order it was tracked. */
  ghost predicate Inv(s: State, c: Config) {
    && |s.queue| <= c.maxQueueSize
    && |s.tracked| == |s.delivered| + s.dropped + |InFlight(s)| + |s.queue|
    && InOrder(s.delivered + InFlight(s) + s.queue) && From(s.delivered + InFlight(s) + s.queue, s.tracked)
    && (s.batch.Some? ==> s.flushing)
  }

  function Start(): State {
    State([], false, None, 0, [], [])
  }

  lemma FlushKeepsInv(s: State, c: Config)
    requires Inv(s, c)
    ensures Inv(FlushInternal(s), c)
  {
    hide InOrder, From;
    if !(s.queue == [] || s.flushing) {
      assert s.delivered + [] + s.queue == s.delivered + s.queue + [];
    }
  }

  lemma TrackKeepsInv(s: State, c: Config, r: LogRecord)
    requires Inv(s, c)
    ensures Inv(Track(s, c, r), c)
  {
    hide InOrder, From;
    var sent := s.delivered + InFlight(s);
    var e := Entry(|s.tracked|, r);
    var pushed := s.queue + [e];
    AddNewest(sent + s.queue, s.tracked, r);
    assert sent + s.queue + [e] == sent + pushed;
    DropOldest(sent, pushed, 1, s.tracked + [r]);
    var over := |pushed| > c.maxQueueSize;
    var t := s.(queue := if over then pushed[1..] else pushed, dropped := s.dropped + if over then 1 else 0,
                tracked := s.tracked + [r]);
    assert Inv(t, c);
    FlushKeepsInv(t, c);
  }

  lemma AnswerKeepsInv(s: State, c: Config, a: Answer)
    requires Inv(s, c) && s.batch.Some?
    ensures Inv(Answered(s, c, a), c)
  {
    hide InOrder, From;
    var b := s.batch.value;
    var merged := b + s.queue;
    assert s.delivered + b + s.queue == s.delivered + merged;
    DropOldest(s.delivered, merged, Max(|merged| - c.maxQueueSize, 0), s.tracked);
    LeaveOut(s.delivered, b, s.queue, s.tracked);
    assert s.delivered + b + [] == s.delivered + b;
    assert s.delivered + [] == s.delivered;
  }

  lemma StepKeepsInv(s: State, c: Config, e: Event)
    requires Inv(s, c) && Enabled(s, e)
    ensures Inv(Step(s, c, e), c)
  {
    match e
    case Tracked(r) => TrackKeepsInv(s, c, r);
    case FlushCalled => FlushKeepsInv(s, c);
    case AnswerCame(a) => AnswerKeepsInv(s, c, a);
    case Finally => hide InOrder, From;
  }

  lemma {:induction false} RunKeepsInv(s: State, c: Config, events: seq<Event>)
    requires Inv(s, c) && Legal(s, c, events)
    ensures Inv(Exec(s, c, events), c)
    decreases |events|
  {
    hide Inv, Step, Enabled;
    if events != [] {
      AtStart(s, c, events);
      StepKeepsInv(s, c, events[0]);
      RunKeepsInv(Step(s, c, events[0]), c, events[1..]);
    }
  }

  lemma AtStart(s: State, c: Config, events: seq<Event>)
    requires Legal(s, c, events) && events != []
    ensures Enabled(s, events[0])
  {
  }

  /** Over any run: tracked = delivered + dropped + in flight + queued, the queue stays
      within its cap, and what was delivered is a duplicate-free subsequence of what
      was tracked, in order. */
  lemma NothingUnaccounted(c: Config, events: seq<Event>)
    requires Legal(Start(), c, events)
    ensures var s := Exec(Start(), c, events);
            && |s.tracked| == |s.delivered| + s.dropped + |InFlight(s)| + |s.queue|
            && |s.queue| <= c.maxQueueSize
            && InOrder(s.delivered) && From(s.delivered, s.tracked)
  {
    assert Inv(Start(), c);
    RunKeepsInv(Start(), c, events);
    var s := Exec(Start(), c, events);
    TakeFront(s.delivered + InFlight(s), s.queue, s.tracked);
    TakeFront(s.delivered, InFlight(s), s.tracked);
  }

  /** What each answer does to a batch that still fits with what was queued since: a
      status from 200 to 299 delivers it; 429, 500 and above, and no answer at all put it
      back in front; and any other status drops and counts it. */
  lemma OutcomeOfAnswer(s: State, c: Config, a: Answer)
    requires s.batch.Some? && |s.batch.value| + |s.queue| <= c.maxQueueSize
    ensures var t, batch := Answered(s, c, a), s.batch.value;
            match a
            case Status(code) =>
              if code == 429 || code >= 500 then t == s.(batch := None, queue := batch + s.queue)
              else if 200 <= code <= 299 then t == s.(batch := None, delivered := s.delivered + batch)
              else t == s.(batch := None, dropped := s.dropped + |batch|)
            case Unreachable => t == s.(batch := None, queue := batch + s.queue)
  {
    var merged := s.batch.value + s.queue;
    assert merged[0..] == merged;
  }

  /** Put back over the cap, it is the oldest records that go. */
  lemma OverflowDropsTheOldest(s: State, c: Config, batch: seq<Entry>)
    requires |batch| + |s.queue| > c.maxQueueSize
    ensures var t, over := Requeue(s, c, batch), |batch| + |s.queue| - c.maxQueueSize;
            && |t.queue| == c.maxQueueSize && (batch + s.queue)[..over] + t.queue == batch + s.queue
            && t == s.(queue := t.queue, dropped := s.dropped + over)
  {
  }

  /** With no request out, tracking the record that fills a batch sends the whole queue. */
  lemma FullBatchGoesOut(s: State, c: Config, r: LogRecord)
    requires !s.flushing && s.batch.None? && c.batchSize > 0
    requires |s.queue| + 1 <= c.maxQueueSize
    ensures var t, queue := Track(s, c, r), s.queue + [Entry(|s.tracked|, r)];
            && t.tracked == s.tracked + [r] && t.dropped == s.dropped && t.delivered == s.delivered
            && if |queue| >= c.batchSize then t.batch == Some(queue) && t.queue == [] && t.flushing
               else t.batch == None && t.queue == queue && !t.flushing
  {
  }

  /** Tracking and flushing may happen at any moment, an answer while a request is out,
      and its `finally` once it is answered. */
  lemma WhatMayHappen(s: State, r: LogRecord, a: Answer)
    ensures Enabled(s, Tracked(r)) && Enabled(s, FlushCalled)
    ensures Enabled(s, AnswerCame(a)) <==> s.batch.Some?
    ensures Enabled(s, Finally) <==> s.flushing && s.batch.None?
  {
  }

  /** Once a request is answered and done with, the next flush sends what is queued. */
  lemma NextBatchGoesOut(s: State, c: Config, a: Answer)
    requires s.flushing && s.batch.Some?
    ensures var t := Step(s, c, AnswerCame(a));
            && Enabled(t, Finally) && Step(t, c, Finally) == t.(flushing := false)
            && var u := Step(Step(t, c, Finally), c, FlushCalled);
               if t.queue == [] then u == t.(flushing := false)
               else u == t.(queue := [], flushing := true, batch := Some(t.queue))
  {
  }

  /** The queue is the newest records tracked, and with the batch that is out it has no
      gap, unless it is full. */
  ghost predicate KeepsNewest(s: State, c: Config) {
    && Newest(s.queue, s.tracked)
    && (s.batch.Some? ==>
          s.flushing && (Newest(s.batch.value + s.queue, s.tracked) || |s.queue| == c.maxQueueSize))
  }

  lemma FlushKeepsNewest(s: State, c: Config)
    requires KeepsNewest(s, c)
    ensures KeepsNewest(FlushInternal(s), c)
  {
    assert s.queue + [] == s.queue;
  }

  lemma TrackKeepsNewest(s: State, c: Config, r: LogRecord)
    requires KeepsNewest(s, c) && |s.queue| <= c.maxQueueSize
    ensures KeepsNewest(Track(s, c, r), c)
  {
    var e := Entry(|s.tracked|, r);
    var pushed := s.queue + [e];
    NewestGrows(s.queue, s.tracked, r);
    NewestWithoutOldest(pushed, s.tracked + [r], 1);
    if s.batch.Some? && Newest(s.batch.value + s.queue, s.tracked) {
      NewestGrows(s.batch.value + s.queue, s.tracked, r);
      assert s.batch.value + s.queue + [e] == s.batch.value + pushed;
    }
    hide Newest;
    var over := |pushed| > c.maxQueueSize;
    var t := s.(queue := if over then pushed[1..] else pushed, dropped := s.dropped + if over then 1 else 0,
                tracked := s.tracked + [r]);
    FlushKeepsNewest(t, c);
  }

  lemma AnswerKeepsNewest(s: State, c: Config, a: Answer)
    requires KeepsNewest(s, c) && s.batch.Some? && |s.queue| <= c.maxQueueSize
    ensures KeepsNewest(Answered(s, c, a), c)
  {
    var merged := s.batch.value + s.queue;
    var excess := Max(|merged| - c.maxQueueSize, 0);
    if Newest(merged, s.tracked) {
      NewestWithoutOldest(merged, s.tracked, excess);
    } else {
      assert merged[excess..] == s.queue;
    }
    hide Newest;
  }

  lemma {:induction false} RunKeepsNewest(s: State, c: Config, events: seq<Event>)
    requires Inv(s, c) && KeepsNewest(s, c) && Legal(s, c, events)
    ensures KeepsNewest(Exec(s, c, events), c)
    decreases |events|
  {
    if events != [] {
      AtStart(s, c, events);
      StepKeepsInv(s, c, events[0]);
      StepKeepsNewest(s, c, events[0]);
      hide Inv, KeepsNewest, Step, Enabled;
      RunKeepsNewest(Step(s, c, events[0]), c, events[1..]);
    }
  }

  lemma StepKeepsNewest(s: State, c: Config, e: Event)
    requires Inv(s, c) && KeepsNewest(s, c) && Enabled(s, e)
    ensures KeepsNewest(Step(s, c, e), c)
  {
    assert |s.queue| <= c.maxQueueSize;
    hide Newest, InOrder, From, Track, Answered, FlushInternal, Inv;
    match e
    case Tracked(r) => TrackKeepsNewest(s, c, r);
    case FlushCalled => FlushKeepsNewest(s, c);
    case AnswerCame(a) => AnswerKeepsNewest(s, c, a);
    case Finally =>
  }

  /** At every moment of every run the queue is the newest records tracked, without a gap. */
  lemma QueueIsNewest(c: Config, events: seq<Event>)
    requires Legal(Start(), c, events)
    ensures Newest(Exec(Start(), c, events).queue, Exec(Start(), c, events).tracked)
  {
    assert Inv(Start(), c) && KeepsNewest(Start(), c);
    RunKeepsNewest(Start(), c, events);
  }

  // ------------------------------------------------------------- the client

  class GreplogClient {
    const config: Config
    var queue: seq<Entry>
    var flushing: bool
    var batch: Option<seq<Entry>>
    var dropped: nat
    ghost var tracked: seq<LogRecord>
    ghost var delivered: seq<Entry>
    var calls: nat

    constructor (config: Config)
      ensures this.config == config && AsState() == Start() && calls == 0
    {
      this.config := config;
      queue, flushing, batch, dropped, calls := [], false, None, 0, 0;
      tracked, delivered := [], [];
    }

    ghost function AsState(): State
      reads this
    {
      State(queue, flushing, batch, dropped, tracked, delivered)
    }

    method TrackRecord(record: LogRecord)
      requires calls == |tracked|
      modifies this
      ensures AsState() == Track(old(AsState()), config, record) && calls == |tracked|
    {
      queue := queue + [Entry(calls, record)];
      tracked, calls := tracked + [record], calls + 1;
      if |queue| > config.maxQueueSize {
        queue := queue[1..];
        dropped := dropped + 1;
      }
      if |queue| >= config.batchSize {
        Flush();
      }
    }

    /** `flushInternal`: the request is out when this returns. */
    method Flush()
      modifies this`queue, this`flushing, this`batch
      ensures AsState() == FlushInternal(old(AsState()))
    {
      if |queue| == 0 || flushing {
        return;
      }
      batch := Some(queue);
      queue := [];
      flushing := true;
    }

    method OnAnswer(answer: Answer)
      requires batch.Some?
      modifies this
      ensures AsState() == Answered(old(AsState()), config, answer) && calls == old(calls)
    {
      var sent := batch.value;
      batch := None;
      if answer.Status? && IsOk(answer.code) {
        delivered := delivered + sent;
        return;
      }
      if answer.Unreachable? || IsRetryable(answer.code) {
        RequeueBatch(sent);
        return;
      }
      dropped := dropped + |sent|;
    }

    method RequeueBatch(sent: seq<Entry>)
      modifies this`queue, this`dropped
      ensures AsState() == Requeue(old(AsState()), config, sent)
    {
      var merged := sent + queue;
      if |merged| > config.maxQueueSize {
        dropped := dropped + (|merged| - config.maxQueueSize);
        merged := merged[|merged| - config.maxQueueSize..];
      }
      queue := merged;
    }
  }
}
