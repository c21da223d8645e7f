/** The Go client's worker: `workerLoop`, `capPending` and `flush`, under any server answers. */
module GoClient {
  import opened Seqs
  import opened Records
  import opened Numbered

  /** Both are positive once `NewClient` has filled in the defaults. */
  datatype Config = Config(batchSize: nat, maxQueueSize: nat)

  predicate ValidConfig(c: Config) {
    c.batchSize > 0 && c.maxQueueSize > 0
  }

  /** How one POST ends: not even sent, no response, or a status. */
  datatype Answer = Unsendable | Unreachable | Status(code: nat)

  predicate IsRetryable(code: nat) {
    code == 429 || code >= 500
  }

  predicate IsOk(code: nat) {
    200 <= code < 300
  }

  /** The worker's variables, with what it took from the channel, what the server
      accepted, and how often it tried to send. */
  datatype State = State(pending: seq<Entry>, retrying: bool, dropped: nat,
                         taken: seq<LogRecord>, delivered: seq<Entry>, sends: nat)

  /** What `flush` reports: whether the batch can be forgotten. */
  function Forget(a: Answer): bool {
    a.Unsendable? || (a.Status? && (IsOk(a.code) || !IsRetryable(a.code)))
  }

  function CapPending(s: State, c: Config): State {
    var overflow := Max(|s.pending| - c.maxQueueSize, 0);
    s.(pending := s.pending[overflow..], dropped := s.dropped + overflow)
  }

  function Attempt(s: State, c: Config, a: Answer): State {
    if s.pending == [] then s
    else
      var sent := s.(sends := s.sends + 1);
      if !Forget(a) then CapPending(sent.(retrying := true), c)
      else if a.Status? && IsOk(a.code)
      then sent.(pending := [], retrying := false, delivered := s.delivered + s.pending)
      else sent.(pending := [], retrying := false, dropped := s.dropped + |s.pending|)
  }

  /** What the worker's `select` takes, with the answer a send made now would get.
      Draining after `done` is a run of `Received` ended by `Closed`. */
  datatype Event = Received(record: LogRecord) | Tick | Closed

  function Step(s: State, c: Config, e: Event, a: Answer): State {
    match e
    case Received(r) =>
      var t := s.(pending := s.pending + [Entry(|s.taken|, r)], taken := s.taken + [r]);
      if !t.retrying && |t.pending| >= c.batchSize then Attempt(t, c, a) else t
    case Tick => Attempt(s, c, a)
    case Closed => Attempt(s, c, a)
  }

  type Script = seq<(Event, Answer)>

  /** The worker stops at `Closed`. */
  function Exec(s: State, c: Config, script: Script): State
    decreases |script|
  {
    if script == [] then s
    else if script[0].0.Closed? then Step(s, c, Closed, script[0].1)
    else Exec(Step(s, c, script[0].0, script[0].1), c, script[1..])
  }

  function Start(): State {
    State([], false, 0, [], [], 0)
  }

  /** Nothing is lost without being counted, order is kept, and an unsent batch never
      reaches the batch size unless the worker is retrying. */
  ghost predicate Inv(s: State, c: Config) {
    && |s.taken| == |s.delivered| + s.dropped + |s.pending|
    && InOrder(s.delivered + s.pending) && From(s.delivered + s.pending, s.taken)
    && (!s.retrying ==> |s.pending| < c.batchSize)
  }

  lemma AttemptKeeps(s: State, c: Config, a: Answer)
    requires ValidConfig(c)
    requires |s.taken| == |s.delivered| + s.dropped + |s.pending|
    requires InOrder(s.delivered + s.pending) && From(s.delivered + s.pending, s.taken)
    ensures Inv(Attempt(s, c, a), c)
    ensures s.pending != [] ==> |Attempt(s, c, a).pending| <= c.maxQueueSize
    ensures s.pending != [] ==> Attempt(s, c, a).sends == s.sends + 1
  {
    hide InOrder, From;
    if s.pending != [] {
      DropOldest(s.delivered, s.pending, Max(|s.pending| - c.maxQueueSize, 0), s.taken);
      TakeFront(s.delivered, s.pending, s.taken);
      assert s.delivered + s.pending + [] == s.delivered + s.pending;
      assert s.delivered + [] == s.delivered;
    }
  }

  lemma StepKeepsInv(s: State, c: Config, e: Event, a: Answer)
    requires ValidConfig(c) && Inv(s, c)
    ensures Inv(Step(s, c, e, a), c)
  {
    hide InOrder, From;
    match e
    case Received(r) =>
      var t := s.(pending := s.pending + [Entry(|s.taken|, r)], taken := s.taken + [r]);
      AddNewest(s.delivered + s.pending, s.taken, r);
      assert s.delivered + s.pending + [Entry(|s.taken|, r)] == t.delivered + t.pending;
      AttemptKeeps(t, c, a);
    case Tick => AttemptKeeps(s, c, a);
    case Closed => AttemptKeeps(s, c, a);
  }

  /** After any attempt that had something to send, the backlog is within its cap;
      while retrying, a received record never triggers a send. */
  lemma StepBounds(s: State, c: Config, e: Event, a: Answer)
    requires ValidConfig(c) && Inv(s, c)
    ensures Step(s, c, e, a).sends > s.sends ==> |Step(s, c, e, a).pending| <= c.maxQueueSize
    ensures s.retrying && e.Received? ==>
              Step(s, c, e, a).sends == s.sends && |Step(s, c, e, a).pending| == |s.pending| + 1
    ensures Step(s, c, e, a).sends > s.sends && s.retrying ==> e.Tick? || e.Closed?
    ensures e.Received? ==> (Step(s, c, e, a).sends > s.sends <==> !s.retrying && |s.pending| + 1 >= c.batchSize)
    ensures !e.Received? && s.pending != [] ==> Step(s, c, e, a).sends == s.sends + 1
  {
    hide InOrder, From;
  }

  lemma {:induction false} RunKeepsInv(s: State, c: Config, script: Script)
    requires ValidConfig(c) && Inv(s, c)
    ensures Inv(Exec(s, c, script), c)
    decreases |script|
  {
    hide Inv, Step;
    if script != [] {
      StepKeepsInv(s, c, script[0].0, script[0].1);
      if !script[0].0.Closed? {
        RunKeepsInv(Step(s, c, script[0].0, script[0].1), c, script[1..]);
      }
    }
  }

  /** Over any run: taken = delivered + dropped + pending, and what the server accepted
      is a duplicate-free subsequence of what was taken, in order. */
  lemma NothingUnaccounted(c: Config, script: Script)
    requires ValidConfig(c)
    ensures var s := Exec(Start(), c, script);
            && |s.taken| == |s.delivered| + s.dropped + |s.pending|
            && InOrder(s.delivered) && From(s.delivered, s.taken)
            && (!s.retrying ==> |s.pending| < c.batchSize)
  {
    RunKeepsInv(Start(), c, script);
    var s := Exec(Start(), c, script);
    TakeFront(s.delivered, s.pending, s.taken);
  }

  /** What each outcome of a request does to a backlog within its cap: a status from 200
      to 299 delivers it; 429, 500 and above, and no response at all keep it; and any
      other status, or a batch that cannot be sent, drops and counts it. */
  lemma OutcomeOfAttempt(s: State, c: Config, a: Answer)
    requires s.pending != [] && |s.pending| <= c.maxQueueSize
    ensures var t := Attempt(s, c, a);
            && t.taken == s.taken
            && match a
               case Status(code) =>
                 if code == 429 || code >= 500 then t == s.(sends := s.sends + 1, retrying := true)
                 else if 200 <= code <= 299
                 then t == s.(sends := s.sends + 1, retrying := false, pending := [],
                              delivered := s.delivered + s.pending)
                 else t == s.(sends := s.sends + 1, retrying := false, pending := [],
                              dropped := s.dropped + |s.pending|)
               case Unreachable => t == s.(sends := s.sends + 1, retrying := true)
               case Unsendable =>
                 t == s.(sends := s.sends + 1, retrying := false, pending := [], dropped := s.dropped + |s.pending|)
  {
    assert s.pending[0..] == s.pending;
  }

  /** A backlog over its cap keeps the newest records, as many as the cap allows. */
  lemma OverflowDropsTheOldest(s: State, c: Config)
    requires |s.pending| > c.maxQueueSize
    ensures var t := CapPending(s, c); var over := |s.pending| - c.maxQueueSize;
            && |t.pending| == c.maxQueueSize && s.pending[..over] + t.pending == s.pending
            && t == s.(pending := t.pending, dropped := s.dropped + over)
  {
  }

  lemma AttemptKeepsNewest(s: State, c: Config, a: Answer)
    requires Newest(s.pending, s.taken)
    ensures Newest(Attempt(s, c, a).pending, Attempt(s, c, a).taken)
  {
    NewestWithoutOldest(s.pending, s.taken, Max(|s.pending| - c.maxQueueSize, 0));
    hide Forget, IsOk;
    assert Newest([], s.taken);
  }

  lemma {:induction false} RunKeepsNewest(s: State, c: Config, script: Script)
    requires Newest(s.pending, s.taken)
    ensures Newest(Exec(s, c, script).pending, Exec(s, c, script).taken)
    decreases |script|
  {
    if script != [] {
      StepKeepsNewest(s, c, script[0].0, script[0].1);
      hide Newest, Step;
      if !script[0].0.Closed? {
        RunKeepsNewest(Step(s, c, script[0].0, script[0].1), c, script[1..]);
      }
    }
  }

  lemma StepKeepsNewest(s: State, c: Config, e: Event, a: Answer)
    requires Newest(s.pending, s.taken)
    ensures Newest(Step(s, c, e, a).pending, Step(s, c, e, a).taken)
  {
    hide Newest, Attempt;
    match e
    case Received(r) =>
      NewestGrows(s.pending, s.taken, r);
      AttemptKeepsNewest(s.(pending := s.pending + [Entry(|s.taken|, r)], taken := s.taken + [r]), c, a);
    case Tick => AttemptKeepsNewest(s, c, a);
    case Closed => AttemptKeepsNewest(s, c, a);
  }

  /** At every moment of every run the backlog is the newest records taken, without a
      gap: what was dropped was older than everything kept. */
  lemma BacklogIsNewest(c: Config, script: Script)
    ensures Newest(Exec(Start(), c, script).pending, Exec(Start(), c, script).taken)
  {
    RunKeepsNewest(Start(), c, script);
  }

  /** The records received since the last attempt to send. */
  function SinceLastSend(s: State, c: Config, script: Script, since: nat): nat
    decreases |script|
  {
    if script == [] then since
    else
      var t := Step(s, c, script[0].0, script[0].1);
      var n := if t.sends > s.sends then 0 else if script[0].0.Received? then since + 1 else since;
      if script[0].0.Closed? then n else SinceLastSend(t, c, script[1..], n)
  }

  /** The backlog outgrows its cap only by what arrived since the last attempt. */
  lemma {:induction false} BacklogIsBounded(s: State, c: Config, script: Script, since: nat)
    requires ValidConfig(c) && Inv(s, c) && |s.pending| <= c.maxQueueSize + since
    ensures |Exec(s, c, script).pending| <= c.maxQueueSize + SinceLastSend(s, c, script, since)
    decreases |script|
  {
    if script != [] {
      var e, a := script[0].0, script[0].1;
      var t := Step(s, c, e, a);
      StepKeepsInv(s, c, e, a);
      StepBounds(s, c, e, a);
      StepGrows(s, c, e, a);
      hide Inv, Step;
      if !e.Closed? {
        BacklogIsBounded(t, c, script[1..], if t.sends > s.sends then 0 else if e.Received? then since + 1 else since);
      }
    }
  }

  lemma StepGrows(s: State, c: Config, e: Event, a: Answer)
    ensures Step(s, c, e, a).sends == s.sends
            ==> |Step(s, c, e, a).pending| == |s.pending| + if e.Received? then 1 else 0
    ensures Step(s, c, e, a).sends >= s.sends
  {
  }

  // -------------------------------------------------------------- the worker

  class Client {
    const config: Config
    var dropped: nat
    ghost var delivered: seq<Entry>
    ghost var sends: nat

    constructor (config: Config)
      ensures this.config == config && dropped == 0 && delivered == [] && sends == 0
    {
      this.config := config;
      dropped := 0;
      delivered, sends := [], 0;
    }

    ghost function With(pending: seq<Entry>, retrying: bool, taken: seq<LogRecord>): State
      reads this
    {
      State(pending, retrying, dropped, taken, delivered, sends)
    }

    /** `flush`: true if the batch was accepted, or never will be. */
    method Flush(batch: seq<Entry>, answer: Answer) returns (forget: bool)
      modifies this
      ensures forget == Forget(answer) && sends == old(sends) + 1
      ensures var ok := answer.Status? && IsOk(answer.code);
              && delivered == old(delivered) + (if ok then batch else [])
              && dropped == old(dropped) + (if forget && !ok then |batch| else 0)
    {
      sends := sends + 1;
      match answer
      case Unsendable =>
        dropped := dropped + |batch|;
        return true;
      case Unreachable => return false;
      case Status(code) =>
        if IsOk(code) {
          delivered := delivered + batch;
          return true;
        } else if IsRetryable(code) {
          return false;
        }
        dropped := dropped + |batch|;
        return true;
    }

    method Cap(pending: seq<Entry>) returns (kept: seq<Entry>)
      modifies this`dropped
      ensures forall retrying, taken ::
                With(kept, retrying, taken) == CapPending(old(With(pending, retrying, taken)), config)
    {
      if |pending| <= config.maxQueueSize {
        return pending;
      }
      var overflow := |pending| - config.maxQueueSize;
      dropped := dropped + overflow;
      kept := pending[overflow..];
    }

    /** The closure `attempt`. */
    method TrySend(pending: seq<Entry>, retrying: bool, answer: Answer, ghost taken: seq<LogRecord>)
      returns (left: seq<Entry>, again: bool)
      modifies this
      ensures With(left, again, taken) == Attempt(old(With(pending, retrying, taken)), config, answer)
    {
      if |pending| == 0 {
        return pending, retrying;
      }
      var forget := Flush(pending, answer);
      if forget {
        left, again := [], false;
      } else {
        left, again := pending, true;
      }
      left := Cap(left);
    }

    /** `workerLoop` over what the channel, the ticker and `done` bring. */
    method WorkerLoop(script: Script) returns (pending: seq<Entry>, retrying: bool, ghost taken: seq<LogRecord>)
      requires dropped == 0 && delivered == [] && sends == 0
      modifies this
      ensures With(pending, retrying, taken) == Exec(Start(), config, script)
    {
      pending, retrying, taken := [], false, [];
      var count := 0;
      var i := 0;
      while i < |script|
        invariant i <= |script| && count == |taken|
        invariant Exec(With(pending, retrying, taken), config, script[i..]) == Exec(Start(), config, script)
      {
        var (event, answer) := script[i];
        match event {
          case Received(record) =>
            pending := pending + [Entry(count, record)];
            taken, count := taken + [record], count + 1;
            if !retrying && |pending| >= config.batchSize {
              pending, retrying := TrySend(pending, retrying, answer, taken);
            }
          case Tick =>
            pending, retrying := TrySend(pending, retrying, answer, taken);
          case Closed =>
            pending, retrying := TrySend(pending, retrying, answer, taken);
            return;
        }
        i := i + 1;
      }
    }
  }
}
