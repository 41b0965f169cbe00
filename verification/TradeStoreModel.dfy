/** The trade store: one database connection whose equity samples are committed in batches. */
module TradeStoreModel {
  import opened Types

  /** A row of the write log; trades, equity samples and everything else that commits at once. */
  datatype Write = TradeRow(id: int) | EquityRow(time: int, equity: real) | OtherRow(id: int)

  /** The connection and the store's counter: rows committed, rows of the open transaction. */
  datatype Store = Store(committed: seq<Write>, open: seq<Write>, pending: nat)

  function BatchSize(equityCommitEvery: int): (n: nat)
    ensures n >= 1 && (equityCommitEvery >= 1 ==> n == equityCommitEvery)
  {
    if equityCommitEvery > 1 then equityCommitEvery else 1
  }

  function Inserted(s: Store, w: Write): Store { s.(open := s.open + [w]) }

  function Committed(s: Store): Store { s.(committed := s.committed + s.open, open := []) }

  /** What the coroutine does to the counter once its insert has returned, and whether it goes on to commit. */
  function Counted(n: nat, s: Store, w: Write): (Store, bool) {
    match w
    case TradeRow(_) => (s.(pending := 0), true)
    case EquityRow(_, _) =>
      if s.pending + 1 >= n then (s.(pending := 0), true) else (s.(pending := s.pending + 1), false)
    case OtherRow(_) => (s, true)
  }

  /** One uninterrupted call. */
  function Recorded(n: nat, s: Store, w: Write): Store {
    var (counted, commits) := Counted(n, Inserted(s, w), w);
    if commits then Committed(counted) else counted
  }

  class TradeStore {
    const equityCommitEvery: nat
    var connected: bool
    var committed: seq<Write>
    var open: seq<Write>
    var pendingEquity: nat

    constructor (every: int)
      ensures Snapshot() == Store([], [], 0) && connected && equityCommitEvery == BatchSize(every)
    {
      equityCommitEvery := BatchSize(every);
      connected, committed, open, pendingEquity := true, [], [], 0;
    }

    ghost function Snapshot(): Store
      reads this
    {
      Store(committed, open, pendingEquity)
    }

    /** `raised` is the RuntimeError of a store that is not connected. */
    method RecordTrade(id: int) returns (raised: bool)
      modifies this`committed, this`open, this`pendingEquity
      ensures raised == !connected
      ensures Snapshot() == if raised then old(Snapshot()) else Recorded(equityCommitEvery, old(Snapshot()),
                                                                         TradeRow(id))
    {
      if !connected {
        return true;
      }
      open := open + [TradeRow(id)];
      pendingEquity := 0;
      committed, open := committed + open, [];
      return false;
    }

    method RecordEquity(time: int, equity: real) returns (raised: bool)
      modifies this`committed, this`open, this`pendingEquity
      ensures raised == !connected
      ensures Snapshot()
              == if raised then old(Snapshot()) else Recorded(equityCommitEvery, old(Snapshot()),
                                                              EquityRow(time, equity))
    {
      if !connected {
        return true;
      }
      open := open + [EquityRow(time, equity)];
      pendingEquity := pendingEquity + 1;
      if pendingEquity >= equityCommitEvery {
        pendingEquity := 0;
        committed, open := committed + open, [];
      }
      return false;
    }

    method Flush()
      modifies this`committed, this`open, this`pendingEquity
      ensures Snapshot() == if connected then Committed(old(Snapshot()).(pending := 0)) else old(Snapshot())
    {
      if connected {
        pendingEquity := 0;
        committed, open := committed + open, [];
      }
    }

    method Close()
      modifies this`committed, this`open, this`connected
      ensures !connected && Snapshot() == if old(connected) then Committed(old(Snapshot())) else old(Snapshot())
    {
      if connected {
        committed, open := committed + open, [];
        connected := false;
      }
    }
  }

  // ---------------------------------------------------------------- calls split at their awaits

  /** Where a call stands; `row` is the position of its row in the write log. */
  datatype Call =
    | Queued(w: Write)                        // insert not executed yet
    | Written(w: Write, row: nat)             // insert executed, coroutine not resumed
    | Saving(saves: Option<nat>, covers: nat)   // counter reset from `covers`, commit not executed
    | Closing                                 // close() waiting for its commit
    | Saved(saves: Option<nat>)                 // commit executed, coroutine not resumed
    | Over                                    // returned or failed

  datatype Machine = Machine(
    store: Store, connected: bool, calls: seq<Call>,
    log: seq<Write>,        // history: rows in the order they were inserted
    returned: seq<nat>)     // history: rows whose call has returned

  datatype Event =
    | Record(w: Write) | Flushing | CloseCalled
    | InsertRuns(k: nat) | InsertFails(k: nat) | Resumes(k: nat) | CommitRuns(k: nat) | Returns(k: nat)

  function Fresh(): Machine { Machine(Store([], [], 0), true, [], [], []) }

  function Resumed(n: nat, m: Machine, k: nat): Machine
    requires k < |m.calls| && m.calls[k].Written?
  {
    var c := m.calls[k];
    var (s, commits) := Counted(n, m.store, c.w);
    var covers := if c.w.TradeRow? then m.store.pending else if c.w.EquityRow? then m.store.pending + 1 else 0;
    if commits then m.(store := s, calls := m.calls[k := Saving(Some(c.row), covers)])
    else m.(store := s, calls := m.calls[k := Over], returned := m.returned + [c.row])
  }

  /** One step; an event that is not enabled changes nothing. A crash may fall between any two steps. */
  function Step(n: nat, m: Machine, ev: Event): Machine {
    match ev
    case Record(w) => if m.connected then m.(calls := m.calls + [Queued(w)]) else m
    case Flushing =>
      if m.connected then m.(store := m.store.(pending := 0), calls := m.calls + [Saving(None, m.store.pending)]) else m
    case CloseCalled => if m.connected then m.(calls := m.calls + [Closing]) else m
    case InsertRuns(k) =>
      if k < |m.calls| && m.calls[k].Queued? && m.connected then
        var w := m.calls[k].w;
        m.(store := Inserted(m.store, w), calls := m.calls[k := Written(w, |m.log|)], log := m.log + [w])
      else m
    case InsertFails(k) => if k < |m.calls| && m.calls[k].Queued? then m.(calls := m.calls[k := Over]) else m
    case Resumes(k) => if k < |m.calls| && m.calls[k].Written? then Resumed(n, m, k) else m
    case CommitRuns(k) =>
      if k < |m.calls| && m.calls[k].Saving? && m.connected then
        m.(store := Committed(m.store), calls := m.calls[k := Saved(m.calls[k].saves)])
      else if k < |m.calls| && m.calls[k].Closing? && m.connected then
        m.(store := Committed(m.store), connected := false, calls := m.calls[k := Over])
      else m
    case Returns(k) =>
      if k < |m.calls| && m.calls[k].Saved? then
        m.(calls := m.calls[k := Over],
           returned := if m.calls[k].saves.Some? then m.returned + [m.calls[k].saves.value] else m.returned)
      else m
  }

  function Run(n: nat, es: seq<Event>): Machine {
    if es == [] then Fresh() else Step(n, Run(n, es[..|es| - 1]), es[|es| - 1])
  }

  // ---------------------------------------------------------------- what a crash can lose

  function Samples(rows: seq<Write>): nat {
    if rows == [] then 0 else Samples(rows[..|rows| - 1]) + (if rows[|rows| - 1].EquityRow? then 1 else 0)
  }

  /** Samples a call accounts for besides the counter: its own uncounted one, or those of its pending commit. */
  function Carries(c: Call): nat {
    match c
    case Written(w, _) => if w.EquityRow? then 1 else 0
    case Saving(_, covers) => covers
    case _ => 0
  }

  function Load(calls: seq<Call>): nat {
    if calls == [] then 0 else Load(calls[..|calls| - 1]) + Carries(calls[|calls| - 1])
  }

  lemma {:induction false} LoadUpdates(calls: seq<Call>, k: nat, c: Call)
    requires k < |calls|
    ensures Load(calls[k := c]) + Carries(calls[k]) == Load(calls) + Carries(c)
  {
    var n := |calls| - 1;
    if k < n {
      LoadUpdates(calls[..n], k, c);
      assert calls[k := c][..n] == calls[..n][k := c];
    } else {
      assert calls[k := c][..n] == calls[..n];
    }
  }

  lemma LoadGrows(calls: seq<Call>, c: Call)
    ensures Load(calls + [c]) == Load(calls) + Carries(c)
  {
    assert (calls + [c])[..|calls|] == calls;
  }

  lemma SamplesGrow(rows: seq<Write>, w: Write)
    ensures Samples(rows + [w]) == Samples(rows) + (if w.EquityRow? then 1 else 0)
  {
    assert (rows + [w])[..|rows|] == rows;
  }

  predicate CallOk(log: seq<Write>, durable: nat, c: Call) {
    match c
    case Written(w, row) => row < |log| && log[row] == w
    case Saving(saves, _) => saves.Some? ==> saves.value < |log|
    case Saved(saves) => saves.Some? ==> saves.value < durable
    case _ => true
  }

  predicate CallsOk(log: seq<Write>, durable: nat, calls: seq<Call>) {
    forall k :: 0 <= k < |calls| ==> CallOk(log, durable, calls[k])
  }

  /** A returned row is in the log, and durable unless it is an equity sample. */
  predicate ReturnedOk(log: seq<Write>, durable: nat, returned: seq<nat>) {
    forall j :: 0 <= j < |returned| ==>
      returned[j] < |log| && (returned[j] < durable || log[returned[j]].EquityRow?)
  }

  predicate Sound(n: nat, m: Machine) {
    && m.log == m.store.committed + m.store.open
    && m.store.pending < n
    && Samples(m.store.open) <= m.store.pending + Load(m.calls)
    && CallsOk(m.log, |m.store.committed|, m.calls)
    && ReturnedOk(m.log, |m.store.committed|, m.returned)
  }

  lemma LogGrows(log: seq<Write>, durable: nat, calls: seq<Call>, returned: seq<nat>, log': seq<Write>, durable': nat)
    requires CallsOk(log, durable, calls) && ReturnedOk(log, durable, returned)
    requires log <= log' && durable <= durable'
    ensures CallsOk(log', durable', calls) && ReturnedOk(log', durable', returned)
  {
    forall k | 0 <= k < |calls| ensures CallOk(log', durable', calls[k]) { assert CallOk(log, durable, calls[k]); }
  }

  lemma CallChanges(log: seq<Write>, durable: nat, calls: seq<Call>, k: nat, c: Call)
    requires CallsOk(log, durable, calls) && k < |calls| && CallOk(log, durable, c)
    ensures CallsOk(log, durable, calls[k := c])
  {}

  lemma CallStarts(log: seq<Write>, durable: nat, calls: seq<Call>, c: Call)
    requires CallsOk(log, durable, calls) && CallOk(log, durable, c)
    ensures CallsOk(log, durable, calls + [c])
  {}

  lemma Returning(log: seq<Write>, durable: nat, returned: seq<nat>, row: nat)
    requires ReturnedOk(log, durable, returned) && row < |log| && (row < durable || log[row].EquityRow?)
    ensures ReturnedOk(log, durable, returned + [row])
  {}

  lemma StartSound(n: nat, m: Machine, ev: Event)
    requires Sound(n, m) && (ev.Record? || ev.Flushing? || ev.CloseCalled?)
    ensures Sound(n, Step(n, m, ev))
  {
    hide CallsOk, ReturnedOk, Samples, Load;
    var c := if ev.Record? then Queued(ev.w) else if ev.Flushing? then Saving(None, m.store.pending) else Closing;
    LoadGrows(m.calls, c);
    CallStarts(m.log, |m.store.committed|, m.calls, c);
  }

  lemma InsertSound(n: nat, m: Machine, k: nat)
    requires Sound(n, m) && k < |m.calls| && m.calls[k].Queued?
    ensures Sound(n, Step(n, m, InsertRuns(k))) && Sound(n, Step(n, m, InsertFails(k)))
  {
    hide CallsOk, ReturnedOk, Samples, Load;
    var w, log := m.calls[k].w, m.log + [m.calls[k].w];
    LoadUpdates(m.calls, k, Written(w, |m.log|));
    LoadUpdates(m.calls, k, Over);
    SamplesGrow(m.store.open, w);
    LogGrows(m.log, |m.store.committed|, m.calls, m.returned, log, |m.store.committed|);
    CallChanges(log, |m.store.committed|, m.calls, k, Written(w, |m.log|));
    CallChanges(m.log, |m.store.committed|, m.calls, k, Over);
  }

  lemma ResumeSound(n: nat, m: Machine, k: nat)
    requires Sound(n, m) && n >= 1 && k < |m.calls| && m.calls[k].Written?
    ensures Sound(n, Resumed(n, m, k))
    ensures Resumed(n, m, k).store.pending + Load(Resumed(n, m, k).calls) == m.store.pending + Load(m.calls)
  {
    hide ReturnedOk, Samples, Load;
    assert CallOk(m.log, |m.store.committed|, m.calls[k]);
    var next := Resumed(n, m, k);
    LoadUpdates(m.calls, k, next.calls[k]);
    CallChanges(m.log, |m.store.committed|, m.calls, k, next.calls[k]);
    if m.calls[k].w.EquityRow? { Returning(m.log, |m.store.committed|, m.returned, m.calls[k].row); }
  }

  lemma CommitSound(n: nat, m: Machine, k: nat)
    requires Sound(n, m) && k < |m.calls| && (m.calls[k].Saving? || m.calls[k].Closing?)
    ensures Sound(n, Step(n, m, CommitRuns(k)))
  {
    hide ReturnedOk, Load;
    assert CallOk(m.log, |m.store.committed|, m.calls[k]);
    LogGrows(m.log, |m.store.committed|, m.calls, m.returned, m.log, |m.log|);
    CallChanges(m.log, |m.log|, m.calls, k, if m.calls[k].Saving? then Saved(m.calls[k].saves) else Over);
  }

  lemma ReturnSound(n: nat, m: Machine, k: nat)
    requires Sound(n, m) && k < |m.calls| && m.calls[k].Saved?
    ensures Sound(n, Step(n, m, Returns(k)))
  {
    hide ReturnedOk, Samples, Load;
    assert CallOk(m.log, |m.store.committed|, m.calls[k]);
    LoadUpdates(m.calls, k, Over);
    CallChanges(m.log, |m.store.committed|, m.calls, k, Over);
    if m.calls[k].saves.Some? { Returning(m.log, |m.store.committed|, m.returned, m.calls[k].saves.value); }
  }

  lemma StepSound(n: nat, m: Machine, ev: Event)
    requires Sound(n, m) && n >= 1
    ensures Sound(n, Step(n, m, ev))
  {
    hide Sound;
    match ev {
      case InsertRuns(k) => if k < |m.calls| && m.calls[k].Queued? { InsertSound(n, m, k); }
      case InsertFails(k) => if k < |m.calls| && m.calls[k].Queued? { InsertSound(n, m, k); }
      case Resumes(k) => if k < |m.calls| && m.calls[k].Written? { ResumeSound(n, m, k); }
      case CommitRuns(k) =>
        if k < |m.calls| && (m.calls[k].Saving? || m.calls[k].Closing?) { CommitSound(n, m, k); }
      case Returns(k) => if k < |m.calls| && m.calls[k].Saved? { ReturnSound(n, m, k); }
      case _ => StartSound(n, m, ev);
    }
  }

  lemma {:induction false} RunSound(n: nat, es: seq<Event>)
    requires n >= 1
    ensures Sound(n, Run(n, es))
  {
    hide Step;
    if es != [] {
      RunSound(n, es[..|es| - 1]);
      StepSound(n, Run(n, es[..|es| - 1]), es[|es| - 1]);
    }
  }

  predicate InFlight(c: Call) { !c.Over? }

  /** The call's insert has been executed and its commit, if it makes one, has not. */
  predicate Exposed(c: Call) { c.Written? || c.Saving? }

  lemma {:induction false} NothingCarried(calls: seq<Call>)
    requires forall k :: 0 <= k < |calls| ==> !Exposed(calls[k])
    ensures Load(calls) == 0
  {
    if calls != [] { NothingCarried(calls[..|calls| - 1]); }
  }

  /** At any crash point of any interleaving the durable rows are a prefix of the write log, every
      trade whose call returned is among them, and the samples lost are at most those counted, plus
      those the calls in flight account for: fewer than a batch unless some call is between its
      insert and its commit. */
  lemma CrashDurability(n: nat, es: seq<Event>)
    requires n >= 1
    ensures var m := Run(n, es);
            && m.store.committed <= m.log
            && (forall j :: 0 <= j < |m.returned| ==>
                  m.returned[j] < |m.log| && (m.log[m.returned[j]].TradeRow? ==> m.returned[j] < |m.store.committed|))
            && Samples(m.log[|m.store.committed|..]) <= n - 1 + Load(m.calls)
            && ((forall k :: 0 <= k < |m.calls| ==> !Exposed(m.calls[k])) ==>
                  Samples(m.log[|m.store.committed|..]) < n)
  {
    hide Step;
    var m := Run(n, es);
    RunSound(n, es);
    assert m.log[|m.store.committed|..] == m.store.open;
    if forall k :: 0 <= k < |m.calls| ==> !Exposed(m.calls[k]) { NothingCarried(m.calls); }
  }

  // ---------------------------------------------------------------- one call at a time

  /** No call starts before every earlier one is over. */
  ghost predicate OneAtATime(n: nat, es: seq<Event>) {
    forall i :: 0 <= i < |es| && (es[i].Record? || es[i].Flushing? || es[i].CloseCalled?) ==>
      AllOver(Run(n, es[..i]).calls)
  }

  predicate Alone(calls: seq<Call>) {
    forall j, k :: 0 <= j < k < |calls| ==> !(InFlight(calls[j]) && InFlight(calls[k]))
  }

  predicate AllOver(calls: seq<Call>) {
    forall k :: 0 <= k < |calls| ==> !InFlight(calls[k])
  }

  lemma {:induction false} OnlyCarrier(calls: seq<Call>, k: nat)
    requires k < |calls| && forall j :: 0 <= j < |calls| && j != k ==> !Exposed(calls[j])
    ensures Load(calls) == Carries(calls[k])
  {
    var n := |calls| - 1;
    if k < n { OnlyCarrier(calls[..n], k); } else { NothingCarried(calls[..n]); }
  }

  lemma StillAlone(calls: seq<Call>, k: nat, c: Call)
    requires Alone(calls) && k < |calls| && InFlight(calls[k])
    ensures Alone(calls[k := c]) && Load(calls) == Carries(calls[k]) && Load(calls[k := c]) == Carries(c)
  {
    forall j | 0 <= j < |calls| && j != k ensures !Exposed(calls[j]) { assert InFlight(calls[k]); }
    OnlyCarrier(calls, k);
    OnlyCarrier(calls[k := c], k);
  }

  lemma FirstAlone(calls: seq<Call>, c: Call)
    requires AllOver(calls)
    ensures Alone(calls + [c]) && Load(calls) == 0 && Load(calls + [c]) == Carries(c)
  {
    forall k | 0 <= k < |calls| ensures !Exposed(calls[k]) { assert !InFlight(calls[k]); }
    NothingCarried(calls);
    LoadGrows(calls, c);
  }

  predicate Bounded(n: nat, m: Machine) { Alone(m.calls) && m.store.pending + Load(m.calls) <= n }

  lemma StartAlone(n: nat, m: Machine, ev: Event)
    requires Sound(n, m) && Bounded(n, m) && AllOver(m.calls) && (ev.Record? || ev.Flushing? || ev.CloseCalled?)
    ensures Bounded(n, Step(n, m, ev))
  {
    hide Alone, AllOver, Load, CallsOk, ReturnedOk;
    FirstAlone(m.calls, if ev.Record? then Queued(ev.w)
                        else if ev.Flushing? then Saving(None, m.store.pending) else Closing);
  }

  lemma GoOnAlone(n: nat, m: Machine, ev: Event, k: nat)
    requires n >= 1 && Sound(n, m) && Bounded(n, m) && k < |m.calls| && InFlight(m.calls[k])
    requires ev == InsertRuns(k) || ev == InsertFails(k) || ev == Resumes(k) || ev == CommitRuns(k) || ev == Returns(k)
    ensures Bounded(n, Step(n, m, ev))
  {
    hide Alone, Load, CallsOk, ReturnedOk;
    if ev == Resumes(k) && m.calls[k].Written? { ResumeSound(n, m, k); }
    StillAlone(m.calls, k, Step(n, m, ev).calls[k]);
  }

  lemma StepAlone(n: nat, m: Machine, ev: Event)
    requires n >= 1 && Sound(n, m) && Bounded(n, m)
    requires ev.Record? || ev.Flushing? || ev.CloseCalled? ==> AllOver(m.calls)
    ensures Bounded(n, Step(n, m, ev))
  {
    hide Bounded, Sound, AllOver;
    match ev {
      case InsertRuns(k) => if k < |m.calls| && InFlight(m.calls[k]) { GoOnAlone(n, m, ev, k); }
      case InsertFails(k) => if k < |m.calls| && InFlight(m.calls[k]) { GoOnAlone(n, m, ev, k); }
      case Resumes(k) => if k < |m.calls| && InFlight(m.calls[k]) { GoOnAlone(n, m, ev, k); }
      case CommitRuns(k) => if k < |m.calls| && InFlight(m.calls[k]) { GoOnAlone(n, m, ev, k); }
      case Returns(k) => if k < |m.calls| && InFlight(m.calls[k]) { GoOnAlone(n, m, ev, k); }
      case _ => StartAlone(n, m, ev);
    }
  }

  /** With one call at a time a crash loses at most one full batch, the call in flight included. */
  lemma {:induction false} SequentialLoss(n: nat, es: seq<Event>)
    requires n >= 1 && OneAtATime(n, es)
    ensures var m := Run(n, es);
            Bounded(n, m) && m.log == m.store.committed + m.store.open && Samples(m.store.open) <= n
  {
    hide Step, CallsOk, ReturnedOk;
    if es != [] {
      var p := es[..|es| - 1];
      assert forall i :: 0 <= i < |p| ==> p[..i] == es[..i] && p[i] == es[i];
      SequentialLoss(n, p);
      RunSound(n, p);
      StepAlone(n, Run(n, p), es[|es| - 1]);
    }
    RunSound(n, es);
  }

  /** Samples, trades and flushes: the calls that keep the counter and the buffer in step. */
  predicate PlainEvent(ev: Event) { !ev.CloseCalled? && (ev.Record? ==> !ev.w.OtherRow?) }

  predicate PlainCall(c: Call) {
    !c.Closing? && (c.Queued? ==> !c.w.OtherRow?) && (c.Written? ==> !c.w.OtherRow?)
  }

  predicate PlainCalls(calls: seq<Call>, pending: nat) {
    forall k :: 0 <= k < |calls| ==> PlainCall(calls[k]) && (calls[k].Saving? ==> pending == 0)
  }

  /** The buffered samples are the counted ones and those the call in flight carries, no more and no fewer. */
  predicate InStep(m: Machine) {
    Samples(m.store.open) == m.store.pending + Load(m.calls) && PlainCalls(m.calls, m.store.pending)
  }

  lemma StartInStep(n: nat, m: Machine, ev: Event)
    requires InStep(m) && AllOver(m.calls) && PlainEvent(ev) && (ev.Record? || ev.Flushing?)
    ensures InStep(Step(n, m, ev))
  {
    hide Load, Samples;
    FirstAlone(m.calls, if ev.Record? then Queued(ev.w) else Saving(None, m.store.pending));
  }

  lemma OthersOver(calls: seq<Call>, k: nat)
    requires Alone(calls) && k < |calls| && InFlight(calls[k])
    ensures forall j :: 0 <= j < |calls| && j != k ==> calls[j].Over?
  {
    forall j | 0 <= j < |calls| && j != k ensures calls[j].Over? { assert InFlight(calls[k]); }
  }

  lemma GoOnInStep(n: nat, m: Machine, ev: Event, k: nat)
    requires n >= 1 && Alone(m.calls) && InStep(m) && k < |m.calls| && InFlight(m.calls[k])
    requires ev == InsertRuns(k) || ev == InsertFails(k) || ev == Resumes(k) || ev == CommitRuns(k) || ev == Returns(k)
    ensures InStep(Step(n, m, ev))
  {
    hide Load, Samples, Alone;
    OthersOver(m.calls, k);
    StillAlone(m.calls, k, Step(n, m, ev).calls[k]);
    if m.calls[k].Queued? { SamplesGrow(m.store.open, m.calls[k].w); }
    NoSamples();
  }

  lemma NoSamples()
    ensures Samples([]) == 0
  {}

  lemma StepInStep(n: nat, m: Machine, ev: Event)
    requires n >= 1 && Alone(m.calls) && InStep(m) && PlainEvent(ev)
    requires ev.Record? || ev.Flushing? ==> AllOver(m.calls)
    ensures InStep(Step(n, m, ev))
  {
    hide InStep, Alone, AllOver;
    match ev {
      case InsertRuns(k) => if k < |m.calls| && InFlight(m.calls[k]) { GoOnInStep(n, m, ev, k); }
      case InsertFails(k) => if k < |m.calls| && InFlight(m.calls[k]) { GoOnInStep(n, m, ev, k); }
      case Resumes(k) => if k < |m.calls| && InFlight(m.calls[k]) { GoOnInStep(n, m, ev, k); }
      case CommitRuns(k) => if k < |m.calls| && InFlight(m.calls[k]) { GoOnInStep(n, m, ev, k); }
      case Returns(k) => if k < |m.calls| && InFlight(m.calls[k]) { GoOnInStep(n, m, ev, k); }
      case _ => StartInStep(n, m, ev);
    }
  }

  lemma {:induction false} RunInStep(n: nat, es: seq<Event>)
    requires n >= 1 && OneAtATime(n, es) && forall i :: 0 <= i < |es| ==> PlainEvent(es[i])
    ensures InStep(Run(n, es)) && Bounded(n, Run(n, es))
  {
    hide Step, InStep, AllOver;
    SequentialLoss(n, es);
    if es == [] {
      NothingInStep(n);
    } else {
      var p := es[..|es| - 1];
      assert forall i :: 0 <= i < |p| ==> p[..i] == es[..i] && p[i] == es[i];
      RunInStep(n, p);
      StepInStep(n, Run(n, p), es[|es| - 1]);
    }
  }

  lemma NothingInStep(n: nat)
    ensures InStep(Run(n, []))
  {}

  /** The call is past its insert and is the batch's n-th sample: the guard of the committing branch
      holds for it, or held and the commit is still to run. */
  predicate LastOfBatch(n: nat, m: Machine, c: Call) {
    (c.Written? && c.w.EquityRow? && m.store.pending + 1 >= n) || (c.Saving? && c.covers == n)
  }

  lemma LossByCall(n: nat, m: Machine, k: nat)
    requires Sound(n, m) && InStep(m) && Alone(m.calls) && k < |m.calls| && InFlight(m.calls[k])
    ensures Samples(m.store.open) == n <==> LastOfBatch(n, m, m.calls[k])
    ensures forall j :: 0 <= j < |m.calls| && j != k ==> !LastOfBatch(n, m, m.calls[j])
  {
    hide Load, Samples, Alone;
    OthersOver(m.calls, k);
    StillAlone(m.calls, k, m.calls[k]);
  }

  /** With one call at a time, among samples, trades and flushes, a crash loses a full batch exactly
      when the call in flight is that last sample of it. */
  lemma FullBatchLostExactly(n: nat, es: seq<Event>)
    requires n >= 1 && OneAtATime(n, es) && forall i :: 0 <= i < |es| ==> PlainEvent(es[i])
    ensures var m := Run(n, es);
            && m.log == m.store.committed + m.store.open && Samples(m.store.open) <= n
            && (Samples(m.store.open) == n <==> exists k :: 0 <= k < |m.calls| && LastOfBatch(n, m, m.calls[k]))
  {
    hide Step, InStep, LastOfBatch, CallsOk, ReturnedOk;
    var m := Run(n, es);
    SequentialLoss(n, es);
    RunInStep(n, es);
    RunSound(n, es);
    if k :| 0 <= k < |m.calls| && InFlight(m.calls[k]) {
      LossByCall(n, m, k);
    } else {
      QuietLoss(n, m);
    }
  }

  lemma QuietLoss(n: nat, m: Machine)
    requires Sound(n, m) && AllOver(m.calls)
    ensures Samples(m.store.open) < n && forall k :: 0 <= k < |m.calls| ==> !LastOfBatch(n, m, m.calls[k])
  {
    hide Load, Samples, CallsOk, ReturnedOk;
    FirstAlone(m.calls, Over);
    forall k | 0 <= k < |m.calls| ensures !LastOfBatch(n, m, m.calls[k]) { assert !InFlight(m.calls[k]); }
  }

  function SampleAt(i: nat): Event { Record(EquityRow(i, 0.0)) }

  /** `i` complete sample calls, one after another. */
  function Feed(i: nat): seq<Event> {
    if i == 0 then [] else Feed(i - 1) + [SampleAt(i - 1), InsertRuns(i - 1), Resumes(i - 1)]
  }

  lemma RunOne(n: nat, es: seq<Event>, a: Event)
    ensures Run(n, es + [a]) == Step(n, Run(n, es), a)
  {
    hide Step;
    assert (es + [a])[..|es|] == es;
  }

  lemma RunThree(n: nat, es: seq<Event>, a: Event, b: Event, c: Event)
    ensures Run(n, es + [a, b]) == Step(n, Step(n, Run(n, es), a), b)
    ensures Run(n, es + [a, b, c]) == Step(n, Step(n, Step(n, Run(n, es), a), b), c)
  {
    hide *;
    RunOne(n, es, a);
    RunOne(n, es + [a], b);
    RunOne(n, es + [a] + [b], c);
    assert es + [a] + [b] == es + [a, b];
    assert es + [a] + [b] + [c] == es + [a, b, c];
  }

  /** The machine while the first samples are buffered. */
  predicate Buffering(m: Machine, i: nat) {
    && m.connected && |m.calls| == i && m.store.pending == i && m.store.committed == []
    && m.log == m.store.open && Samples(m.store.open) == i
  }

  lemma NextSample(n: nat, m: Machine, i: nat)
    requires Buffering(m, i)
    ensures var m2 := Step(n, Step(n, m, SampleAt(i)), InsertRuns(i));
            && m2.store.committed == [] && m2.log == m2.store.open && Samples(m2.store.open) == i + 1
            && (i + 1 < n ==> Buffering(Step(n, m2, Resumes(i)), i + 1))
  {
    hide Samples;
    SamplesGrow(m.store.open, EquityRow(i, 0.0));
  }

  lemma {:induction false} FeedBuffers(n: nat, i: nat)
    requires i < n
    ensures Buffering(Run(n, Feed(i)), i)
  {
    hide Step, Buffering;
    if i == 0 {
      NothingFed(n);
    } else {
      FeedBuffers(n, i - 1);
      NextSample(n, Run(n, Feed(i - 1)), i - 1);
      RunThree(n, Feed(i - 1), SampleAt(i - 1), InsertRuns(i - 1), Resumes(i - 1));
    }
  }

  lemma NothingFed(n: nat)
    ensures Buffering(Run(n, []), 0)
  {}

  /** That bound is met for every batch size: a crash between the n-th sample's insert and its commit
      loses all n, one more than "fewer than a batch". */
  lemma FullBatchCanBeLost(n: nat)
    requires n >= 1
    ensures var m := Run(n, Feed(n - 1) + [SampleAt(n - 1), InsertRuns(n - 1)]);
            m.store.committed == [] && Samples(m.log) == n
  {
    hide Step, Buffering, SampleAt, Samples;
    FeedBuffers(n, n - 1);
    NextSample(n, Run(n, Feed(n - 1)), n - 1);
    RunThree(n, Feed(n - 1), SampleAt(n - 1), InsertRuns(n - 1), Resumes(n - 1));
  }

  /** A call that runs through its steps alone does to the store what the uninterrupted call does. */
  lemma CallRefines(n: nat, m: Machine, w: Write)
    requires m.connected
    ensures var k := |m.calls|;
            var m1 := Step(n, Step(n, Step(n, m, Record(w)), InsertRuns(k)), Resumes(k));
            Step(n, Step(n, m1, CommitRuns(k)), Returns(k)).store == Recorded(n, m.store, w)
  {}
}
