/**
 The browser client's connection life (ui/src/fleet/client.ts): one socket or one armed
 retry timer, exponential backoff, the idle watchdog, and the backstop timer of every
 command in flight.  `Life` is the client as a value; the class below it is the client.
 */
module Client {
  import opened Basics
  import opened Commands
  import Fleet
  import FleetStore
  import Replication

  datatype Status = Connecting | Connected | Reconnecting | Disconnected

  datatype Options = Options(minDelay: nat, maxDelay: nat, idleTimeout: nat, ladder: FleetStore.LadderOptions, maxRecent: nat)

  /** The fleet store as a value. */
  datatype Mirror = Mirror(devices: FleetStore.ClientDevices, seqNo: nat, hasSnapshot: bool)

  /** `socket` numbers the dialled sockets; `retryTimer` holds the delay it was armed with. */
  datatype Life = Life(
    socket: Option<nat>, dialed: nat, status: Status, fatal: bool, stopped: bool, everConnected: bool,
    retries: nat, retryTimer: Option<nat>, watchdog: bool, lastFrameAt: nat,
    counter: nat, timers: set<nat>, book: Book, mirror: Mirror)

  datatype ServerFrame =
    | Snapshot(snapshot: FleetStore.Snapshot)
    | Deltas(deltas: seq<Fleet.Delta>)
    | Reply(id: nat, component: string, verb: string, ok: bool, body: Json, elapsed: nat)
    | Ordinary
    | VersionError
    | Ignored

  /** Everything that calls into the client; `dialOk` says whether dialling threw. */
  datatype Input =
    | Start(now: nat, dialOk: bool)
    | Stop
    | Opened(socket: nat, now: nat)
    | Closed(socket: nat)
    | Received(socket: nat, frame: ServerFrame, now: nat, dialOk: bool)
    | RetryFires(dialOk: bool)
    | WatchdogTicks(now: nat)
    | Invoke(component: string, verb: string, instance: Option<string>)
    | BackstopFires(id: nat)

  function Init(): Life {
    Life(None, 0, Disconnected, false, true, false, 0, None, false, 0, 0, {}, Book(map[], 0), Mirror(map[], 0, false))
  }

  // ------------------------------------------------------------------ backoff

  function Pow2(n: nat): (r: nat)
    ensures r > n
  {
    if n == 0 then 1 else 2 * Pow2(n - 1)
  }

  function Delay(retries: nat, o: Options): nat {
    var raw := o.minDelay * Pow2(retries);
    if o.maxDelay < raw then o.maxDelay else raw
  }

  /** Backoff doubles up to the ceiling, never passes it and, for a positive first delay, gets there. */
  lemma DelayDoubles(retries: nat, o: Options)
    ensures Delay(0, o) == Min(o.minDelay, o.maxDelay) && Delay(retries, o) <= o.maxDelay
    ensures Delay(retries + 1, o) == if 2 * Delay(retries, o) <= o.maxDelay then 2 * Delay(retries, o) else o.maxDelay
    ensures o.minDelay > 0 && retries >= o.maxDelay ==> Delay(retries, o) == o.maxDelay
  {
    var p := Pow2(retries);
    assert o.minDelay * (2 * p) == 2 * (o.minDelay * p);
    if o.minDelay > 0 { assert o.minDelay * p >= p; }
  }

  // ------------------------------------------------------------------ the handlers

  function DialStatus(l: Life): Status {
    if l.everConnected then Reconnecting else Connecting
  }

  function ScheduleReconnect(l: Life, o: Options): Life {
    if l.stopped || l.retryTimer.Some? then l
    else l.(retryTimer := Some(Delay(l.retries, o)), retries := l.retries + 1, status := DialStatus(l))
  }

  function Dial(l: Life, dialOk: bool, o: Options): Life {
    var l1 := l.(status := DialStatus(l));
    if dialOk then l1.(socket := Some(l.dialed + 1), dialed := l.dialed + 1)
    else ScheduleReconnect(l1, o)
  }

  function FailPendingCommands(l: Life, code: string): Life {
    l.(timers := {}, book := FailAll(l.book, code))
  }

  function OnStart(l: Life, now: nat, dialOk: bool, o: Options): Life {
    if !l.stopped then l
    else Dial(l.(stopped := false, fatal := false, lastFrameAt := now, watchdog := true), dialOk, o)
  }

  function OnStop(l: Life): Life {
    if l.stopped then l
    else FailPendingCommands(l.(stopped := true, retryTimer := None, watchdog := false), "DISCONNECTED")
           .(socket := None, status := Disconnected)
  }

  function OnOpen(l: Life, socket: nat, now: nat): Life {
    if l.socket != Some(socket) then l
    else l.(everConnected := true, lastFrameAt := now, status := Connected)
  }

  /** The resume point the hello of this open carries. */
  function ResumeSeq(l: Life): Option<nat> {
    if l.mirror.hasSnapshot then Some(l.mirror.seqNo) else None
  }

  function OnClose(l: Life, socket: nat, o: Options): Life {
    if l.socket != Some(socket) then l
    else
      var l1 := FailPendingCommands(l.(socket := None), "DISCONNECTED");
      if !l1.stopped && !l1.fatal then ScheduleReconnect(l1, o) else l1
  }

  function Resync(l: Life, dialOk: bool, o: Options): Life {
    if l.stopped then l.(socket := None) else Dial(l.(socket := None), dialOk, o)
  }

  /** The numbered fold, and whether it met a gap (any delta before the first snapshot is one). */
  function FoldMirror(m: Mirror, deltas: seq<Fleet.Delta>, o: Options): (Mirror, bool) {
    if !m.hasSnapshot then (m, true)
    else var r := FleetStore.FoldDeltas(m.devices, m.seqNo, deltas, o.ladder);
         (Mirror(r.devices, r.seqNo, true), r.gap)
  }

  function PhaseOf(ok: bool, body: Json): Phase {
    if ok then Succeeded(body) else Failed(body)
  }

  function OnFrame(l: Life, frame: ServerFrame, dialOk: bool, o: Options): Life {
    match frame
    case Snapshot(s) => l.(mirror := Mirror(FleetStore.FromSnapshot(s.devices), s.seqNo, true), retries := 0)
    case Deltas(deltas) =>
      var (m, gap) := FoldMirror(l.mirror, deltas, o);
      var l1 := l.(mirror := m, retries := 0);
      if gap then Resync(l1, dialOk, o) else l1
    case Reply(id, component, verb, ok, body, elapsed) =>
      l.(timers := l.timers - {id}, book := Settle(l.book, id, component, verb, PhaseOf(ok, body), elapsed), retries := 0)
    case Ordinary => l.(retries := 0)
    case VersionError => l.(fatal := true, socket := None, status := Disconnected)
    case Ignored => l
  }

  function OnMessage(l: Life, socket: nat, frame: ServerFrame, now: nat, dialOk: bool, o: Options): Life {
    if l.socket != Some(socket) then l
    else OnFrame(l.(lastFrameAt := now), frame, dialOk, o)
  }

  function OnRetryTimer(l: Life, dialOk: bool, o: Options): Life {
    var l1 := l.(retryTimer := None);
    if l.stopped then l1 else Dial(l1, dialOk, o)
  }

  function CheckIdle(l: Life, now: nat, o: Options): Life {
    if l.stopped || l.socket.None? then l
    else if now > l.lastFrameAt + o.idleTimeout then ScheduleReconnect(l.(socket := None), o)
    else l
  }

  /** A request without a live connection is settled at once; otherwise its backstop is armed. */
  ghost function Requesting(l: Life, component: string, verb: string, instance: Option<string>, o: Options): Life {
    var id := l.counter + 1;
    var book := Note(l.book, id, component, verb, instance, o.maxRecent);
    if l.socket.None? || l.status != Connected then l.(counter := id, book := Fail(book, id, "DISCONNECTED"))
    else l.(counter := id, book := book, timers := l.timers + {id})
  }

  function OnBackstop(l: Life, id: nat): Life {
    l.(timers := l.timers - {id}, book := Fail(l.book, id, "TIMEOUT"))
  }

  /** A timer can only fire while it is armed. */
  predicate Possible(l: Life, input: Input) {
    && (input.RetryFires? ==> l.retryTimer.Some?)
    && (input.WatchdogTicks? ==> l.watchdog)
    && (input.BackstopFires? ==> input.id in l.timers)
  }

  ghost function Do(l: Life, input: Input, o: Options): Life {
    match input
    case Start(now, dialOk) => OnStart(l, now, dialOk, o)
    case Stop => OnStop(l)
    case Opened(socket, now) => OnOpen(l, socket, now)
    case Closed(socket) => OnClose(l, socket, o)
    case Received(socket, frame, now, dialOk) => OnMessage(l, socket, frame, now, dialOk, o)
    case RetryFires(dialOk) => OnRetryTimer(l, dialOk, o)
    case WatchdogTicks(now) => CheckIdle(l, now, o)
    case Invoke(component, verb, instance) => Requesting(l, component, verb, instance, o)
    case BackstopFires(id) => OnBackstop(l, id)
  }

  // ------------------------------------------------------------------ never stuck

  /** A started client that met no version skew has exactly one of a live socket and an armed
      retry timer, and the watchdog runs; any other client has neither. */
  ghost predicate NeverStuck(l: Life) {
    && (!l.stopped && !l.fatal ==> (l.socket.Some? <==> l.retryTimer.None?))
    && (l.stopped || l.fatal ==> l.socket.None? && l.retryTimer.None? && l.status == Disconnected)
    && (l.watchdog <==> !l.stopped)
    && (l.status == Disconnected ==> l.stopped || l.fatal)
    && (l.status == Connected ==> l.socket.Some? && l.everConnected)
    && (l.status == Connecting ==> !l.everConnected) && (l.status == Reconnecting ==> l.everConnected)
    && (l.socket.Some? ==> l.socket.value == l.dialed)
  }

  ghost predicate BackoffOk(l: Life, o: Options) {
    l.retryTimer.Some? ==> l.retries > 0 && l.retryTimer.value == Delay(l.retries - 1, o)
  }

  /** A command is pending exactly while its backstop timer is armed. */
  ghost predicate CommandsOk(l: Life) {
    && BookOk(l.book)
    && l.timers == PendingIds(l.book.entries)
    && (forall id <- l.timers :: id <= l.counter)
    && (l.stopped ==> l.timers == {})
  }

  ghost predicate LifeOk(l: Life, o: Options) {
    NeverStuck(l) && BackoffOk(l, o) && CommandsOk(l)
  }

  lemma StepNeverStuck(l: Life, input: Input, o: Options)
    requires NeverStuck(l) && BackoffOk(l, o) && Possible(l, input)
    ensures NeverStuck(Do(l, input, o)) && BackoffOk(Do(l, input, o), o)
  {
    hide FoldMirror, Delay, FailAll, Settle, Fail, Note, FleetStore.FromSnapshot;
  }

  lemma StepCommandsOk(l: Life, input: Input, o: Options)
    requires CommandsOk(l) && NeverStuck(l) && Possible(l, input)
    ensures CommandsOk(Do(l, input, o))
  {
    hide FoldMirror, Delay, FleetStore.FromSnapshot, BookOk, PendingIds, FailAll, Settle, Fail, Note;
    match input {
      case Stop => FailAllPends(l.book, "DISCONNECTED");
      case Closed(_) => FailAllPends(l.book, "DISCONNECTED");
      case Received(_, frame, _, _) =>
        if frame.Reply? {
          SettlePends(l.book, frame.id, frame.component, frame.verb, PhaseOf(frame.ok, frame.body), frame.elapsed);
        }
      case Invoke(component, verb, instance) =>
        var id := l.counter + 1;
        NotePends(l.book, id, component, verb, instance, o.maxRecent);
        FailPends(Note(l.book, id, component, verb, instance, o.maxRecent), id, "DISCONNECTED");
        assert l.timers + {id} - {id} == l.timers;
      case BackstopFires(id) => FailPends(l.book, id, "TIMEOUT");
      case _ =>
    }
  }

  /** The client after a sequence of calls, or None when one of them could not happen. */
  ghost function Run(inputs: seq<Input>, o: Options): Option<Life>
    decreases |inputs|
  {
    if inputs == [] then Some(Init())
    else
      var n := |inputs| - 1;
      var before := Run(inputs[..n], o);
      if before.Some? && Possible(before.value, inputs[n]) then Some(Do(before.value, inputs[n], o)) else None
  }

  /** The client never gets stuck, in any run. */
  lemma {:induction false} ClientNeverStuck(inputs: seq<Input>, o: Options)
    requires Run(inputs, o).Some?
    ensures LifeOk(Run(inputs, o).value, o)
    decreases |inputs|
  {
    hide NeverStuck, BackoffOk, CommandsOk, Do, Possible;
    if inputs == [] {
      InitOk(o);
    } else {
      var n := |inputs| - 1;
      ClientNeverStuck(inputs[..n], o);
      StepNeverStuck(Run(inputs[..n], o).value, inputs[n], o);
      StepCommandsOk(Run(inputs[..n], o).value, inputs[n], o);
    }
  }

  lemma InitOk(o: Options)
    ensures LifeOk(Init(), o)
  {
  }

  // ------------------------------------------------------------------ commands in flight

  /** What ends a command that is in flight. */
  predicate Ends(l: Life, input: Input, id: nat) {
    match input
    case Stop => true
    case Closed(socket) => l.socket == Some(socket)
    case Received(socket, frame, _, _) => l.socket == Some(socket) && frame.Reply? && frame.id == id
    case BackstopFires(fired) => fired == id
    case _ => false
  }

  /** A command in flight ends with its reply, its backstop, the close of the socket or a stop,
      and survives everything else: notably a delta gap, an idle teardown and a version skew. */
  lemma FlightEndsExactly(l: Life, input: Input, id: nat, o: Options)
    requires CommandsOk(l) && NeverStuck(l) && Possible(l, input)
    requires id in PendingIds(l.book.entries)
    ensures id !in PendingIds(Do(l, input, o).book.entries) <==> Ends(l, input, id)
  {
    StepCommandsOk(l, input, o);
    hide FoldMirror, Delay, FleetStore.FromSnapshot, BookOk, PendingIds, FailAll, Settle, Fail, Note, CommandsOk;
    InFlightArmed(l);
    InFlightArmed(Do(l, input, o));
  }

  lemma InFlightArmed(l: Life)
    requires CommandsOk(l)
    ensures l.timers == PendingIds(l.book.entries) && (l.stopped ==> l.timers == {})
    ensures l.counter + 1 !in l.timers
  {
  }

  // ------------------------------------------------------------------ result slots

  ghost function AskedBy(l: Life, input: Input, asked: map<nat, Slot>): map<nat, Slot> {
    match input
    case Invoke(component, verb, instance) => asked[l.counter + 1 := Slot(component, verb, instance.GetOr(""))]
    case _ => asked
  }

  /** The slot every request asked for, by request number. */
  ghost function Asked(inputs: seq<Input>, o: Options): map<nat, Slot>
    decreases |inputs|
  {
    if inputs == [] then map[]
    else
      var n := |inputs| - 1;
      var before, asked := Run(inputs[..n], o), Asked(inputs[..n], o);
      if before.None? then asked else AskedBy(before.value, inputs[n], asked)
  }

  /** The entries that a reply opened because it found none: their requests were trimmed away,
      or never were. */
  ghost function Orphaned(inputs: seq<Input>, o: Options): set<nat>
    decreases |inputs|
  {
    if inputs == [] then {}
    else
      var n := |inputs| - 1;
      var before, orphaned := Run(inputs[..n], o), Orphaned(inputs[..n], o);
      if before.None? then orphaned else OrphanedBy(before.value, inputs[n], orphaned)
  }

  ghost function OrphanedBy(l: Life, input: Input, orphaned: set<nat>): set<nat> {
    match input
    case Invoke(_, _, _) => orphaned - {l.counter + 1}
    case Received(socket, frame, _, _) =>
      if l.socket == Some(socket) && frame.Reply? && frame.id !in l.book.entries then orphaned + {frame.id} else orphaned
    case _ => orphaned
  }

  /** Every entry, settled or not, has the slot its request named; an orphaned one has no instance. */
  ghost predicate SlotsOk(b: Book, asked: map<nat, Slot>, orphaned: set<nat>) {
    forall id <- b.entries ::
      if id in orphaned then SlotOf(b.entries[id]).instance == "" else id in asked && SlotOf(b.entries[id]) == asked[id]
  }

  /** Every entry was there before, in the same slot. */
  ghost predicate SlotsKept(b: Book, b': Book) {
    forall id <- b'.entries :: id in b.entries && SlotOf(b'.entries[id]) == SlotOf(b.entries[id])
  }

  lemma KeptSlots(b: Book, b': Book, asked: map<nat, Slot>, orphaned: set<nat>)
    requires SlotsOk(b, asked, orphaned) && SlotsKept(b, b')
    ensures SlotsOk(b', asked, orphaned)
  {
  }

  lemma FailuresKeepSlots(b: Book, id: nat, code: string)
    ensures SlotsKept(b, b) && SlotsKept(b, FailAll(b, code)) && SlotsKept(b, Fail(b, id, code))
  {
  }

  lemma SettleSlots(b: Book, id: nat, component: string, verb: string, phase: Phase, elapsed: nat, asked: map<nat, Slot>, orphaned: set<nat>)
    requires SlotsOk(b, asked, orphaned)
    ensures SlotsOk(Settle(b, id, component, verb, phase, elapsed), asked, if id in b.entries then orphaned else orphaned + {id})
  {
  }

  lemma NoteSlots(b: Book, id: nat, component: string, verb: string, instance: Option<string>, cap: nat, asked: map<nat, Slot>, orphaned: set<nat>)
    requires SlotsOk(b, asked, orphaned)
    ensures SlotsOk(Note(b, id, component, verb, instance, cap), asked[id := Slot(component, verb, instance.GetOr(""))], orphaned - {id})
  {
    hide TrimTo;
  }

  lemma InvokeSlots(l: Life, component: string, verb: string, instance: Option<string>, asked: map<nat, Slot>, orphaned: set<nat>, o: Options)
    requires SlotsOk(l.book, asked, orphaned)
    ensures SlotsOk(Requesting(l, component, verb, instance, o).book,
                    asked[l.counter + 1 := Slot(component, verb, instance.GetOr(""))], orphaned - {l.counter + 1})
  {
    hide SlotsOk, SlotsKept, Note, Fail;
    var id := l.counter + 1;
    var b := Note(l.book, id, component, verb, instance, o.maxRecent);
    NoteSlots(l.book, id, component, verb, instance, o.maxRecent, asked, orphaned);
    FailuresKeepSlots(b, id, "DISCONNECTED");
    KeptSlots(b, Fail(b, id, "DISCONNECTED"), asked[id := Slot(component, verb, instance.GetOr(""))], orphaned - {id});
  }

  lemma StepSlots(l: Life, input: Input, asked: map<nat, Slot>, orphaned: set<nat>, o: Options)
    requires SlotsOk(l.book, asked, orphaned) && !input.Invoke?
    ensures SlotsOk(Do(l, input, o).book, asked, OrphanedBy(l, input, orphaned))
  {
    hide FoldMirror, Delay, FleetStore.FromSnapshot, SlotsOk, SlotsKept, FailAll, Settle, Fail;
    match input {
      case Received(socket, frame, _, _) =>
        if l.socket == Some(socket) && frame.Reply? {
          SettleSlots(l.book, frame.id, frame.component, frame.verb, PhaseOf(frame.ok, frame.body), frame.elapsed, asked, orphaned);
        }
      case Stop | Closed(_) =>
        FailuresKeepSlots(l.book, 0, "DISCONNECTED");
        KeptSlots(l.book, FailAll(l.book, "DISCONNECTED"), asked, orphaned);
      case BackstopFires(id) =>
        FailuresKeepSlots(l.book, id, "TIMEOUT");
        KeptSlots(l.book, Fail(l.book, id, "TIMEOUT"), asked, orphaned);
      case _ =>
    }
  }

  lemma AnyStepSlots(l: Life, input: Input, asked: map<nat, Slot>, orphaned: set<nat>, o: Options)
    requires SlotsOk(l.book, asked, orphaned)
    ensures SlotsOk(Do(l, input, o).book, AskedBy(l, input, asked), OrphanedBy(l, input, orphaned))
  {
    hide SlotsOk;
    match input {
      case Invoke(component, verb, instance) => InvokeSlots(l, component, verb, instance, asked, orphaned, o);
      case _ => StepSlots(l, input, asked, orphaned, o);
    }
  }

  lemma {:induction false} RunSlots(inputs: seq<Input>, o: Options)
    requires Run(inputs, o).Some?
    ensures SlotsOk(Run(inputs, o).value.book, Asked(inputs, o), Orphaned(inputs, o))
    decreases |inputs|
  {
    hide SlotsOk, Possible, Do, AskedBy, OrphanedBy;
    if inputs == [] {
      NoSlots();
    } else {
      var n := |inputs| - 1;
      RunSlots(inputs[..n], o);
      AnyStepSlots(Run(inputs[..n], o).value, inputs[n], Asked(inputs[..n], o), Orphaned(inputs[..n], o), o);
    }
  }

  lemma NoSlots()
    ensures SlotsOk(Init().book, map[], {})
  {
  }

  /** In any run, a reply that finds its entry, in flight or already settled by its backstop or a
      close, lands in the slot the request named, whatever the reply itself says; a reply that
      finds none, or an entry that such a reply opened, lands in a component-scoped slot. */
  lemma RepliesLandInTheirSlots(inputs: seq<Input>, id: nat, component: string, verb: string, phase: Phase, elapsed: nat, o: Options)
    requires Run(inputs, o).Some? && !phase.Pending?
    ensures var b := Run(inputs, o).value.book;
            var landed := SlotOf(Settle(b, id, component, verb, phase, elapsed).entries[id]);
            && (id in b.entries && id !in Orphaned(inputs, o) ==> id in Asked(inputs, o) && landed == Asked(inputs, o)[id])
            && (id in b.entries && id in Orphaned(inputs, o) ==> landed == SlotOf(b.entries[id]) && landed.instance == "")
            && (id !in b.entries ==> landed == Slot(component, verb, ""))
  {
    RunSlots(inputs, o);
  }

  // ------------------------------------------------------------------ the protocol's client

  /** The client side of the replication protocol is this client: a frame changes the mirrored
      fleet as the protocol says, and a gap drops the connection for a fresh dial whose hello
      offers the last applied number. */
  lemma ProtocolClient(l: Life, frame: Replication.Frame, base: nat, dialOk: bool, o: Options)
    requires NeverStuck(l) && l.socket.Some?
    ensures var mine := if frame.SnapshotFrame? then Snapshot(frame.snapshot) else Deltas(frame.deltas);
            var l' := OnFrame(l, mine, dialOk, o);
            var c := Replication.Client(l.mirror.devices, l.mirror.seqNo, l.mirror.hasSnapshot, base);
            var (c', gap) := Replication.Receive(c, frame, o.ladder);
            && l'.mirror == Mirror(c'.devices, c'.seqNo, c'.hasSnapshot)
            && ResumeSeq(l') == Replication.Offer(c')
            && (gap <==> l'.socket != l.socket)
            && (gap && dialOk ==> l'.socket == Some(l.dialed + 1) && l'.status != Connected)
  {
    hide FleetStore.FoldDeltas, FleetStore.FromSnapshot;
  }

  // ------------------------------------------------------------------ the client

  class FleetClient {
    const opts: Options
    const store: FleetStore.FleetStore
    const commandStore: CommandStore
    var socket: Option<nat>
    var dialed: nat
    var status: Status
    var fatal: bool
    var stopped: bool
    var everConnected: bool
    var retries: nat
    var retryTimer: Option<nat>
    var watchdog: bool
    var lastFrameAt: nat
    var commandCounter: nat
    var commandTimers: set<nat>

    ghost function Value(): Life
      reads this, store, commandStore
    {
      Life(socket, dialed, status, fatal, stopped, everConnected, retries, retryTimer, watchdog, lastFrameAt,
           commandCounter, commandTimers, commandStore.Value(), Mirror(store.devices, store.seqNo, store.snapshotApplied))
    }

    ghost predicate Valid()
      reads this, store, commandStore
    {
      LifeOk(Value(), opts) && store.opts == opts.ladder && commandStore.maxRecent == opts.maxRecent
    }

    constructor (opts: Options)
      requires opts.maxRecent >= 1
      ensures Valid() && Value() == Init() && this.opts == opts && fresh(store) && fresh(commandStore)
    {
      this.opts := opts;
      store := new FleetStore.FleetStore(opts.ladder);
      commandStore := new CommandStore(opts.maxRecent);
      socket, dialed, status, fatal, stopped, everConnected := None, 0, Disconnected, false, true, false;
      retries, retryTimer, watchdog, lastFrameAt, commandCounter, commandTimers := 0, None, false, 0, 0, {};
    }

    method SetStatus()
      modifies this`status
      ensures Value() == old(Value()).(status := DialStatus(old(Value())))
    {
      status := if everConnected then Reconnecting else Connecting;
    }

    method RetryDelay() returns (delay: nat)
      ensures delay == Delay(retries, opts)
    {
      var factor := 1;
      for i := 0 to retries
        invariant factor == Pow2(i)
      {
        factor := 2 * factor;
      }
      delay := if opts.maxDelay < opts.minDelay * factor then opts.maxDelay else opts.minDelay * factor;
    }

    method Reconnect()
      modifies this
      ensures Value() == ScheduleReconnect(old(Value()), opts)
    {
      if stopped || retryTimer.Some? {
        return;
      }
      var delay := RetryDelay();
      retries := retries + 1;
      SetStatus();
      retryTimer := Some(delay);
    }

    method Connect(dialOk: bool)
      modifies this
      ensures Value() == Dial(old(Value()), dialOk, opts)
    {
      SetStatus();
      if !dialOk {
        Reconnect();
        return;
      }
      dialed := dialed + 1;
      socket := Some(dialed);
    }

    method FailPending(code: string)
      modifies this`commandTimers, commandStore
      ensures Value() == FailPendingCommands(old(Value()), code)
    {
      commandTimers := {};
      commandStore.FailAllPending(code);
    }

    method Start(now: nat, dialOk: bool)
      requires Valid()
      modifies this
      ensures Valid() && Value() == Do(old(Value()), Input.Start(now, dialOk), opts)
    {
      StepsKeepValid(Value(), Input.Start(now, dialOk), opts);
      hide LifeOk;
      if stopped {
        stopped, fatal, lastFrameAt, watchdog := false, false, now, true;
        Connect(dialOk);
      }
    }

    method Stop()
      requires Valid()
      modifies this, commandStore
      ensures Valid() && Value() == Do(old(Value()), Input.Stop, opts)
    {
      StepsKeepValid(Value(), Input.Stop, opts);
      hide LifeOk;
      if !stopped {
        stopped, retryTimer, watchdog := true, None, false;
        FailPending("DISCONNECTED");
        socket := None;
        status := Disconnected;
      }
    }

    /** The socket opened: returns the resume point of the hello, or None for a stale socket. */
    method OnOpen(from: nat, now: nat) returns (hello: Option<Option<nat>>)
      requires Valid()
      modifies this
      ensures Valid() && Value() == Do(old(Value()), Opened(from, now), opts)
      ensures hello == if old(socket) == Some(from) then Some(ResumeSeq(Value())) else None
    {
      StepsKeepValid(Value(), Opened(from, now), opts);
      hide LifeOk;
      if socket != Some(from) {
        return None;
      }
      everConnected, lastFrameAt := true, now;
      hello := Some(if store.snapshotApplied then Some(store.seqNo) else None);
      status := Connected;
    }

    method OnClose(from: nat)
      requires Valid()
      modifies this, commandStore
      ensures Valid() && Value() == Do(old(Value()), Closed(from), opts)
    {
      StepsKeepValid(Value(), Closed(from), opts);
      hide LifeOk;
      if socket != Some(from) {
        return;
      }
      socket := None;
      FailPending("DISCONNECTED");
      if !stopped && !fatal {
        Reconnect();
      }
    }

    method OnMessage(from: nat, frame: ServerFrame, now: nat, dialOk: bool)
      requires Valid()
      modifies this, store, commandStore
      ensures Valid() && Value() == Do(old(Value()), Received(from, frame, now, dialOk), opts)
    {
      StepsKeepValid(Value(), Received(from, frame, now, dialOk), opts);
      hide LifeOk, OnFrame;
      if socket != Some(from) {
        return;
      }
      lastFrameAt := now;
      HandleFrame(frame, dialOk);
    }

    method HandleFrame(frame: ServerFrame, dialOk: bool)
      requires store.opts == opts.ladder
      modifies this, store, commandStore
      ensures store.opts == opts.ladder
      ensures Value() == OnFrame(old(Value()), frame, dialOk, opts)
    {
      hide Settle, FleetStore.FoldDeltas, FleetStore.FromSnapshot, Dial;
      match frame {
        case Snapshot(snapshot) =>
          store.ApplySnapshot(snapshot);
          retries := 0;
        case Deltas(deltas) =>
          var applied, gap := store.ApplyDeltas(deltas);
          retries := 0;
          if gap {
            ResyncNow(dialOk);
          }
        case Reply(id, component, verb, ok, body, elapsed) =>
          commandTimers := commandTimers - {id};
          commandStore.ApplyResult(id, component, verb, if ok then Succeeded(body) else Failed(body), elapsed);
          retries := 0;
        case Ordinary =>
          retries := 0;
        case VersionError =>
          fatal := true;
          socket := None;
          status := Disconnected;
        case Ignored =>
      }
    }

    method ResyncNow(dialOk: bool)
      modifies this
      ensures Value() == Resync(old(Value()), dialOk, opts)
    {
      socket := None;
      if !stopped {
        Connect(dialOk);
      }
    }

    method OnRetryTimer(dialOk: bool)
      requires Valid() && retryTimer.Some?
      modifies this
      ensures Valid() && Value() == Do(old(Value()), RetryFires(dialOk), opts)
    {
      StepsKeepValid(Value(), RetryFires(dialOk), opts);
      hide LifeOk;
      retryTimer := None;
      if !stopped {
        Connect(dialOk);
      }
    }

    method CheckIdle(now: nat)
      requires Valid() && watchdog
      modifies this
      ensures Valid() && Value() == Do(old(Value()), WatchdogTicks(now), opts)
    {
      StepsKeepValid(Value(), WatchdogTicks(now), opts);
      hide LifeOk;
      if stopped || socket.None? {
        return;
      }
      if now - lastFrameAt > opts.idleTimeout {
        socket := None;
        Reconnect();
      }
    }

    method InvokeCommand(component: string, verb: string, instance: Option<string>) returns (id: nat)
      requires Valid()
      modifies this, commandStore
      ensures Valid() && Value() == Do(old(Value()), Invoke(component, verb, instance), opts)
      ensures id == old(commandCounter) + 1
    {
      StepsKeepValid(Value(), Invoke(component, verb, instance), opts);
      assert BookOk(commandStore.Value());
      assert Do(Value(), Invoke(component, verb, instance), opts) == Requesting(Value(), component, verb, instance, opts);
      hide LifeOk, BookOk, Requesting, Do;
      id := Request(component, verb, instance);
    }

    method Request(component: string, verb: string, instance: Option<string>) returns (id: nat)
      requires BookOk(commandStore.Value()) && commandStore.maxRecent == opts.maxRecent
      modifies this, commandStore
      ensures Value() == Requesting(old(Value()), component, verb, instance, opts)
      ensures id == old(commandCounter) + 1
    {
      hide BookOk, Note, Fail;
      commandCounter := commandCounter + 1;
      id := commandCounter;
      commandStore.NotePending(id, component, verb, instance);
      if socket.None? || status != Connected {
        commandStore.FailClient(id, "DISCONNECTED");
      } else {
        commandTimers := commandTimers + {id};
      }
    }

    method OnBackstop(id: nat)
      requires Valid() && id in commandTimers
      modifies this, commandStore
      ensures Valid() && Value() == Do(old(Value()), BackstopFires(id), opts)
    {
      StepsKeepValid(Value(), BackstopFires(id), opts);
      hide LifeOk;
      commandTimers := commandTimers - {id};
      commandStore.FailClient(id, "TIMEOUT");
    }
  }

  lemma StepsKeepValid(l: Life, input: Input, o: Options)
    requires LifeOk(l, o) && Possible(l, input)
    ensures LifeOk(Do(l, input, o), o)
  {
    hide NeverStuck, BackoffOk, CommandsOk, Do, Possible;
    StepNeverStuck(l, input, o);
    StepCommandsOk(l, input, o);
  }
}
