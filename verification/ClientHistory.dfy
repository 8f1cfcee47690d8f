/**
 The browser client in terms of everything that happened to it (ui/src/fleet/client.ts): what
 decided each command, and what its connection state remembers.
 */
module ClientHistory {
  import opened Basics
  import opened Commands
  import opened Client
  import FleetStore

  // ------------------------------------------------------------------ what decides a command

  /** What one input decides about command `id`, given the client before it and whether the
      command is in flight: it is sent or refused offline, answered, cut off, or timed out. */
  ghost function Verdict(l: Life, input: Input, id: nat, inFlight: bool): Option<(Phase, Option<nat>)> {
    match input
    case Invoke(_, _, _) =>
      if id != l.counter + 1 then None
      else if l.socket.Some? && l.status == Connected then Some((Pending, None))
      else Some((Failed("DISCONNECTED"), None))
    case Received(socket, frame, _, _) =>
      if l.socket == Some(socket) && frame.Reply? && frame.id == id
      then Some((if frame.ok then Succeeded(frame.body) else Failed(frame.body), Some(frame.elapsed)))
      else None
    case Closed(socket) => if l.socket == Some(socket) && inFlight then Some((Failed("DISCONNECTED"), None)) else None
    case Stop => if inFlight then Some((Failed("DISCONNECTED"), None)) else None
    case BackstopFires(fired) => if fired == id then Some((Failed("TIMEOUT"), None)) else None
    case _ => None
  }

  /** Sent, and nothing has decided it since. */
  predicate InFlight(verdict: Option<(Phase, Option<nat>)>) {
    verdict.Some? && verdict.value.0.Pending?
  }

  /** The last thing that decided the command, and the time a reply took. */
  ghost function LastVerdict(inputs: seq<Input>, id: nat, o: Options): Option<(Phase, Option<nat>)>
    requires Run(inputs, o).Some?
    decreases |inputs|
  {
    if inputs == [] then None
    else
      var n := |inputs| - 1;
      var before := LastVerdict(inputs[..n], id, o);
      Verdict(Run(inputs[..n], o).value, inputs[n], id, InFlight(before)).OrElse(before)
  }

  /** What stands in the book is what the last verdict says; what is in flight stands. */
  ghost predicate Stands(b: Book, id: nat, verdict: Option<(Phase, Option<nat>)>) {
    && (id in b.entries ==> verdict == Some((b.entries[id].phase, b.entries[id].elapsed)))
    && (id !in b.entries ==> !InFlight(verdict))
    && (InFlight(verdict) ==> verdict == Some((Pending, None)))
  }

  lemma NoteStands(b: Book, id: nat, component: string, verb: string, instance: Option<string>, cap: nat, x: nat, verdict: Option<(Phase, Option<nat>)>)
    requires BookOk(b) && Stands(b, x, verdict)
    ensures Stands(Note(b, id, component, verb, instance, cap), x, if x == id then Some((Pending, None)) else verdict)
  {
    NotePends(b, id, component, verb, instance, cap);
    hide TrimTo;
  }

  lemma FailStands(b: Book, id: nat, code: string, x: nat, verdict: Option<(Phase, Option<nat>)>)
    requires Stands(b, x, verdict)
    ensures Stands(Fail(b, id, code), x, if x == id && InFlight(verdict) then Some((Failed(code), None)) else verdict)
    ensures Stands(FailAll(b, code), x, if InFlight(verdict) then Some((Failed(code), None)) else verdict)
  {
  }

  lemma SettleStands(b: Book, id: nat, component: string, verb: string, phase: Phase, elapsed: nat, x: nat, verdict: Option<(Phase, Option<nat>)>)
    requires Stands(b, x, verdict) && !phase.Pending?
    ensures Stands(Settle(b, id, component, verb, phase, elapsed), x, if x == id then Some((phase, Some(elapsed))) else verdict)
  {
  }

  lemma InFlightIsArmed(l: Life, id: nat, verdict: Option<(Phase, Option<nat>)>)
    requires Stands(l.book, id, verdict) && CommandsOk(l)
    ensures InFlight(verdict) <==> id in l.timers
    ensures l.stopped ==> !InFlight(verdict)
  {
  }

  /** The book after one call. */
  lemma BookAfter(l: Life, input: Input, o: Options)
    ensures Do(l, input, o).book ==
      match input
      case Invoke(component, verb, instance) =>
        var b := Note(l.book, l.counter + 1, component, verb, instance, o.maxRecent);
        if l.socket.Some? && l.status == Connected then b else Fail(b, l.counter + 1, "DISCONNECTED")
      case Received(socket, frame, _, _) =>
        if l.socket == Some(socket) && frame.Reply?
        then Settle(l.book, frame.id, frame.component, frame.verb, PhaseOf(frame.ok, frame.body), frame.elapsed) else l.book
      case Closed(socket) => if l.socket == Some(socket) then FailAll(l.book, "DISCONNECTED") else l.book
      case Stop => if l.stopped then l.book else FailAll(l.book, "DISCONNECTED")
      case BackstopFires(id) => Fail(l.book, id, "TIMEOUT")
      case _ => l.book
  {
    hide FoldMirror, Delay, Note, Fail, FailAll, Settle, PhaseOf, FleetStore.FromSnapshot;
  }

  lemma InvokeStands(l: Life, component: string, verb: string, instance: Option<string>, id: nat, verdict: Option<(Phase, Option<nat>)>, o: Options)
    requires Stands(l.book, id, verdict) && BookOk(l.book)
    ensures var n := l.counter + 1;
            var b := Note(l.book, n, component, verb, instance, o.maxRecent);
            && Stands(b, id, if id == n then Some((Pending, None)) else verdict)
            && Stands(Fail(b, n, "DISCONNECTED"), id, if id == n then Some((Failed("DISCONNECTED"), None)) else verdict)
  {
    hide BookOk, Note, Fail, Stands;
    var n := l.counter + 1;
    NoteStands(l.book, n, component, verb, instance, o.maxRecent, id, verdict);
    FailStands(Note(l.book, n, component, verb, instance, o.maxRecent), n, "DISCONNECTED", id, if id == n then Some((Pending, None)) else verdict);
  }

  lemma StepStands(l: Life, input: Input, id: nat, verdict: Option<(Phase, Option<nat>)>, o: Options)
    requires Stands(l.book, id, verdict) && CommandsOk(l) && Possible(l, input)
    ensures Stands(Do(l, input, o).book, id, Verdict(l, input, id, InFlight(verdict)).OrElse(verdict))
  {
    BookAfter(l, input, o);
    InFlightIsArmed(l, id, verdict);
    assert BookOk(l.book);
    hide Do, CommandsOk, BookOk, Note, Fail, FailAll, Settle, Stands;
    match input {
      case Invoke(component, verb, instance) => InvokeStands(l, component, verb, instance, id, verdict, o);
      case Received(socket, frame, _, _) =>
        if frame.Reply? {
          SettleStands(l.book, frame.id, frame.component, frame.verb, PhaseOf(frame.ok, frame.body), frame.elapsed, id, verdict);
        }
      case Stop => FailStands(l.book, 0, "DISCONNECTED", id, verdict);
      case Closed(_) => FailStands(l.book, 0, "DISCONNECTED", id, verdict);
      case BackstopFires(fired) => FailStands(l.book, fired, "TIMEOUT", id, verdict);
      case _ =>
    }
  }

  /** Over every run, each entry of the book shows the last thing that decided its command: sent,
      answered (with the reply's success or refusal and its time), cut off by a close, a stop or
      an offline request, or timed out; a command in flight always has its entry. */
  lemma {:induction false} EntriesAreVerdicts(inputs: seq<Input>, id: nat, o: Options)
    requires Run(inputs, o).Some?
    ensures Stands(Run(inputs, o).value.book, id, LastVerdict(inputs, id, o))
    decreases |inputs|
  {
    hide Do, Verdict, Possible, Stands, LifeOk;
    if inputs == [] {
      EmptyStands(id);
    } else {
      var n := |inputs| - 1;
      var l := Run(inputs[..n], o).value;
      EntriesAreVerdicts(inputs[..n], id, o);
      ClientNeverStuck(inputs[..n], o);
      assert CommandsOk(l) by { LifeHasCommands(l, o); }
      StepStands(l, inputs[n], id, LastVerdict(inputs[..n], id, o), o);
    }
  }

  lemma LifeHasCommands(l: Life, o: Options)
    requires LifeOk(l, o)
    ensures CommandsOk(l)
  {
  }

  lemma EmptyStands(id: nat)
    ensures Stands(Init().book, id, None)
  {
  }

  // ------------------------------------------------------------------ what the connection remembers

  /** The time of the last sign of life: a start, the open of the live socket, a frame from it. */
  ghost function LastStamp(inputs: seq<Input>, o: Options): nat
    requires Run(inputs, o).Some?
    decreases |inputs|
  {
    if inputs == [] then 0
    else
      var n := |inputs| - 1;
      var l, before := Run(inputs[..n], o).value, LastStamp(inputs[..n], o);
      match inputs[n]
      case Start(now, _) => if l.stopped then now else before
      case Opened(socket, now) => if l.socket == Some(socket) then now else before
      case Received(socket, _, now, _) => if l.socket == Some(socket) then now else before
      case _ => before
  }

  /** The live socket has opened. */
  ghost function HasOpened(inputs: seq<Input>, o: Options): bool
    requires Run(inputs, o).Some?
    decreases |inputs|
  {
    inputs != [] &&
    var n := |inputs| - 1;
    var l, l' := Run(inputs[..n], o).value, Run(inputs, o).value;
    l'.socket.Some? && ((inputs[n].Opened? && l.socket == Some(inputs[n].socket)) || (l'.socket == l.socket && HasOpened(inputs[..n], o)))
  }

  /** How often a retry was armed since the last frame that was neither ignored nor fatal. */
  ghost function ArmedSince(inputs: seq<Input>, o: Options): nat
    requires Run(inputs, o).Some?
    decreases |inputs|
  {
    if inputs == [] then 0
    else
      var n := |inputs| - 1;
      var l, l' := Run(inputs[..n], o).value, Run(inputs, o).value;
      var heard := inputs[n].Received? && l.socket == Some(inputs[n].socket) && !inputs[n].frame.VersionError? && !inputs[n].frame.Ignored?;
      (if heard then 0 else ArmedSince(inputs[..n], o))
      + if l'.retryTimer.Some? && (l.retryTimer.None? || inputs[n].RetryFires?) then 1 else 0
  }

  ghost function Requests(inputs: seq<Input>): nat
    decreases |inputs|
  {
    if inputs == [] then 0 else Requests(inputs[..|inputs| - 1]) + if inputs[|inputs| - 1].Invoke? then 1 else 0
  }

  /** One call's effect on what the connection remembers. */
  lemma StepRemembers(l: Life, input: Input, o: Options)
    requires NeverStuck(l) && Possible(l, input)
    ensures var l' := Do(l, input, o);
            && l'.lastFrameAt == (match input
                                  case Start(now, _) => if l.stopped then now else l.lastFrameAt
                                  case Opened(socket, now) => if l.socket == Some(socket) then now else l.lastFrameAt
                                  case Received(socket, _, now, _) => if l.socket == Some(socket) then now else l.lastFrameAt
                                  case _ => l.lastFrameAt)
            && l'.counter == l.counter + (if input.Invoke? then 1 else 0)
            && (l'.status == Connected <==>
                  l'.socket.Some? && ((input.Opened? && l.socket == Some(input.socket)) || (l'.socket == l.socket && l.status == Connected)))
            && (l'.everConnected <==> l.everConnected || (input.Opened? && l.socket == Some(input.socket)))
            && var heard := input.Received? && l.socket == Some(input.socket) && !input.frame.VersionError? && !input.frame.Ignored?;
               l'.retries == (if heard then 0 else l.retries)
                             + if l'.retryTimer.Some? && (l.retryTimer.None? || input.RetryFires?) then 1 else 0
  {
    hide FoldMirror, Delay, FailAll, Settle, Fail, Note, FleetStore.FromSnapshot;
  }

  /** The client's own record of the connection over every run: the time of the last sign of life,
      whether the live socket has opened, how often a retry was armed since the server was last
      heard, and how many commands were asked for. */
  lemma {:induction false} ConnectionRemembers(inputs: seq<Input>, o: Options)
    requires Run(inputs, o).Some?
    ensures var l := Run(inputs, o).value;
            && l.lastFrameAt == LastStamp(inputs, o) && l.retries == ArmedSince(inputs, o) && l.counter == Requests(inputs)
            && (l.status == Connected <==> HasOpened(inputs, o))
    decreases |inputs|
  {
    hide Do, Possible, LifeOk;
    if inputs != [] {
      var n := |inputs| - 1;
      var l := Run(inputs[..n], o).value;
      ConnectionRemembers(inputs[..n], o);
      ClientNeverStuck(inputs[..n], o);
      LifeIsNotStuck(l, o);
      StepRemembers(l, inputs[n], o);
    }
  }

  lemma LifeIsNotStuck(l: Life, o: Options)
    requires LifeOk(l, o)
    ensures NeverStuck(l)
  {
  }

  /** In any run, the watchdog tears down the live socket exactly when the last sign of life is
      longer ago than the idle timeout. */
  lemma SilenceIsTornDown(inputs: seq<Input>, now: nat, o: Options)
    requires Run(inputs, o).Some? && Run(inputs, o).value.socket.Some?
    ensures Do(Run(inputs, o).value, WatchdogTicks(now), o).socket.None? <==> now > LastStamp(inputs, o) + o.idleTimeout
  {
    hide Run, LastStamp, ArmedSince, Delay;
    ConnectionRemembers(inputs, o);
    ClientNeverStuck(inputs, o);
  }
}
