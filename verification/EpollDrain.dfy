/**
 The event loop of io_template/epoll/epoll.cpp over the FIFOs it opened.

 Each FIFO is a stream with one writer that sends a fixed finite sequence through a bounded kernel
 buffer and then hangs up for good. Argument i opens the stream names[i]; an argument may be repeated,
 so that several descriptors share one stream. Opening a stream whose writer hung up blocks.
 epoll_wait takes a snapshot of up to five ready descriptors, which the loop then handles while
 writers go on. A label names what moves and carries the kernel's choices: which descriptors are
 reported and how many bytes a read returns.
 */
module EpollDrain {
  import opened Sums
  import opened Runs

  const MAX_EVENTS: nat := 5
  const MAX_BUF: nat := 1000

  datatype Phase = Unopened | Open | Closed

  /** `attached`: some descriptor was opened, so that the writer got past its own open. */
  datatype Stream = Stream(
    source: string, unsent: string, buffer: string, received: string, hungUp: bool, attached: bool)

  datatype Event = Event(fd: nat, readable: bool, hup: bool)

  /** Refused: epoll_create rejects a size of zero, so the program ends at once without arguments. */
  datatype MainPc = Create | Register(k: nat) | Test | Wait | Handle(i: nat) | Done | Refused

  datatype State = State(
    cap: nat, names: seq<nat>, streams: seq<Stream>, phases: seq<Phase>,
    main: MainPc, events: seq<Event>, numOpen: int)

  datatype Label =
    | Main
    | Ready(events: seq<Event>)
    | Interrupt
    | Read(count: nat)
    | Send(x: nat, count: nat)
    | HangUp(x: nat)

  function NewStream(source: string): Stream {
    Stream(source, source, "", "", false, false)
  }

  function NewStreams(sources: seq<string>): seq<Stream> {
    seq(|sources|, i requires 0 <= i < |sources| => NewStream(sources[i]))
  }

  function Init(sources: seq<string>, names: seq<nat>, cap: nat): State {
    State(cap, names, NewStreams(sources), seq(|names|, _ => Unopened), Create, [], 0)
  }

  predicate Names(names: seq<nat>, sources: seq<string>) {
    forall i | 0 <= i < |names| :: names[i] < |sources|
  }

  /** No two descriptors share a stream. */
  predicate Separate(names: seq<nat>) {
    forall i, j | 0 <= i < j < |names| :: names[i] != names[j]
  }

  /** The descriptor `fd` and its stream exist. */
  predicate Known(s: State, fd: nat) {
    fd < |s.names| && fd < |s.phases| && s.names[fd] < |s.streams|
  }

  function Behind(s: State, fd: nat): Stream
    requires Known(s, fd)
  {
    s.streams[s.names[fd]]
  }

  function Put(s: State, x: nat, y: Stream): State
    requires x < |s.streams|
  {
    s.(streams := s.streams[x := y])
  }

  /** A descriptor's report is its readiness at the time of the call. */
  predicate Reported(s: State, v: Event) {
    && Known(s, v.fd)
    && s.phases[v.fd].Open?
    && v.readable == (Behind(s, v.fd).buffer != "")
    && v.hup == Behind(s, v.fd).hungUp
    && (v.readable || v.hup)
  }

  predicate Distinct(events: seq<Event>) {
    forall i, j | 0 <= i < j < |events| :: events[i].fd != events[j].fd
  }

  predicate Snapshot(s: State, events: seq<Event>) {
    && 0 < |events| <= MAX_EVENTS
    && Distinct(events)
    && forall i | 0 <= i < |events| :: Reported(s, events[i])
  }

  /** Bytes a read may return: some of what is buffered, or none at end of file. */
  predicate ReadMayReturn(x: Stream, count: nat) {
    if x.buffer == "" then x.hungUp && count == 0 else 0 < count <= |x.buffer| && count <= MAX_BUF
  }

  function Step(s: State, e: Label): Option<State> {
    match e
    case Main => MainStep(s)
    case Ready(events) =>
      if s.main.Wait? && Snapshot(s, events) then Some(s.(main := Handle(0), events := events)) else None
    case Interrupt => if s.main.Wait? then Some(s.(main := Test)) else None
    case Read(count) => ReadStep(s, count)
    case Send(x, count) => SendStep(s, x, count)
    case HangUp(x) =>
      if x < |s.streams| && s.streams[x].attached && s.streams[x].unsent == "" && !s.streams[x].hungUp
      then Some(Put(s, x, s.streams[x].(hungUp := true))) else None
  }

  /** The event being handled. */
  predicate AtEvent(s: State) {
    s.main.Handle? && s.main.i < |s.events| && Known(s, s.events[s.main.i].fd)
  }

  function Current(s: State): nat
    requires AtEvent(s)
  {
    s.events[s.main.i].fd
  }

  function MainStep(s: State): Option<State> {
    match s.main
    case Create => Some(s.(main := if |s.names| == 0 then Refused else Register(0)))
    case Refused => None
    case Register(k) => if k < |s.names| then OpenStep(s, k) else Some(s.(main := Test, numOpen := |s.names|))
    case Test => Some(s.(main := if s.numOpen > 0 then Wait else Done))
    case Wait => None
    case Handle(i) =>
      if i >= |s.events| then Some(s.(main := Test))
      else if !AtEvent(s) || s.events[i].readable then None
      else if s.events[i].hup then
        Some(s.(phases := s.phases[Current(s) := Closed], main := Handle(i + 1), numOpen := s.numOpen - 1))
      else Some(s.(main := Handle(i + 1)))
    case Done => None
  }

  function OpenStep(s: State, k: nat): Option<State> {
    if Known(s, k) && !Behind(s, k).hungUp
    then
      Some(Put(s, s.names[k], Behind(s, k).(attached := true))
           .(phases := s.phases[k := Open], main := Register(k + 1)))
    else None
  }

  function ReadStep(s: State, count: nat): Option<State> {
    if AtEvent(s) && s.events[s.main.i].readable && ReadMayReturn(Behind(s, Current(s)), count) then
      var y := Behind(s, Current(s));
      assert count <= |y.buffer|;
      Some(Put(s, s.names[Current(s)], y.(buffer := y.buffer[count..], received := y.received + y.buffer[..count]))
           .(main := Handle(s.main.i + 1)))
    else None
  }

  function SendStep(s: State, x: nat, count: nat): Option<State> {
    if x < |s.streams| && s.streams[x].attached && 0 < count <= |s.streams[x].unsent|
       && |s.streams[x].buffer| + count <= s.cap then
      var y := s.streams[x];
      Some(Put(s, x, y.(unsent := y.unsent[count..], buffer := y.buffer + y.unsent[..count])))
    else None
  }

  // ----- invariant

  ghost predicate StreamInv(y: Stream, cap: nat) {
    && y.received + y.buffer + y.unsent == y.source
    && |y.buffer| <= cap
    && (y.hungUp ==> y.unsent == "" && y.attached)
  }

  ghost predicate StreamsInv(s: State) {
    forall x | 0 <= x < |s.streams| :: StreamInv(s.streams[x], s.cap)
  }

  ghost predicate PhasesInv(s: State) {
    && |s.phases| == |s.names|
    && (forall i | 0 <= i < |s.names| :: Known(s, i))
    && (forall i: nat | i < |s.names| && !s.phases[i].Unopened? :: Behind(s, i).attached)
    && (forall i: nat | i < |s.names| && s.phases[i].Closed? :: Behind(s, i).hungUp && Behind(s, i).buffer == "")
  }

  predicate Starting(m: MainPc) { m.Create? || m.Register? }

  ghost predicate RegistrationInv(s: State) {
    && (s.main.Create? ==> forall i | 0 <= i < |s.phases| :: s.phases[i].Unopened?)
    && (s.main.Register? ==>
          && s.main.k <= |s.phases|
          && forall i | 0 <= i < |s.phases| :: s.phases[i] == if i < s.main.k then Open else Unopened)
    && (s.main.Refused? ==> s.phases == [])
    && (s.phases == [] ==> s.main.Create? || s.main.Refused?)
    && (!Starting(s.main) ==> forall i | 0 <= i < |s.phases| :: !s.phases[i].Unopened?)
  }

  /** Nothing is read during registration, and only registration opens a stream. */
  ghost predicate StartInv(s: State) {
    && (Starting(s.main) ==> forall x | 0 <= x < |s.streams| :: s.streams[x].received == "")
    && (s.main.Create? ==> forall x | 0 <= x < |s.streams| :: !s.streams[x].attached)
    && (s.main.Register? ==>
          && s.main.k <= |s.names|
          && forall x: nat | x < |s.streams| && s.streams[x].attached :: x in s.names[..s.main.k])
    && (!Starting(s.main) ==> forall x: nat | x < |s.streams| && s.streams[x].attached :: x in s.names)
  }

  /** What a report still means when its turn comes. */
  ghost predicate StillValid(s: State, v: Event) {
    && Known(s, v.fd)
    && s.phases[v.fd].Open?
    && (v.readable ==> Behind(s, v.fd).source != "")
    && (!v.readable ==> v.hup && Behind(s, v.fd).hungUp && Behind(s, v.fd).buffer == "")
  }

  /** Two events of the snapshot report descriptors of one stream. */
  predicate SameStream(s: State, j: nat, k: nat) {
    && j < |s.events| && Known(s, s.events[j].fd)
    && k < |s.events| && Known(s, s.events[k].fd)
    && s.names[s.events[j].fd] == s.names[s.events[k].fd]
  }

  /** The bytes that made event k readable may be gone only if an earlier event shares its stream. */
  ghost predicate StillReadable(s: State, k: nat)
    requires s.main.Handle? && k < |s.events| && Known(s, s.events[k].fd)
  {
    s.events[k].readable && Behind(s, s.events[k].fd).buffer == "" ==>
      exists j: nat :: j < k && j < s.main.i && SameStream(s, j, k)
  }

  ghost predicate SnapshotInv(s: State) {
    s.main.Handle? ==>
      && s.main.i <= |s.events| <= MAX_EVENTS && 0 < |s.events|
      && Distinct(s.events)
      && (forall k: nat | s.main.i <= k < |s.events| :: StillValid(s, s.events[k]) && StillReadable(s, k))
  }

  function OpenOne(p: Phase): int { if p.Open? then 1 else 0 }

  function OpenFds(phases: seq<Phase>): int { Sum(OpenOne, phases) }

  ghost predicate CountInv(s: State) {
    && s.numOpen == (if Starting(s.main) then 0 else OpenFds(s.phases))
    && (s.main.Wait? ==> s.numOpen > 0)
    && (s.main.Done? ==> s.numOpen <= 0)
  }

  ghost predicate Inv(s: State) {
    && StreamsInv(s) && PhasesInv(s) && RegistrationInv(s) && StartInv(s)
    && SnapshotInv(s) && CountInv(s)
  }

  lemma {:induction false} InitInv(sources: seq<string>, names: seq<nat>, cap: nat)
    requires Names(names, sources)
    ensures Inv(Init(sources, names, cap))
  {
  }

  /** The stream a step changes, if any. */
  function Touched(s: State, e: Label): Option<nat> {
    match e
    case Main => if s.main.Register? && s.main.k < |s.names| then Some(s.names[s.main.k]) else None
    case Ready(_) => None
    case Interrupt => None
    case Read(_) => if AtEvent(s) then Some(s.names[Current(s)]) else None
    case Send(x, _) => Some(x)
    case HangUp(x) => Some(x)
  }

  /** What a writer, an open or a read may do to a stream. */
  predicate Evolves(y: Stream, z: Stream) {
    && z.source == y.source
    && (y.attached ==> z.attached)
    && (y.hungUp ==> z.hungUp && z.unsent == y.unsent)
    && (y.hungUp && y.buffer == "" ==> z.buffer == "")
  }

  lemma {:induction false} StepTouchesOne(s: State, e: Label)
    requires Step(s, e).Some?
    ensures var t := Step(s, e).value;
            |t.streams| == |s.streams| && t.cap == s.cap && t.names == s.names && |t.phases| == |s.phases|
    ensures var t := Step(s, e).value;
            t.streams == match Touched(s, e)
                         case None => s.streams
                         case Some(x) => if x < |s.streams| then s.streams[x := t.streams[x]] else s.streams
  {
  }

  lemma {:induction false} TouchedEvolves(s: State, e: Label)
    requires StreamsInv(s) && Step(s, e).Some?
    requires Touched(s, e).Some? && Touched(s, e).value < |s.streams|
    ensures var x, t := Touched(s, e).value, Step(s, e).value;
            |t.streams| == |s.streams| && Evolves(s.streams[x], t.streams[x]) && StreamInv(t.streams[x], t.cap)
  {
    var x := Touched(s, e).value;
    assert StreamInv(s.streams[x], s.cap);
    var y, z := s.streams[x], Step(s, e).value.streams[x];
    assert z.received + z.buffer + z.unsent == y.received + y.buffer + y.unsent;
  }

  lemma {:induction false} StepEvolves(s: State, e: Label, x: nat)
    requires StreamsInv(s) && Step(s, e).Some? && x < |s.streams|
    ensures var t := Step(s, e).value; |t.streams| == |s.streams| && Evolves(s.streams[x], t.streams[x])
  {
    StepTouchesOne(s, e);
    if Touched(s, e) == Some(x) {
      TouchedEvolves(s, e);
    }
  }

  lemma {:induction false} StepKeepsStreams(s: State, e: Label)
    requires StreamsInv(s) && Step(s, e).Some?
    ensures StreamsInv(Step(s, e).value)
  {
    StepTouchesOne(s, e);
    var x := Touched(s, e);
    if x.Some? && x.value < |s.streams| {
      TouchedEvolves(s, e);
    }
  }

  /** How one step changes the phase of a descriptor. */
  lemma {:induction false} StepPhases(s: State, e: Label, i: nat)
    requires Step(s, e).Some? && i < |s.phases| && i < |s.names|
    requires AtEvent(s) ==> StillValid(s, s.events[s.main.i])
    ensures var t := Step(s, e).value;
            |t.phases| == |s.phases| &&
            (|| t.phases[i] == s.phases[i]
             || (t.phases[i].Open? && Known(t, i) && Behind(t, i).attached)
             || (t.phases[i].Closed? && s.phases[i].Open? && Known(t, i) && Behind(t, i).hungUp
                 && Behind(t, i).buffer == ""))
  {
  }

  lemma {:induction false} StepKeepsPhases(s: State, e: Label)
    requires StreamsInv(s) && PhasesInv(s) && SnapshotInv(s) && Step(s, e).Some?
    ensures PhasesInv(Step(s, e).value)
  {
    var t := Step(s, e).value;
    StepTouchesOne(s, e);
    forall i: nat | i < |s.names|
      ensures Known(t, i)
      ensures !t.phases[i].Unopened? ==> Behind(t, i).attached
      ensures t.phases[i].Closed? ==> Behind(t, i).hungUp && Behind(t, i).buffer == ""
    {
      assert Known(s, i);
      StepEvolves(s, e, s.names[i]);
      StepPhases(s, e, i);
      assert StreamInv(s.streams[s.names[i]], s.cap);
    }
  }

  lemma {:induction false} StepKeepsRegistration(s: State, e: Label)
    requires RegistrationInv(s) && |s.phases| == |s.names| && Step(s, e).Some?
    ensures RegistrationInv(Step(s, e).value)
  {
  }

  lemma {:induction false} StepKeepsStart(s: State, e: Label)
    requires StartInv(s) && Step(s, e).Some?
    ensures StartInv(Step(s, e).value)
  {
    StepTouchesOne(s, e);
    if s.main.Register? && e.Main? && s.main.k < |s.names| {
      assert s.names[..s.main.k + 1] == s.names[..s.main.k] + [s.names[s.main.k]];
    } else if s.main.Register? && e.Main? {
      assert s.names[..s.main.k] == s.names;
    }
  }

  lemma {:induction false} ReadyKeepsSnapshot(s: State, events: seq<Event>)
    requires StreamsInv(s) && s.main.Wait? && Snapshot(s, events)
    ensures SnapshotInv(s.(main := Handle(0), events := events))
  {
    var t := s.(main := Handle(0), events := events);
    forall k: nat | k < |events| ensures StillValid(t, events[k]) && StillReadable(t, k) {
      assert Reported(s, events[k]);
      assert StreamInv(Behind(s, events[k].fd), s.cap);
    }
  }

  /** A descriptor that an event of the snapshot after the current one names stays open. */
  lemma {:induction false} EventKeepsPhase(s: State, e: Label, k: nat)
    requires SnapshotInv(s) && Step(s, e).Some? && Step(s, e).value.main.Handle? && s.main.Handle?
    requires s.main.i <= k < |s.events| && Step(s, e).value.main.i <= k
    ensures Step(s, e).value.phases == s.phases || Step(s, e).value.phases == s.phases[Current(s) := Closed]
    ensures Step(s, e).value.events == s.events && s.main.i <= Step(s, e).value.main.i <= s.main.i + 1
    ensures Known(s, s.events[k].fd) && Step(s, e).value.phases[s.events[k].fd] == s.phases[s.events[k].fd]
  {
    assert StillValid(s, s.events[s.main.i]);
    assert StillValid(s, s.events[k]);
  }

  lemma {:induction false} EventStaysReadable(s: State, e: Label, k: nat)
    requires StreamsInv(s) && SnapshotInv(s) && Step(s, e).Some? && s.main.Handle?
    requires Step(s, e).value.main.Handle? && Step(s, e).value.main.i <= k < |s.events|
    requires s.main.i <= Step(s, e).value.main.i && Step(s, e).value.events == s.events
    requires Known(s, s.events[k].fd) && Known(Step(s, e).value, s.events[k].fd)
    ensures StillReadable(Step(s, e).value, k)
  {
    var t := Step(s, e).value;
    StepTouchesOne(s, e);
    assert StillReadable(s, k);
    if s.events[k].readable && Behind(t, s.events[k].fd).buffer == "" {
      var j := s.main.i;
      if Behind(s, s.events[k].fd).buffer == "" {
        j :| 0 <= j < k && j < s.main.i && SameStream(s, j, k);
      }
      assert j < t.main.i && SameStream(t, j, k);
    }
  }

  lemma {:induction false} StepKeepsSnapshot(s: State, e: Label)
    requires StreamsInv(s) && SnapshotInv(s) && Step(s, e).Some?
    ensures SnapshotInv(Step(s, e).value)
  {
    var t := Step(s, e).value;
    if e.Ready? {
      ReadyKeepsSnapshot(s, e.events);
    } else if t.main.Handle? {
      StepTouchesOne(s, e);
      forall k: nat | t.main.i <= k < |t.events| ensures StillValid(t, t.events[k]) && StillReadable(t, k) {
        EventKeepsPhase(s, e, k);
        assert StillValid(s, s.events[k]);
        StepEvolves(s, e, s.names[s.events[k].fd]);
        EventStaysReadable(s, e, k);
      }
    }
  }

  lemma {:induction false} StepKeepsCount(s: State, e: Label)
    requires PhasesInv(s) && RegistrationInv(s) && SnapshotInv(s) && CountInv(s) && Step(s, e).Some?
    ensures CountInv(Step(s, e).value)
  {
    if s.main.Register? && s.main.k == |s.phases| {
      Bounds(OpenOne, s.phases, 1, 1);
    } else if e.Main? && AtEvent(s) {
      assert StillValid(s, s.events[s.main.i]);
      Update(OpenOne, s.phases, Current(s), Closed);
    }
  }

  lemma {:induction false} StepKeepsInv(s: State, e: Label)
    requires Inv(s) && Step(s, e).Some?
    ensures Inv(Step(s, e).value)
  {
    StepKeepsStreams(s, e);
    StepKeepsPhases(s, e);
    StepKeepsRegistration(s, e);
    StepKeepsStart(s, e);
    StepKeepsSnapshot(s, e);
    StepKeepsCount(s, e);
  }

  lemma {:induction false} InvInductive()
    ensures Inductive(Step, Inv)
  {
    forall s: State, e: Label | Inv(s) && Step(s, e).Some? ensures Inv(Step(s, e).value) {
      StepKeepsInv(s, e);
    }
  }

  /** What no step changes. */
  ghost predicate Carries(s: State, sources: seq<string>, names: seq<nat>, cap: nat) {
    && s.names == names && s.cap == cap && |s.streams| == |sources| && |s.phases| == |names|
    && forall x | 0 <= x < |sources| :: s.streams[x].source == sources[x]
  }

  lemma {:induction false} SourcesKept(sources: seq<string>, names: seq<nat>, cap: nat, s: State)
    requires Names(names, sources) && Reachable(Step, Init(sources, names, cap), s)
    ensures Carries(s, sources, names, cap)
  {
    var carries := (s: State) => Inv(s) && Carries(s, sources, names, cap);
    forall s: State, e: Label | carries(s) && Step(s, e).Some? ensures carries(Step(s, e).value) {
      StepKeepsInv(s, e);
      StepTouchesOne(s, e);
      forall x: nat | x < |sources| ensures Step(s, e).value.streams[x].source == sources[x] {
        StepEvolves(s, e, x);
      }
    }
    InitInv(sources, names, cap);
    AlwaysReachable(Step, carries, Init(sources, names, cap), s);
  }

  lemma {:induction false} ReachableInv(sources: seq<string>, names: seq<nat>, cap: nat, s: State)
    requires Names(names, sources) && Reachable(Step, Init(sources, names, cap), s)
    ensures Inv(s) && Carries(s, sources, names, cap)
  {
    InvInductive();
    InitInv(sources, names, cap);
    AlwaysReachable(Step, Inv, Init(sources, names, cap), s);
    SourcesKept(sources, names, cap, s);
  }

  // ----- which steps are possible

  /** Main waits only for a report, for an open whose writer is gone, and for the read at hand. */
  lemma {:induction false} MainPossible(sources: seq<string>, names: seq<nat>, cap: nat, s: State)
    requires Names(names, sources) && Reachable(Step, Init(sources, names, cap), s)
    ensures Step(s, Main).None? <==>
            || s.main.Refused? || s.main.Done? || s.main.Wait? || OpenBlocked(s) || Reading(s)
    ensures Step(s, Interrupt).Some? <==> s.main.Wait?
  {
    ReachableInv(sources, names, cap, s);
    if AtEvent(s) {
      assert StillValid(s, s.events[s.main.i]);
    }
    if s.main.Register? && s.main.k < |s.names| {
      assert Known(s, s.main.k);
    }
  }

  /** epoll_wait can report any one to five different descriptors that are open and have data or lost their
      writer, and only those, as they are. */
  lemma {:induction false} ReadyPossible(
    sources: seq<string>, names: seq<nat>, cap: nat, s: State, events: seq<Event>)
    requires Names(names, sources) && Reachable(Step, Init(sources, names, cap), s)
    ensures Step(s, Ready(events)).Some? <==>
            && s.main.Wait? && 1 <= |events| <= 5
            && (forall i, j | 0 <= i < j < |events| :: events[i].fd != events[j].fd)
            && (forall v | v in events ::
                  && v.fd < |names| && names[v.fd] < |s.streams| && v.fd < |s.phases| && s.phases[v.fd].Open?
                  && (v.readable <==> s.streams[names[v.fd]].buffer != "")
                  && (v.hup <==> s.streams[names[v.fd]].hungUp) && (v.readable || v.hup))
  {
    ReachableInv(sources, names, cap, s);
    if forall i | 0 <= i < |events| :: Reported(s, events[i]) {
      forall v | v in events ensures Reported(s, v) {
        var i :| 0 <= i < |events| && events[i] == v;
      }
    }
  }

  /** A read returns any number of bytes that are there up to 1000, or end of file once the writer is gone
      and the buffer empty; it takes the front of the buffer. */
  lemma {:induction false} ReadPossible(
    sources: seq<string>, names: seq<nat>, cap: nat, s: State, count: nat)
    requires Names(names, sources) && Reachable(Step, Init(sources, names, cap), s) && Reading(s)
    ensures var x := s.names[Current(s)];
            var y, t := s.streams[x], Step(s, Read(count));
            && (t.Some? <==> (0 < count <= |y.buffer| && count <= 1000)
                             || (count == 0 && y.buffer == "" && y.hungUp))
            && (t.Some? ==> t.value.streams[x].received == y.received + y.buffer[..count]
                            && t.value.main == Handle(s.main.i + 1))
  {
    ReachableInv(sources, names, cap, s);
  }

  /** A writer can send any piece that fits, and hang up at its end, once its stream has been opened. */
  lemma {:induction false} WriterPossible(
    sources: seq<string>, names: seq<nat>, cap: nat, s: State, x: nat, count: nat)
    requires Names(names, sources) && Reachable(Step, Init(sources, names, cap), s) && x < |s.streams|
    ensures var y := s.streams[x];
            var used := exists i :: 0 <= i < |names| && i < |s.phases| && names[i] == x && !s.phases[i].Unopened?;
            && (Step(s, Send(x, count)).Some? <==> used && 0 < count <= |y.unsent| && |y.buffer| + count <= cap)
            && (Step(s, HangUp(x)).Some? <==> used && y.unsent == "" && !y.hungUp)
  {
    ReachableInv(sources, names, cap, s);
    AttachedMeansUsed(s, x);
  }

  lemma {:induction false} AttachedMeansUsed(s: State, x: nat)
    requires PhasesInv(s) && RegistrationInv(s) && StartInv(s) && x < |s.streams|
    ensures s.streams[x].attached <==>
            exists i :: 0 <= i < |s.names| && i < |s.phases| && s.names[i] == x && !s.phases[i].Unopened?
  {
    if s.streams[x].attached {
      var i: nat :| i < |s.names| && s.names[i] == x && (s.main.Register? ==> i < s.main.k);
      assert !s.phases[i].Unopened?;
    }
    if i: nat :| i < |s.names| && i < |s.phases| && s.names[i] == x && !s.phases[i].Unopened? {
      assert Behind(s, i).attached;
    }
  }

  // ----- safety over every schedule

  /** Nothing is lost, duplicated or reordered, and a descriptor is closed only after all of its
      stream was read, also when descriptors share streams. */
  lemma {:induction false} NothingLost(sources: seq<string>, names: seq<nat>, cap: nat, s: State)
    requires Names(names, sources) && Reachable(Step, Init(sources, names, cap), s)
    ensures |s.streams| == |sources| && |s.phases| == |names|
    ensures forall x | 0 <= x < |sources| ::
              s.streams[x].received + s.streams[x].buffer + s.streams[x].unsent == sources[x]
    ensures forall i | 0 <= i < |names| && s.phases[i].Closed? :: s.streams[names[i]].received == sources[names[i]]
  {
    ReachableInv(sources, names, cap, s);
    forall x | 0 <= x < |sources|
      ensures s.streams[x].received + s.streams[x].buffer + s.streams[x].unsent == sources[x]
    {
      assert StreamInv(s.streams[x], s.cap);
    }
    forall i: nat | i < |names| && s.phases[i].Closed?
      ensures s.streams[names[i]].received == sources[names[i]]
    {
      assert Known(s, i) && StreamInv(Behind(s, i), s.cap);
    }
  }

  predicate Delivered(t: State, sources: seq<string>, names: seq<nat>) {
    && |t.phases| == |names| && |t.streams| == |sources|
    && forall i | 0 <= i < |names| ::
         t.phases[i].Closed? && names[i] < |sources| && t.streams[names[i]].received == sources[names[i]]
  }

  lemma {:induction false} FinishedReadAll(sources: seq<string>, names: seq<nat>, cap: nat, s: State)
    requires Names(names, sources) && Reachable(Step, Init(sources, names, cap), s)
    requires s.main.Done?
    ensures Delivered(s, sources, names)
  {
    NothingLost(sources, names, cap, s);
    ReachableInv(sources, names, cap, s);
    forall i: nat | i < |names| ensures s.phases[i].Closed? {
      AtLeast(OpenOne, s.phases, i);
    }
  }

  lemma {:induction false} OpenCount(sources: seq<string>, names: seq<nat>, cap: nat, s: State)
    requires Names(names, sources) && Reachable(Step, Init(sources, names, cap), s)
    requires !Starting(s.main)
    ensures s.numOpen == OpenFds(s.phases)
  {
    ReachableInv(sources, names, cap, s);
  }

  // ----- reads that block

  predicate Reading(s: State) { AtEvent(s) && s.events[s.main.i].readable }

  /** The reported bytes are gone and the writer is still there. */
  predicate ReadBlocked(s: State) {
    Reading(s) && Behind(s, Current(s)).buffer == "" && !Behind(s, Current(s)).hungUp
  }

  lemma {:induction false} ReadBlockedMeans(s: State)
    requires Reading(s)
    ensures ReadBlocked(s) <==> forall count: nat :: Step(s, Read(count)).None?
  {
    if !ReadBlocked(s) {
      assert Step(s, Read(0)).Some? || Step(s, Read(1)).Some?;
    }
  }

  predicate Shared(names: seq<nat>, i: nat, j: nat) {
    i < j < |names| && names[i] == names[j]
  }

  lemma {:induction false} StaleMeansShared(s: State) returns (i: nat, j: nat)
    requires Inv(s) && Reading(s) && Behind(s, Current(s)).buffer == ""
    ensures s.main.i > 0 && Shared(s.names, i, j) && s.names[i] == s.names[Current(s)]
    ensures Behind(s, Current(s)).source != ""
  {
    assert StillValid(s, s.events[s.main.i]) && StillReadable(s, s.main.i);
    var k: nat :| k < s.main.i && SameStream(s, k, s.main.i);
    i, j := s.events[k].fd, Current(s);
    if i > j {
      i, j := j, i;
    }
  }

  /** Although the snapshot may be stale, a descriptor it reports readable still has data when no
      other descriptor shares its stream: the read neither blocks nor sees end of file. */
  lemma {:induction false} ReadNeverBlocks(sources: seq<string>, names: seq<nat>, cap: nat, s: State)
    requires Names(names, sources) && Reachable(Step, Init(sources, names, cap), s)
    requires Reading(s) && Separate(names)
    ensures Step(s, Read(1)).Some? && Step(s, Read(0)).None?
  {
    ReachableInv(sources, names, cap, s);
    if Behind(s, Current(s)).buffer == "" {
      var i, j := StaleMeansShared(s);
    }
  }

  lemma {:induction false} Next(sources: seq<string>, names: seq<nat>, cap: nat, s: State, e: Label)
    returns (t: State)
    requires Names(names, sources) && Reachable(Step, Init(sources, names, cap), s) && Step(s, e).Some?
    ensures Reachable(Step, Init(sources, names, cap), t) && Step(s, e) == Some(t)
  {
    ReachesNext(Step, Init(sources, names, cap), s, e);
    t := Step(s, e).value;
  }

  /** The first k arguments are opened and no writer has done anything yet. */
  function Opening(sources: seq<string>, names: seq<nat>, cap: nat, k: nat): State
    requires k <= |names|
  {
    State(cap, names,
          seq(|sources|, x requires 0 <= x < |sources| =>
            NewStream(sources[x]).(attached := x in names[..k])),
          seq(|names|, i => if i < k then Open else Unopened), Register(k), [], 0)
  }

  lemma {:induction false} OpeningReached(sources: seq<string>, names: seq<nat>, cap: nat, k: nat)
    requires Names(names, sources) && names != [] && k <= |names|
    ensures Reachable(Step, Init(sources, names, cap), Opening(sources, names, cap, k))
  {
    var init := Init(sources, names, cap);
    if k == 0 {
      ReachesInit(Step, init);
      ReachesNext(Step, init, init, Main);
      var first := Opening(sources, names, cap, 0);
      assert first.streams == init.streams && first.phases == init.phases;
    } else {
      OpeningReached(sources, names, cap, k - 1);
      var s, t := Opening(sources, names, cap, k - 1), Opening(sources, names, cap, k);
      ReachesNext(Step, init, s, Main);
      assert names[..k] == names[..k - 1] + [names[k - 1]];
      assert Step(s, Main).value.streams == t.streams && Step(s, Main).value.phases == t.phases;
    }
  }

  /** One byte arrives while main waits; both descriptors of its stream are reported. */
  lemma {:induction false} BlockedReadReached(sources: seq<string>, names: seq<nat>, cap: nat, i: nat, j: nat)
    returns (t: State)
    requires Names(names, sources) && Shared(names, i, j) && sources[names[i]] != "" && cap > 0
    ensures Reachable(Step, Init(sources, names, cap), t) && ReadBlocked(t)
  {
    OpeningReached(sources, names, cap, |names|);
    t := Opening(sources, names, cap, |names|);
    var x := names[i];
    assert names[..|names|] == names && x in names;
    assert t.streams[x].attached;
    t := Next(sources, names, cap, t, Main);
    t := Next(sources, names, cap, t, Main);
    t := Next(sources, names, cap, t, Send(x, 1));
    var events := [Event(i, true, false), Event(j, true, false)];
    assert Reported(t, events[0]) && Reported(t, events[1]);
    t := Next(sources, names, cap, t, Ready(events));
    t := Next(sources, names, cap, t, Read(1));
  }

  ghost predicate ReadCanBlock(init: State) { exists s: State :: Reachable(Step, init, s) && ReadBlocked(s) }

  /** A read can block exactly when two arguments name the same stream and it carries a byte. */
  lemma {:induction false} ReadBlocksExactly(sources: seq<string>, names: seq<nat>, cap: nat)
    requires Names(names, sources) && cap > 0
    ensures ReadCanBlock(Init(sources, names, cap)) <==>
            exists i: nat, j: nat :: Shared(names, i, j) && sources[names[i]] != ""
  {
    var init := Init(sources, names, cap);
    forall s: State | Reachable(Step, init, s) && ReadBlocked(s)
      ensures exists i: nat, j: nat :: Shared(names, i, j) && sources[names[i]] != ""
    {
      ReachableInv(sources, names, cap, s);
      var i, j := StaleMeansShared(s);
      assert Shared(names, i, j) && sources[names[i]] != "";
    }
    if i: nat, j: nat :| Shared(names, i, j) && sources[names[i]] != "" {
      var t := BlockedReadReached(sources, names, cap, i, j);
    }
  }

  // ----- opens that block

  /** The next stream to open has lost its writer. */
  predicate OpenBlocked(s: State) {
    s.main.Register? && Known(s, s.main.k) && Behind(s, s.main.k).hungUp
  }

  ghost predicate OpenCanBlock(init: State) { exists s: State :: Reachable(Step, init, s) && OpenBlocked(s) }

  /** A writer whose whole stream fits into the kernel buffer may be gone before the second open. */
  predicate SharedAndShort(sources: seq<string>, names: seq<nat>, cap: nat, i: nat, j: nat)
    requires Names(names, sources)
  {
    Shared(names, i, j) && |sources[names[i]]| <= cap
  }

  lemma {:induction false} BlockedOpenReached(sources: seq<string>, names: seq<nat>, cap: nat, i: nat, j: nat)
    returns (t: State)
    requires Names(names, sources) && SharedAndShort(sources, names, cap, i, j)
    ensures Reachable(Step, Init(sources, names, cap), t) && OpenBlocked(t)
  {
    OpeningReached(sources, names, cap, j);
    t := Opening(sources, names, cap, j);
    var x := names[i];
    assert names[..j][i] == x;
    assert t.streams[x].attached;
    if sources[x] != "" {
      t := Next(sources, names, cap, t, Send(x, |sources[x]|));
    }
    t := Next(sources, names, cap, t, HangUp(x));
  }

  lemma {:induction false} BlockedMeansShort(sources: seq<string>, names: seq<nat>, cap: nat, s: State)
    returns (i: nat, j: nat)
    requires Names(names, sources) && Reachable(Step, Init(sources, names, cap), s) && OpenBlocked(s)
    ensures SharedAndShort(sources, names, cap, i, j)
  {
    ReachableInv(sources, names, cap, s);
    j := s.main.k;
    assert StreamInv(Behind(s, j), cap);
    i :| 0 <= i < j && names[i] == names[j];
  }

  /** The open stays blocked whatever happens next. */
  ghost predicate BlockedForGood(s: State) {
    forall es: seq<Label> | Run(Step, s, es).Some? :: OpenBlocked(Run(Step, s, es).value)
  }

  lemma {:induction false} OpenBlockedStays(s: State, e: Label)
    requires Inv(s) && OpenBlocked(s) && Step(s, e).Some?
    ensures OpenBlocked(Step(s, e).value)
  {
    StepTouchesOne(s, e);
    StepEvolves(s, e, s.names[s.main.k]);
  }

  lemma {:induction false} OpenBlockedForGood(s: State)
    requires Inv(s) && OpenBlocked(s)
    ensures BlockedForGood(s)
  {
    var blocked := (s: State) => Inv(s) && OpenBlocked(s);
    forall s: State, e: Label | blocked(s) && Step(s, e).Some? ensures blocked(Step(s, e).value) {
      StepKeepsInv(s, e);
      OpenBlockedStays(s, e);
    }
    forall es: seq<Label> | Run(Step, s, es).Some? ensures OpenBlocked(Run(Step, s, es).value) {
      Always(Step, blocked, s, es);
    }
  }

  /** The program can be blocked in an open exactly when two arguments name the same stream and it fits
      into the kernel buffer, and then it is blocked for good. */
  lemma {:induction false} OpenBlocksExactly(sources: seq<string>, names: seq<nat>, cap: nat)
    requires Names(names, sources)
    ensures OpenCanBlock(Init(sources, names, cap)) <==>
            exists i, j :: SharedAndShort(sources, names, cap, i, j)
    ensures forall s: State | Reachable(Step, Init(sources, names, cap), s) && OpenBlocked(s) :: BlockedForGood(s)
  {
    forall s: State | Reachable(Step, Init(sources, names, cap), s) && OpenBlocked(s)
      ensures BlockedForGood(s)
      ensures exists i, j :: SharedAndShort(sources, names, cap, i, j)
    {
      ReachableInv(sources, names, cap, s);
      OpenBlockedForGood(s);
      var i, j := BlockedMeansShort(sources, names, cap, s);
    }
    if i: nat, j: nat :| SharedAndShort(sources, names, cap, i, j) {
      var t := BlockedOpenReached(sources, names, cap, i, j);
    }
  }

  // ----- each reported descriptor is handled exactly once

  /** A read or a close for the descriptor, whose event is at hand. */
  function HandledCall(fd: nat): (State, Label) -> int {
    (s: State, e: Label) => if AtEvent(s) && Current(s) == fd && (e.Main? || e.Read?) then 1 else 0
  }

  ghost predicate Ahead(s: State, fd: nat)
    requires s.main.Handle?
  {
    exists k :: s.main.i <= k < |s.events| && s.events[k].fd == fd
  }

  predicate NoReport(es: seq<Label>) { forall e | e in es :: !e.Ready? }

  /** Main leaves the events of a snapshot only at their end. */
  lemma {:induction false} StepHandles(s: State, e: Label, fd: nat)
    requires Inv(s) && s.main.Handle? && Step(s, e).Some? && !e.Ready?
    ensures var t := Step(s, e).value;
            if t.main.Handle?
            then One(Ahead(s, fd)) == HandledCall(fd)(s, e) + One(Ahead(t, fd))
            else s.main.i == |s.events| && t.main.Test? && HandledCall(fd)(s, e) == 0
  {
    var t := Step(s, e).value;
    if AtEvent(s) {
      assert StillValid(s, s.events[s.main.i]);
    }
    if t.main.Handle? {
      if k :| t.main.i <= k < |t.events| && t.events[k].fd == fd {
        assert s.events[k].fd == fd;
      }
    }
  }

  ghost function One(b: bool): int { if b then 1 else 0 }

  lemma {:induction false} IdleOutside(s: State, es: seq<Label>, fd: nat)
    requires !s.main.Handle? && NoReport(es) && Run(Step, s, es).Some?
    ensures Charge(Step, HandledCall(fd), s, es) == 0
    decreases |es|
  {
    if es != [] {
      assert es[0] in es && !Step(s, es[0]).value.main.Handle?;
      assert forall e | e in es[1..] :: e in es;
      IdleOutside(Step(s, es[0]).value, es[1..], fd);
    }
  }

  lemma {:induction false} RestHandled(s: State, es: seq<Label>, u: State, fd: nat)
    requires Inv(s) && s.main.Handle? && NoReport(es) && Run(Step, s, es) == Some(u) && !u.main.Handle?
    ensures Charge(Step, HandledCall(fd), s, es) == One(Ahead(s, fd))
    decreases |es|
  {
    assert es[0] in es;
    assert forall e | e in es[1..] :: e in es;
    var t := Step(s, es[0]).value;
    StepHandles(s, es[0], fd);
    StepKeepsInv(s, es[0]);
    if t.main.Handle? {
      RestHandled(t, es[1..], u, fd);
    } else {
      IdleOutside(t, es[1..], fd);
    }
  }

  /** Between a report and the next loop test each reported descriptor is read or closed exactly once, and
      no other one is. */
  lemma {:induction false} ReportsHandledOnce(
    sources: seq<string>, names: seq<nat>, cap: nat, s: State, events: seq<Event>,
    es: seq<Label>, u: State, fd: nat)
    requires Names(names, sources) && Reachable(Step, Init(sources, names, cap), s)
    requires Step(s, Ready(events)).Some? && NoReport(es)
    requires Run(Step, Step(s, Ready(events)).value, es) == Some(u) && !u.main.Handle?
    ensures Charge(Step, HandledCall(fd), Step(s, Ready(events)).value, es) ==
            if exists k :: 0 <= k < |events| && events[k].fd == fd then 1 else 0
  {
    ReachableInv(sources, names, cap, s);
    StepKeepsInv(s, Ready(events));
    RestHandled(Step(s, Ready(events)).value, es, u, fd);
  }

  // ----- each descriptor is closed exactly once

  function CloseCall(fd: nat): (State, Label) -> int {
    (s: State, e: Label) =>
      if e.Main? && AtEvent(s) && Current(s) == fd && !s.events[s.main.i].readable && s.events[s.main.i].hup
      then 1 else 0
  }

  function ClosedFlag(fd: nat): State -> int {
    (s: State) => if fd < |s.phases| && s.phases[fd].Closed? then 1 else 0
  }

  lemma {:induction false} StepCloses(s: State, e: Label, fd: nat)
    requires Inv(s) && Step(s, e).Some?
    ensures ClosedFlag(fd)(Step(s, e).value) == ClosedFlag(fd)(s) + CloseCall(fd)(s, e)
  {
    if AtEvent(s) {
      assert StillValid(s, s.events[s.main.i]);
    }
  }

  lemma {:induction false} ClosedOnce(
    sources: seq<string>, names: seq<nat>, cap: nat, es: seq<Label>, fd: nat, t: State)
    requires Names(names, sources) && Run(Step, Init(sources, names, cap), es) == Some(t)
    ensures Charge(Step, CloseCall(fd), Init(sources, names, cap), es) == ClosedFlag(fd)(t)
    ensures t.main.Done? && fd < |names| ==> Charge(Step, CloseCall(fd), Init(sources, names, cap), es) == 1
  {
    InvInductive();
    InitInv(sources, names, cap);
    forall s: State, e: Label | Inv(s) && Step(s, e).Some?
      ensures ClosedFlag(fd)(Step(s, e).value) == ClosedFlag(fd)(s) + CloseCall(fd)(s, e)
    {
      StepCloses(s, e, fd);
    }
    Ledger(Step, Inv, ClosedFlag(fd), CloseCall(fd), Init(sources, names, cap), es);
    if t.main.Done? {
      FinishedReadAll(sources, names, cap, t);
    }
  }

  // ----- progress

  /** A writer that is not gone can move when its buffer is empty. */
  lemma {:induction false} WriterCanMove(s: State, x: nat) returns (e: Label)
    requires x < |s.streams| && s.streams[x].attached && !s.streams[x].hungUp
    requires s.streams[x].buffer == "" && s.cap > 0
    ensures !e.Interrupt? && Step(s, e).Some?
  {
    e := if s.streams[x].unsent != "" then Send(x, 1) else HangUp(x);
  }

  /** Something other than an interruption can move in every state but the last, unless the program is
      blocked in an open. */
  lemma {:induction false} DeadlockFree(sources: seq<string>, names: seq<nat>, cap: nat, s: State)
    returns (e: Label)
    requires Names(names, sources) && cap > 0
    requires Reachable(Step, Init(sources, names, cap), s)
    requires !s.main.Done? && !s.main.Refused? && !OpenBlocked(s)
    ensures !e.Interrupt? && Step(s, e).Some?
  {
    ReachableInv(sources, names, cap, s);
    if s.main.Wait? {
      var i := Witness(OpenOne, s.phases);
      assert Known(s, i);
      var y := Behind(s, i);
      var report := Event(i, y.buffer != "", y.hungUp);
      if report.readable || report.hup {
        e := Ready([report]);
      } else {
        e := WriterCanMove(s, s.names[i]);
      }
    } else if ReadBlocked(s) {
      assert StillValid(s, s.events[s.main.i]);
      e := WriterCanMove(s, s.names[Current(s)]);
    } else if Reading(s) {
      ReadBlockedMeans(s);
      var count: nat :| Step(s, Read(count)).Some?;
      e := Read(count);
    } else {
      if s.main.Handle? && s.main.i < |s.events| {
        assert StillValid(s, s.events[s.main.i]);
      }
      assert s.main.Register? && s.main.k < |s.names| ==> Known(s, s.main.k);
      e := Main;
    }
  }

  /** What a byte or a close pays for: the handling of one snapshot, whose other events may be stale
      when descriptors share streams. */
  function Price(names: seq<nat>): int { if Separate(names) then 4 else 8 }

  function StreamWork(price: int): Stream -> int {
    (y: Stream) => (price + 1) * |y.unsent| + price * |y.buffer| + (if y.hungUp then 0 else 1)
  }

  function FdWork(price: int): Phase -> int {
    (p: Phase) => if p.Closed? then 0 else price
  }

  function MainWork(s: State): int {
    match s.main
    case Create => |s.names| + 4
    case Refused => 0
    case Register(k) => |s.names| - k + 3
    case Test => 2
    case Wait => 1
    case Handle(i) => if i == 0 then 0 else if Separate(s.names) then 3 else |s.events| - i + 3
    case Done => 0
  }

  function Rank(s: State): int {
    MainWork(s) + Sum(StreamWork(Price(s.names)), s.streams) + Sum(FdWork(Price(s.names)), s.phases)
  }

  function InterruptCost(s: State, e: Label): int { if e.Interrupt? then 2 else 0 }

  lemma {:induction false} MainLowersRank(s: State)
    requires Inv(s) && MainStep(s).Some?
    ensures Rank(MainStep(s).value) + 1 <= Rank(s)
  {
    var t, price := MainStep(s).value, Price(s.names);
    if s.main.Register? && s.main.k < |s.names| {
      Update(StreamWork(price), s.streams, s.names[s.main.k], t.streams[s.names[s.main.k]]);
      Update(FdWork(price), s.phases, s.main.k, Open);
    } else if AtEvent(s) {
      assert StillValid(s, s.events[s.main.i]);
      Update(FdWork(price), s.phases, Current(s), Closed);
    }
  }

  lemma {:induction false} ReadLowersRank(s: State, count: nat)
    requires Inv(s) && ReadStep(s, count).Some?
    ensures Rank(ReadStep(s, count).value) + 1 <= Rank(s)
  {
    var t, x, price := ReadStep(s, count).value, s.names[Current(s)], Price(s.names);
    Update(StreamWork(price), s.streams, x, t.streams[x]);
    if count == 0 {
      var i, j := StaleMeansShared(s);
    } else {
      assert price * |s.streams[x].buffer| >= price * |t.streams[x].buffer| + price;
    }
  }

  lemma {:induction false} SendLowersRank(s: State, x: nat, count: nat)
    requires SendStep(s, x, count).Some?
    ensures Rank(SendStep(s, x, count).value) + 1 <= Rank(s)
  {
    Update(StreamWork(Price(s.names)), s.streams, x, SendStep(s, x, count).value.streams[x]);
  }

  lemma {:induction false} WriterLowersRank(s: State, e: Label)
    requires Step(s, e).Some? && (e.Send? || e.HangUp?)
    ensures Rank(Step(s, e).value) + 1 <= Rank(s)
  {
    match e
    case Send(x, count) => SendLowersRank(s, x, count);
    case HangUp(x) => Update(StreamWork(Price(s.names)), s.streams, x, Step(s, e).value.streams[x]);
  }

  lemma {:induction false} StepLowersRank(s: State, e: Label)
    requires Inv(s) && Step(s, e).Some?
    ensures Rank(Step(s, e).value) + 1 <= Rank(s) + InterruptCost(s, e)
  {
    match e
    case Main => MainLowersRank(s);
    case Read(count) => ReadLowersRank(s, count);
    case Send(_, _) => WriterLowersRank(s, e);
    case HangUp(_) => WriterLowersRank(s, e);
    case _ =>
  }

  function Bytes(sources: seq<string>): nat {
    if sources == [] then 0 else |sources[0]| + Bytes(sources[1..])
  }

  lemma {:induction false} Distributes(a: int, b: int, c: int)
    ensures a * (b + c) == a * b + a * c
  {
  }

  lemma {:induction false} InitWork(sources: seq<string>, price: int)
    ensures Sum(StreamWork(price), NewStreams(sources)) == (price + 1) * Bytes(sources) + |sources|
  {
    if sources != [] {
      assert NewStreams(sources)[1..] == NewStreams(sources[1..]);
      InitWork(sources[1..], price);
      Distributes(price + 1, |sources[0]|, Bytes(sources[1..]));
    }
  }

  lemma {:induction false} InitRank(sources: seq<string>, names: seq<nat>, cap: nat)
    ensures Rank(Init(sources, names, cap)) == (Price(names) + 1) * (Bytes(sources) + |names|) + |sources| + 4
  {
    var phases := Init(sources, names, cap).phases;
    if Separate(names) {
      InitWork(sources, 4);
      Bounds(FdWork(4), phases, 4, 4);
    } else {
      InitWork(sources, 8);
      Bounds(FdWork(8), phases, 8, 8);
    }
  }

  lemma {:induction false} RankNonNegative(s: State)
    requires Inv(s)
    ensures 0 <= Rank(s)
  {
    NonNegative(StreamWork(Price(s.names)), s.streams);
    NonNegative(FdWork(Price(s.names)), s.phases);
  }

  /** Every schedule is finite up to its interruptions, whatever snapshots and chunks the kernel chooses. */
  lemma {:induction false} RunsAreBounded(sources: seq<string>, names: seq<nat>, cap: nat, es: seq<Label>)
    requires Names(names, sources) && Run(Step, Init(sources, names, cap), es).Some?
    ensures |es| <= (Price(names) + 1) * (Bytes(sources) + |names|) + |sources| + 4
                    + Charge(Step, InterruptCost, Init(sources, names, cap), es)
  {
    var init := Init(sources, names, cap);
    InvInductive();
    InitInv(sources, names, cap);
    InitRank(sources, names, cap);
    forall s: State, e: Label | Inv(s) && Step(s, e).Some?
      ensures Rank(Step(s, e).value) + 1 <= Rank(s) + InterruptCost(s, e)
    {
      StepLowersRank(s, e);
    }
    StepBound(Step, Inv, Rank, InterruptCost, init, es);
    Always(Step, Inv, init, es);
    RankNonNegative(Run(Step, init, es).value);
  }

  /** The program is refused exactly when it is given no file. */
  lemma {:induction false} RefusedExactly(sources: seq<string>, names: seq<nat>, cap: nat, s: State)
    requires Names(names, sources) && Reachable(Step, Init(sources, names, cap), s) && !s.main.Create?
    ensures s.main.Refused? <==> names == []
  {
    ReachableInv(sources, names, cap, s);
  }

  /** A schedule that goes on as long as it can without interruptions delivers every stream and ends,
      or is blocked in opening a stream whose writer is gone. */
  lemma {:induction false} MaximalRunsFinish(
    sources: seq<string>, names: seq<nat>, cap: nat, es: seq<Label>, t: State)
    requires Names(names, sources) && cap > 0 && Run(Step, Init(sources, names, cap), es) == Some(t)
    requires forall e: Label :: e.Interrupt? || Step(t, e).None?
    ensures if names == [] then t.main.Refused?
            else if OpenBlocked(t) then exists i: nat, j: nat :: SharedAndShort(sources, names, cap, i, j)
            else t.main.Done? && Delivered(t, sources, names)
  {
    if OpenBlocked(t) {
      RefusedExactly(sources, names, cap, t);
      var i, j := BlockedMeansShort(sources, names, cap, t);
    } else {
      if !t.main.Done? && !t.main.Refused? {
        var e := DeadlockFree(sources, names, cap, t);
      }
      RefusedExactly(sources, names, cap, t);
      if t.main.Done? {
        FinishedReadAll(sources, names, cap, t);
      }
    }
  }

  // ----- the program

  /** The loop's variables and buffers, updated in place, one system call per method. */
  class Program {
    const evlist: array<Event>
    const buf: array<char>
    const cap: nat
    const names: seq<nat>
    var ready: nat
    var numOpenFds: int
    var main: MainPc
    var streams: seq<Stream>
    var phases: seq<Phase>

    ghost predicate Shape()
      reads this, evlist
    {
      evlist.Length == MAX_EVENTS && buf.Length == MAX_BUF && ready <= MAX_EVENTS
    }

    ghost function View(): State
      reads this, evlist
      requires Shape()
    {
      State(cap, names, streams, phases, main, evlist[..ready], numOpenFds)
    }

    ghost predicate Valid()
      reads this, evlist
    {
      Shape() && Inv(View())
    }

    constructor (sources: seq<string>, names: seq<nat>, cap: nat)
      requires Names(names, sources)
      ensures Valid() && View() == Init(sources, names, cap)
      ensures fresh(evlist) && fresh(buf)
    {
      evlist := new Event[MAX_EVENTS](_ => Event(0, false, false));
      buf := new char[MAX_BUF](_ => ' ');
      this.cap, this.names := cap, names;
      streams, phases := NewStreams(sources), seq(|names|, _ => Unopened);
      ready, numOpenFds, main := 0, 0, Create;
      new;
      InitInv(sources, names, cap);
    }

    /** Line 56: epoll_wait fills evlist; its choice must be a snapshot of ready descriptors. */
    method EpollWait(events: seq<Event>) returns (moved: bool)
      requires Valid()
      modifies this, evlist
      ensures Valid()
      ensures Performs(Step, old(View()), Ready(events), moved, View())
    {
      ghost var s := View();
      moved := main == Wait && Snapshot(State(cap, names, streams, phases, main, [], 0), events);
      if moved {
        forall i | 0 <= i < |events| {
          evlist[i] := events[i];
        }
        ready := |events|;
        main := Handle(0);
        assert evlist[..ready] == events;
        StepKeepsInv(s, Ready(events));
      }
    }

    /** Lines 57-59: EINTR. */
    method EpollInterrupted() returns (moved: bool)
      requires Valid()
      modifies this
      ensures Valid()
      ensures Performs(Step, old(View()), Interrupt, moved, View())
    {
      ghost var s := View();
      moved := main == Wait;
      if moved {
        main := Test;
        StepKeepsInv(s, Interrupt);
      }
    }

    /** read(): moves `count` buffered bytes of the stream to the front of buf. */
    method ReadInto(x: nat, count: nat)
      requires x < |streams| && count <= |streams[x].buffer| && count <= buf.Length
      modifies `streams, buf
      ensures buf[..count] == old(streams)[x].buffer[..count]
      ensures streams == old(streams)[x := old(streams)[x].(buffer := old(streams)[x].buffer[count..])]
    {
      var y := streams[x];
      forall i | 0 <= i < count {
        buf[i] := y.buffer[i];
      }
      streams := streams[x := y.(buffer := y.buffer[count..])];
    }

    /** Lines 72-78: read into buf and print what was read. */
    method ReadAndPrint(count: nat) returns (moved: bool)
      requires Valid()
      modifies this, buf
      ensures Valid()
      ensures Performs(Step, old(View()), Read(count), moved, View())
    {
      ghost var s := View();
      moved := main.Handle? && main.i < ready && evlist[main.i].readable;
      if moved {
        assert StillValid(s, s.events[main.i]);
        var x := names[evlist[main.i].fd];
        moved := ReadMayReturn(streams[x], count);
        if moved {
          ReadInto(x, count);
          streams := streams[x := streams[x].(received := streams[x].received + buf[..count])];
          main := Handle(main.i + 1);
          assert View() == Step(s, Read(count)).value;
          StepKeepsInv(s, Read(count));
        }
      }
    }

    /** Lines 66 and 79-87: the end of the snapshot, or the closing branch of the event at hand. */
    method CloseHungUp() returns (moved: bool)
      requires Valid() && main.Handle?
      modifies this
      ensures Valid()
      ensures Performs(Step, old(View()), Main, moved, View())
    {
      ghost var s := View();
      var i := main.i;
      moved := i >= ready || !evlist[i].readable;
      if i >= ready {
        main := Test;
        StepKeepsInv(s, Main);
      } else if moved {
        assert StillValid(s, s.events[i]);
        phases := phases[evlist[i].fd := Closed];
        numOpenFds := numOpenFds - 1;
        main := Handle(i + 1);
        StepKeepsInv(s, Main);
      }
    }

    /** Lines 34-46: open and register the next argument. */
    method RegisterNext() returns (moved: bool)
      requires Valid() && main.Register? && main.k < |names|
      modifies this
      ensures Valid()
      ensures Performs(Step, old(View()), Main, moved, View())
    {
      ghost var s := View();
      var k := main.k;
      assert Known(s, k);
      var x := names[k];
      moved := !streams[x].hungUp;
      if moved {
        streams, phases := streams[x := streams[x].(attached := true)], phases[k := Open];
        main := Register(k + 1);
        StepKeepsInv(s, Main);
      }
    }

    /** Lines 27-33 and 49-54: the instance, the end of registration, the test of the loop and its end. */
    method StepMain() returns (moved: bool)
      requires Valid() && !main.Handle? && !(main.Register? && main.k < |names|)
      modifies this
      ensures Valid()
      ensures Performs(Step, old(View()), Main, moved, View())
    {
      ghost var s := View();
      moved := true;
      match main {
        case Create => main := if |names| == 0 then Refused else Register(0);
        case Register(k) => main, numOpenFds := Test, |names|;
        case Test => main := if numOpenFds > 0 then Wait else Done;
        case _ => moved := false;
      }
      if moved {
        StepKeepsInv(s, Main);
      }
    }

    method WriterSends(x: nat, count: nat) returns (moved: bool)
      requires Valid()
      modifies this
      ensures Valid()
      ensures Performs(Step, old(View()), Send(x, count), moved, View())
    {
      ghost var s := View();
      moved := x < |streams| && streams[x].attached && 0 < count <= |streams[x].unsent|
               && |streams[x].buffer| + count <= cap;
      if moved {
        var y := streams[x];
        streams := streams[x := y.(unsent := y.unsent[count..], buffer := y.buffer + y.unsent[..count])];
        StepKeepsInv(s, Send(x, count));
      }
    }

    method WriterHangsUp(x: nat) returns (moved: bool)
      requires Valid()
      modifies this
      ensures Valid()
      ensures Performs(Step, old(View()), HangUp(x), moved, View())
    {
      ghost var s := View();
      moved := x < |streams| && streams[x].attached && streams[x].unsent == "" && !streams[x].hungUp;
      if moved {
        streams := streams[x := streams[x].(hungUp := true)];
        StepKeepsInv(s, HangUp(x));
      }
    }
  }
}
