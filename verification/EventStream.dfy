/**
 The event stream of one client connection: a captured cursor, the subscription
 with its replay, the terminal marker and the bytes that wait on the socket.
 */
module EventStream {
  /** A logged event; `bytes` is the size of its message on the wire. */
  datatype Event = Event(sequence: nat, content: string, bytes: nat)

  datatype Message = EventMessage(event: Event) | Terminal(sequence: nat) | ResponseMessage(bytes: nat)

  /** One connection. `unacknowledged` holds the sizes of the writes the socket
      has not finished, `wire` everything written so far. */
  datatype Channel = Channel(
    afterSequence: nat, terminal: bool, destroyed: bool, queued: int, unacknowledged: seq<nat>, wire: seq<Message>)

  const MIN_OUTBOUND_BYTES := 512
  const LIVE_ONLY_AFTER_SEQUENCE := 9007199254740991
  const TERMINAL_BYTES_WITHOUT_SEQUENCE := 112

  function Digits(n: nat): (d: nat)
    ensures d > 0
  {
    if n < 10 then 1 else 1 + Digits(n / 10)
  }

  function TerminalBytes(sequence: nat): nat {
    TERMINAL_BYTES_WITHOUT_SEQUENCE + Digits(sequence)
  }

  function Written(c: Channel, message: Message, bytes: nat): Channel {
    c.(queued := c.queued + bytes, unacknowledged := c.unacknowledged + [bytes], wire := c.wire + [message])
  }

  /** A message is written if it fits; otherwise the connection is destroyed. */
  function Sent(c: Channel, max: nat, message: Message, bytes: nat): Channel {
    if c.destroyed then c
    else if bytes > max || c.queued + bytes > max then c.(destroyed := true)
    else Written(c, message, bytes)
  }

  /** A response above the limit is replaced with an error response. */
  function Respond(c: Channel, max: nat, bytes: nat, errorBytes: nat): Channel {
    if bytes > max then Sent(c, max, ResponseMessage(errorBytes), errorBytes)
        else Sent(c, max, ResponseMessage(bytes), bytes)
  }

  function Terminate(c: Channel, max: nat, sequence: nat): Channel {
    if c.terminal || c.destroyed then c
    else if TerminalBytes(sequence) > max then c.(terminal := true, destroyed := true)
    else Written(c.(terminal := true), Terminal(sequence), TerminalBytes(sequence))
  }

  function Forward(c: Channel, max: nat, event: Event): Channel {
    if c.terminal || event.sequence <= c.afterSequence then c
    else if event.bytes > max then Terminate(c, max, event.sequence)
    else
      var sent := Sent(c, max, EventMessage(event), event.bytes);
      if sent.destroyed then sent else sent.(afterSequence := event.sequence)
  }

  function ForwardAll(c: Channel, max: nat, events: seq<Event>): Channel
    decreases |events|
  {
    if events == [] then c else ForwardAll(Forward(c, max, events[0]), max, events[1..])
  }

  function Acknowledge(c: Channel): Channel
    requires c.unacknowledged != []
  {
    c.(queued := c.queued - c.unacknowledged[0], unacknowledged := c.unacknowledged[1..])
  }

  /** The stored events after a sequence number. */
  function Listed(log: seq<Event>, afterSequence: nat): seq<Event> {
    if afterSequence <= |log| then log[afterSequence..] else []
  }

  // The run of one connection, with inserts in between.

  datatype Phase = Connected | Handshaken | Subscribed | Unsubscribed

  /** `captured` is the cursor of the handshake; `flushed` counts the writes that
      the socket has finished. */
  datatype World = World(log: seq<Event>, channel: Channel, phase: Phase, captured: nat, flushed: nat)

  predicate IsLog(log: seq<Event>) {
    forall i :: 0 <= i < |log| ==> log[i].sequence == i + 1
  }

  const INITIAL := World([], Channel(0, false, false, 0, [], []), Connected, 0, 0)

  /** Inserted events are published to the subscribers. */
  function Insert(w: World, max: nat, events: seq<Event>): World {
    var c := if w.phase.Subscribed? then ForwardAll(w.channel, max, events) else w.channel;
    w.(log := w.log + events, channel := c, phase := if w.phase.Subscribed? && c.terminal then Unsubscribed
        else w.phase)
  }

  function Handshake(w: World, afterSequence: nat): World {
    var cursor := if afterSequence == LIVE_ONLY_AFTER_SEQUENCE then |w.log| else afterSequence;
    w.(channel := w.channel.(afterSequence := cursor), captured := cursor, phase := Handshaken)
  }

  function Subscribe(w: World, max: nat): World {
    var c := ForwardAll(w.channel, max, Listed(w.log, w.channel.afterSequence));
    w.(channel := c, phase := if c.terminal then Unsubscribed else Subscribed)
  }

  function Close(w: World): World {
    w.(channel := w.channel.(destroyed := true), phase := if w.phase.Subscribed? then Unsubscribed else w.phase)
  }

  ghost predicate Next(max: nat, w: World, w': World) {
    || (exists events :: IsLog(w.log + events) && w' == Insert(w, max, events))
    || (w.phase.Connected? && exists afterSequence :: w' == Handshake(w, afterSequence))
    || (w.phase.Handshaken? && w' == Subscribe(w, max))
    || (exists bytes, errorBytes :: w' == w.(channel := Respond(w.channel, max, bytes, errorBytes)))
    || (w.channel.unacknowledged != []
         && w' == w.(channel := Acknowledge(w.channel), flushed := w.flushed + 1))
    || w' == w.(channel := w.channel.(destroyed := true))
    || w' == Close(w)
  }

  ghost predicate IsRun(max: nat, run: seq<World>) {
    && run != [] && IsLog(run[0].log) && run[0] == INITIAL.(log := run[0].log)
    && forall i, j :: 0 <= i && j == i + 1 < |run| ==> Next(max, run[i], run[j])
  }

  // What the client should see.

  /** The events in order, up to the first that is too large for any message. */
  function Expected(events: seq<Event>, max: nat): seq<Message> {
    if events == [] then []
    else if events[0].bytes > max then [Terminal(events[0].sequence)]
    else [EventMessage(events[0])] + Expected(events[1..], max)
  }

  function StreamOf(wire: seq<Message>): seq<Message> {
    if wire == [] then []
    else StreamOf(wire[..|wire| - 1]) + (if wire[|wire| - 1].ResponseMessage? then [] else [wire[|wire| - 1]])
  }

  predicate AnyTooLarge(events: seq<Event>, max: nat) {
    exists i :: 0 <= i < |events| && events[i].bytes > max
  }

  function Sum(sizes: seq<nat>): nat {
    if sizes == [] then 0 else Sum(sizes[..|sizes| - 1]) + sizes[|sizes| - 1]
  }

  lemma {:induction false} ExpectedGrows(events: seq<Event>, event: Event, max: nat)
    ensures Expected(events + [event], max) ==
            if AnyTooLarge(events, max) then Expected(events, max) else Expected(events, max) + Expected([event], max)
  {
    if events == [] {
      assert events + [event] == [event];
    } else if events[0].bytes <= max {
      ExpectedGrows(events[1..], event, max);
      assert (events + [event])[1..] == events[1..] + [event];
      assert AnyTooLarge(events, max) <==> AnyTooLarge(events[1..], max) by {
        if i :| 0 <= i < |events| && events[i].bytes > max {
          assert events[1..][i - 1].bytes > max;
        }
      }
    }
  }

  /** The queue counter is exact, and only the reserved marker exceeds the limit. */
  ghost predicate Counted(c: Channel, max: nat) {
    && c.queued == Sum(c.unacknowledged)
    && c.queued <= max + (if c.terminal then TerminalBytes(c.afterSequence + 1) else 0)
  }

  /** The connection was handed `events`, which follow the cursor `captured`. */
  ghost predicate Tracks(c: Channel, max: nat, captured: nat, events: seq<Event>) {
    && (forall i :: 0 <= i < |events| ==> events[i].sequence == captured + 1 + i)
    && captured <= c.afterSequence
    && StreamOf(c.wire) <= Expected(events, max)
    && (!c.destroyed ==>
          && StreamOf(c.wire) == Expected(events, max)
          && (c.terminal <==> AnyTooLarge(events, max))
          && (!c.terminal ==> c.afterSequence == captured + |events|))
  }

  lemma WriteKeepsCount(c: Channel, message: Message, bytes: nat)
    ensures Sum(Written(c, message, bytes).unacknowledged) == Sum(c.unacknowledged) + bytes
    ensures StreamOf(Written(c, message, bytes).wire) == StreamOf(c.wire) + if message.ResponseMessage? then []
              else [message]
  {
    assert (c.unacknowledged + [bytes])[..|c.unacknowledged|] == c.unacknowledged;
    assert (c.wire + [message])[..|c.wire|] == c.wire;
  }

  lemma TooLargeGrows(events: seq<Event>, event: Event, max: nat)
    ensures AnyTooLarge(events + [event], max) <==> AnyTooLarge(events, max) || event.bytes > max
  {
    assert (events + [event])[|events|] == event;
    if i :| 0 <= i < |events| && events[i].bytes > max {
      assert (events + [event])[i].bytes > max;
    }
  }

  lemma ForwardCounts(c: Channel, max: nat, event: Event)
    requires Counted(c, max) && (!c.terminal && !c.destroyed ==> event.sequence <= c.afterSequence + 1)
    ensures Counted(Forward(c, max, event), max)
  {
    if !c.terminal && !c.destroyed {
      if event.bytes > max {
        WriteKeepsCount(c.(terminal := true), Terminal(event.sequence), TerminalBytes(event.sequence));
      } else {
        WriteKeepsCount(c, EventMessage(event), event.bytes);
      }
    }
  }

  /** Handing over the next event keeps the stream as expected. */
  lemma ForwardTracks(c: Channel, max: nat, captured: nat, events: seq<Event>, event: Event)
    requires Tracks(c, max, captured, events) && event.sequence == captured + 1 + |events|
    ensures Tracks(Forward(c, max, event), max, captured, events + [event])
  {
    ExpectedGrows(events, event, max);
    TooLargeGrows(events, event, max);
    if !c.destroyed && !c.terminal {
      WriteKeepsCount(c, EventMessage(event), event.bytes);
      WriteKeepsCount(c.(terminal := true), Terminal(event.sequence), TerminalBytes(event.sequence));
    }
  }

  lemma ListedGrows(log: seq<Event>, event: Event, captured: nat)
    requires IsLog(log + [event])
    ensures event.sequence == |log| + 1
    ensures Listed(log + [event], captured) == if event.sequence <= captured then []
              else Listed(log, captured) + [event]
    ensures event.sequence <= captured ==> Listed(log, captured) == []
    ensures event.sequence > captured ==> event.sequence == captured + 1 + |Listed(log, captured)|
  {
    assert (log + [event])[|log|] == event;
    if captured <= |log| {
      assert (log + [event])[captured..] == log[captured..] + [event];
    }
  }

  lemma OneMoreTracks(c: Channel, max: nat, captured: nat, log: seq<Event>, event: Event)
    requires Counted(c, max) && Tracks(c, max, captured, Listed(log, captured)) && IsLog(log + [event])
    ensures var c' := Forward(c, max, event);
            && Counted(c', max)
            && Tracks(c', max, captured, Listed(log + [event], captured))
  {
    ListedGrows(log, event, captured);
    ForwardCounts(c, max, event);
    if event.sequence > captured {
      ForwardTracks(c, max, captured, Listed(log, captured), event);
    }
  }

  /** Handing over a batch of new events keeps the stream as expected. */
  lemma {:induction false} BatchTracks(c: Channel, max: nat, captured: nat, log: seq<Event>, events: seq<Event>)
    requires Counted(c, max) && Tracks(c, max, captured, Listed(log, captured)) && IsLog(log + events)
    ensures var c' := ForwardAll(c, max, events);
            && Counted(c', max)
            && Tracks(c', max, captured, Listed(log + events, captured))
    decreases |events|
  {
    if events == [] {
      assert log + events == log;
    } else {
      assert log + events == (log + [events[0]]) + events[1..];
      LogPrefix(log + [events[0]], events[1..]);
      OneMoreTracks(c, max, captured, log, events[0]);
      BatchTracks(Forward(c, max, events[0]), max, captured, log + [events[0]], events[1..]);
    }
  }

  lemma LogPrefix(log: seq<Event>, more: seq<Event>)
    requires IsLog(log + more)
    ensures IsLog(log)
  {
    forall i | 0 <= i < |log|
      ensures log[i].sequence == i + 1
    {
      assert (log + more)[i].sequence == i + 1;
    }
  }

  lemma {:induction false} FinishedStreamStays(c: Channel, max: nat, events: seq<Event>)
    requires c.terminal || c.destroyed
    ensures ForwardAll(c, max, events) == c
    decreases |events|
  {
    if events != [] {
      FinishedStreamStays(c, max, events[1..]);
    }
  }

  // The invariant of every run.

  predicate HasNotBegun(w: World) {
    && (w.phase.Connected? || (w.phase.Handshaken? && w.channel.afterSequence == w.captured))
    && !w.channel.terminal && StreamOf(w.channel.wire) == []
  }

  ghost predicate HasBegun(max: nat, w: World) {
    && ((w.phase.Subscribed? && !w.channel.terminal)
        || (w.phase.Unsubscribed? && (w.channel.destroyed || w.channel.terminal)))
    && Tracks(w.channel, max, w.captured, Listed(w.log, w.captured))
  }

  ghost predicate Invariant(max: nat, w: World) {
    && IsLog(w.log)
    && Counted(w.channel, max)
    && (HasNotBegun(w) || HasBegun(max, w))
  }

  lemma InsertKeepsInvariant(max: nat, w: World, events: seq<Event>)
    requires Invariant(max, w) && IsLog(w.log + events)
    ensures Invariant(max, Insert(w, max, events))
  {
    if w.phase.Subscribed? || w.phase.Unsubscribed? {
      BatchTracks(w.channel, max, w.captured, w.log, events);
    }
    if w.phase.Unsubscribed? {
      FinishedStreamStays(w.channel, max, events);
    }
  }

  lemma SubscribeKeepsInvariant(max: nat, w: World)
    requires Invariant(max, w) && w.phase.Handshaken?
    ensures Invariant(max, Subscribe(w, max))
  {
    var earlier := if w.captured <= |w.log| then w.log[..w.captured] else w.log;
    var replayed := Listed(w.log, w.captured);
    assert w.log == earlier + replayed;
    assert Listed(earlier, w.captured) == [];
    BatchTracks(w.channel, max, w.captured, earlier, replayed);
  }

  lemma {:induction false} SumFromTheFront(sizes: seq<nat>)
    requires sizes != []
    ensures Sum(sizes) == sizes[0] + Sum(sizes[1..])
  {
    if |sizes| > 1 {
      SumFromTheFront(sizes[..|sizes| - 1]);
      assert sizes[..|sizes| - 1][1..] == sizes[1..][..|sizes| - 2];
    }
  }

  /** A response leaves the event stream alone. */
  lemma RespondIsSilent(c: Channel, max: nat, bytes: nat, errorBytes: nat)
    ensures var c' := Respond(c, max, bytes, errorBytes);
            && c'.afterSequence == c.afterSequence && c'.terminal == c.terminal
            && StreamOf(c'.wire) == StreamOf(c.wire) && (c.destroyed ==> c'.destroyed)
    ensures Counted(c, max) ==> Counted(Respond(c, max, bytes, errorBytes), max)
  {
    var size := if bytes > max then errorBytes else bytes;
    WriteKeepsCount(c, ResponseMessage(size), size);
    assert StreamOf(c.wire) + [] == StreamOf(c.wire);
  }

  lemma RespondKeepsInvariant(max: nat, w: World, bytes: nat, errorBytes: nat)
    requires Invariant(max, w)
    ensures Invariant(max, w.(channel := Respond(w.channel, max, bytes, errorBytes)))
  {
    RespondIsSilent(w.channel, max, bytes, errorBytes);
  }

  lemma NextKeepsInvariant(max: nat, w: World, w': World)
    requires Invariant(max, w) && Next(max, w, w')
    ensures Invariant(max, w')
  {
    if events :| IsLog(w.log + events) && w' == Insert(w, max, events) {
      InsertKeepsInvariant(max, w, events);
    } else if w.phase.Handshaken? && w' == Subscribe(w, max) {
      SubscribeKeepsInvariant(max, w);
    } else if bytes, errorBytes :| w' == w.(channel := Respond(w.channel, max, bytes, errorBytes)) {
      RespondKeepsInvariant(max, w, bytes, errorBytes);
    } else if w.channel.unacknowledged != []
        && w' == w.(channel := Acknowledge(w.channel), flushed := w.flushed + 1) {
      SumFromTheFront(w.channel.unacknowledged);
    }
  }

  lemma {:induction false} RunKeepsInvariant(max: nat, run: seq<World>, n: nat)
    requires IsRun(max, run) && n < |run|
    ensures Invariant(max, run[n])
  {
    if n > 0 {
      RunKeepsInvariant(max, run, n - 1);
      NextKeepsInvariant(max, run[n - 1], run[n]);
    }
  }

  // The main results.

  /** Step `h` of a run is the handshake, and the client asked for what follows `asked`. */
  ghost predicate AsksAt(run: seq<World>, h: nat, asked: nat) {
    h + 1 < |run| && run[h].phase.Connected? && run[h + 1] == Handshake(run[h], asked)
  }

  /** The sequence number the client's stream follows: the one it asked for, or
      the end of the log at its handshake if it asked for live events only. */
  function Follows(run: seq<World>, h: nat, asked: nat): nat
    requires h < |run|
  {
    if asked == LIVE_ONLY_AFTER_SEQUENCE then |run[h].log| else asked
  }

  /** A connection that is past the handshake had one. */
  lemma {:induction false} HandshakeCameFirst(max: nat, run: seq<World>, n: nat) returns (h: nat, asked: nat)
    requires IsRun(max, run) && n < |run| && !run[n].phase.Connected?
    ensures h < n && AsksAt(run, h, asked)
  {
    if 0 < n && run[n - 1].phase.Connected? {
      assert Next(max, run[n - 1], run[n]);
      h := n - 1;
      asked :| run[n] == Handshake(run[n - 1], asked);
    } else {
      h, asked := HandshakeCameFirst(max, run, n - 1);
    }
  }

  lemma CursorStays(max: nat, w: World, w': World)
    requires Next(max, w, w') && !w.phase.Connected?
    ensures !w'.phase.Connected? && w'.captured == w.captured
  {
  }

  lemma {:induction false} CursorIsTheOneAskedFor(max: nat, run: seq<World>, h: nat, asked: nat, n: nat)
    requires IsRun(max, run) && AsksAt(run, h, asked) && h < n < |run|
    ensures !run[n].phase.Connected? && run[n].captured == Follows(run, h, asked)
  {
    if h + 1 < n {
      CursorIsTheOneAskedFor(max, run, h, asked, n - 1);
      CursorStays(max, run[n - 1], run[n]);
    }
  }

  /** However inserts, the handshake, the subscription, responses and the socket
      interleave: nothing is streamed before the subscription; from then on a living
      connection was sent exactly what follows the cursor its client asked for, and
      a destroyed one was sent a prefix of that. */
  lemma StreamIsAsExpected(max: nat, run: seq<World>, h: nat, asked: nat, n: nat)
    requires IsRun(max, run) && AsksAt(run, h, asked) && n < |run|
    ensures var stream, expected := StreamOf(run[n].channel.wire),
                Expected(Listed(run[n].log, Follows(run, h, asked)), max);
            && (n <= h || run[n].phase.Handshaken? ==> stream == [])
            && (h < n && !run[n].phase.Handshaken? ==>
                  stream <= expected && (run[n].channel.destroyed || stream == expected))
  {
    RunKeepsInvariant(max, run, n);
    if h < n {
      CursorIsTheOneAskedFor(max, run, h, asked, n);
    } else if !run[n].phase.Connected? {
      var h', asked' := HandshakeCameFirst(max, run, n);
      CursorIsTheOneAskedFor(max, run, h', asked', h);
    }
  }

  /** What it should see is a run of the log that starts after the cursor, without
      gaps or repetitions, and at most one terminal marker, at the end, which
      stands for the first event that fits no message. */
  lemma {:induction false} ExpectedIsARunOfTheLog(events: seq<Event>, max: nat, i: nat)
    requires i < |Expected(events, max)|
    ensures |Expected(events, max)| <= |events|
    ensures Expected(events, max)[i] == if events[i].bytes <= max then EventMessage(events[i])
              else Terminal(events[i].sequence)
    ensures events[i].bytes > max ==> i == |Expected(events, max)| - 1
    ensures i == |Expected(events, max)| - 1 ==> events[i].bytes > max || |Expected(events, max)| == |events|
  {
    if i > 0 {
      ExpectedIsARunOfTheLog(events[1..], max, i - 1);
    } else if events[0].bytes <= max && events[1..] != [] {
      assert Expected(events[1..], max) != [];
      ExpectedIsARunOfTheLog(events[1..], max, 0);
    }
  }

  /** The message at position `i` of the stream, for every run: the event that comes
      `i + 1` after what the client asked for, or its marker, and then nothing else. */
  lemma SentMessageIsFromTheLog(max: nat, run: seq<World>, h: nat, asked: nat, n: nat, i: nat)
    requires IsRun(max, run) && AsksAt(run, h, asked) && n < |run|
    requires i < |StreamOf(run[n].channel.wire)|
    ensures var log, stream, at := run[n].log, StreamOf(run[n].channel.wire), Follows(run, h, asked) + i;
            && at < |log| && log[at].sequence == at + 1
            && stream[i] == (if log[at].bytes <= max then EventMessage(log[at]) else Terminal(at + 1))
            && (log[at].bytes > max ==> i == |stream| - 1)
  {
    RunKeepsInvariant(max, run, n);
    StreamIsAsExpected(max, run, h, asked, n);
    ExpectedIsARunOfTheLog(Listed(run[n].log, Follows(run, h, asked)), max, i);
  }

  // What waits on the socket.

  function Size(message: Message): nat {
    match message
    case EventMessage(event) => event.bytes
    case Terminal(sequence) => TerminalBytes(sequence)
    case ResponseMessage(bytes) => bytes
  }

  /** What the socket has not finished is the newest part of the wire. */
  ghost predicate WaitsAfter(c: Channel, flushed: nat) {
    && |c.wire| == flushed + |c.unacknowledged|
    && forall i :: 0 <= i < |c.unacknowledged| ==> c.unacknowledged[i] == Size(c.wire[flushed + i])
  }

  lemma {:induction false} ForwardAllWaits(c: Channel, max: nat, events: seq<Event>, flushed: nat)
    requires WaitsAfter(c, flushed)
    ensures WaitsAfter(ForwardAll(c, max, events), flushed)
    decreases |events|
  {
    if events != [] {
      ForwardAllWaits(Forward(c, max, events[0]), max, events[1..], flushed);
    }
  }

  lemma RespondWaits(c: Channel, max: nat, bytes: nat, errorBytes: nat, flushed: nat)
    requires WaitsAfter(c, flushed)
    ensures WaitsAfter(Respond(c, max, bytes, errorBytes), flushed)
  {
  }

  lemma NextKeepsWaiting(max: nat, w: World, w': World)
    requires Next(max, w, w') && WaitsAfter(w.channel, w.flushed)
    ensures WaitsAfter(w'.channel, w'.flushed)
  {
    if events :| IsLog(w.log + events) && w' == Insert(w, max, events) {
      ForwardAllWaits(w.channel, max, events, w.flushed);
    } else if w.phase.Handshaken? && w' == Subscribe(w, max) {
      ForwardAllWaits(w.channel, max, Listed(w.log, w.channel.afterSequence), w.flushed);
    } else if bytes, errorBytes :| w' == w.(channel := Respond(w.channel, max, bytes, errorBytes)) {
      RespondWaits(w.channel, max, bytes, errorBytes, w.flushed);
    }
  }

  lemma {:induction false} RunKeepsWaiting(max: nat, run: seq<World>, n: nat)
    requires IsRun(max, run) && n < |run|
    ensures WaitsAfter(run[n].channel, run[n].flushed)
  {
    if n > 0 {
      RunKeepsWaiting(max, run, n - 1);
      NextKeepsWaiting(max, run[n - 1], run[n]);
    }
  }

  /** The size of the messages from position `from` on. */
  function SizeFrom(wire: seq<Message>, from: nat): nat
    requires from <= |wire|
  {
    if from == |wire| then 0 else SizeFrom(wire[..|wire| - 1], from) + Size(wire[|wire| - 1])
  }

  lemma {:induction false} WaitingIsTheTail(sizes: seq<nat>, wire: seq<Message>, from: nat)
    requires |wire| == from + |sizes|
    requires forall i :: 0 <= i < |sizes| ==> sizes[i] == Size(wire[from + i])
    ensures Sum(sizes) == SizeFrom(wire, from)
  {
    if sizes != [] {
      WaitingIsTheTail(sizes[..|sizes| - 1], wire[..|wire| - 1], from);
    }
  }

  /** The queue counter is the size of everything written that the socket has not
      finished, and only the reserved marker makes it exceed the limit. */
  lemma QueuedBytesAreBounded(max: nat, run: seq<World>, n: nat)
    requires IsRun(max, run) && n < |run|
    ensures var c, flushed := run[n].channel, run[n].flushed;
            && flushed <= |c.wire| && c.queued == SizeFrom(c.wire, flushed)
            && 0 <= c.queued <= max + (if c.terminal then TerminalBytes(c.afterSequence + 1) else 0)
  {
    RunKeepsInvariant(max, run, n);
    RunKeepsWaiting(max, run, n);
    WaitingIsTheTail(run[n].channel.unacknowledged, run[n].channel.wire, run[n].flushed);
  }

  function PowerOfTen(k: nat): nat {
    if k == 0 then 1 else 10 * PowerOfTen(k - 1)
  }

  lemma {:induction false} DigitsAreFew(n: nat, k: nat)
    requires 0 < k && n < PowerOfTen(k)
    ensures Digits(n) <= k
  {
    if n >= 10 {
      DigitsAreFew(n / 10, k - 1);
    }
  }

  /** The marker itself always fits, for every sequence number that is exact. */
  lemma TerminalMarkerFits(sequence: nat)
    requires sequence <= LIVE_ONLY_AFTER_SEQUENCE
    ensures TerminalBytes(sequence) <= MIN_OUTBOUND_BYTES
  {
    assert PowerOfTen(2) == 100 && PowerOfTen(4) == 100 * PowerOfTen(2) && PowerOfTen(6) == 100 * PowerOfTen(4);
    assert PowerOfTen(8) == 100 * PowerOfTen(6) && PowerOfTen(10) == 100 * PowerOfTen(8)
        && PowerOfTen(12) == 100 * PowerOfTen(10);
    assert PowerOfTen(14) == 100 * PowerOfTen(12) && PowerOfTen(16) == 100 * PowerOfTen(14);
    DigitsAreFew(sequence, 16);
  }

  /** The next event cuts a subscriber off exactly if it fits a message but not the
      queue; if it fits no message, it ends the stream and nothing else. */
  lemma EventsCutOffExactly(max: nat, run: seq<World>, h: nat, asked: nat, n: nat, event: Event)
    requires IsRun(max, run) && AsksAt(run, h, asked) && h < n < |run| && MIN_OUTBOUND_BYTES <= max
    requires run[n].phase.Subscribed? && !run[n].channel.destroyed
    requires event.sequence == |run[n].log| + 1 <= LIVE_ONLY_AFTER_SEQUENCE
    ensures var c, w', isNew := run[n].channel, Insert(run[n], max, [event]), Follows(run, h, asked) < event.sequence;
            && run[n].flushed <= |c.wire|
            && (w'.channel.destroyed <==>
                  isNew && event.bytes <= max < SizeFrom(c.wire, run[n].flushed) + event.bytes)
            && (w'.channel.terminal <==> isNew && max < event.bytes)
            && (w'.phase.Subscribed? <==> !w'.channel.terminal)
  {
    RunKeepsInvariant(max, run, n);
    QueuedBytesAreBounded(max, run, n);
    CursorIsTheOneAskedFor(max, run, h, asked, n);
    TerminalMarkerFits(event.sequence);
    assert ForwardAll(run[n].channel, max, [event]) == Forward(run[n].channel, max, event);
  }

  /** A response cuts a living connection off exactly if what is sent for it, itself
      or the error that stands for it, does not fit what waits; else it is written. */
  lemma ResponsesCutOffExactly(max: nat, run: seq<World>, n: nat, bytes: nat, errorBytes: nat)
    requires IsRun(max, run) && n < |run| && !run[n].channel.destroyed
    ensures var c, c' := run[n].channel, Respond(run[n].channel, max, bytes, errorBytes);
            var size := if bytes <= max then bytes else errorBytes;
            && run[n].flushed <= |c.wire|
            && (c'.destroyed <==> max < SizeFrom(c.wire, run[n].flushed) + size)
            && c'.wire == (if c'.destroyed then c.wire else c.wire + [ResponseMessage(size)])
  {
    QueuedBytesAreBounded(max, run, n);
  }

  // The connection of the server.

  class ClientConnection {
    const maxOutboundQueuedBytes: nat
    var afterSequence: nat
    var eventStreamTerminal: bool
    var subscribed: bool
    var destroyed: bool
    var outboundQueuedBytes: int
    var unacknowledged: seq<nat>
    ghost var wire: seq<Message>

    ghost function State(): Channel
      reads this
    {
      Channel(afterSequence, eventStreamTerminal, destroyed, outboundQueuedBytes, unacknowledged, wire)
    }

    constructor (maxOutboundQueuedBytes: nat)
      requires MIN_OUTBOUND_BYTES <= maxOutboundQueuedBytes
      ensures State() == INITIAL.channel && !subscribed
      ensures this.maxOutboundQueuedBytes == maxOutboundQueuedBytes
    {
      this.maxOutboundQueuedBytes := maxOutboundQueuedBytes;
      afterSequence, eventStreamTerminal, subscribed, destroyed := 0, false, false, false;
      outboundQueuedBytes, unacknowledged, wire := 0, [], [];
    }

    /** Captures the cursor the client asks for; `latest` is the last sequence number of the log. */
    method Handshake(asked: nat, latest: nat)
      modifies this`afterSequence
      ensures afterSequence == if asked == LIVE_ONLY_AFTER_SEQUENCE then latest else asked
    {
      afterSequence := asked;
      if asked == LIVE_ONLY_AFTER_SEQUENCE {
        afterSequence := latest;
      }
    }

    method Write(message: Message, bytes: nat)
      modifies this`outboundQueuedBytes, this`unacknowledged, this`wire
      ensures State() == Written(old(State()), message, bytes)
    {
      outboundQueuedBytes := outboundQueuedBytes + bytes;
      unacknowledged := unacknowledged + [bytes];
      wire := wire + [message];
    }

    method Send(message: Message, bytes: nat) returns (sent: bool)
      modifies this
      ensures State() == Sent(old(State()), maxOutboundQueuedBytes, message, bytes)
      ensures sent <==> !destroyed && !old(destroyed)
      ensures subscribed == old(subscribed)
    {
      if destroyed {
        return false;
      }
      if bytes > maxOutboundQueuedBytes || outboundQueuedBytes + bytes > maxOutboundQueuedBytes {
        destroyed := true;
        return false;
      }
      Write(message, bytes);
      return true;
    }

    method TerminateEventStream(sequence: nat)
      modifies this
      ensures State() == Terminate(old(State()), maxOutboundQueuedBytes, sequence)
      ensures subscribed == (old(subscribed) && (old(eventStreamTerminal) || old(destroyed)))
    {
      if eventStreamTerminal || destroyed {
        return;
      }
      eventStreamTerminal := true;
      subscribed := false;
      var bytes := TerminalBytes(sequence);
      if bytes > maxOutboundQueuedBytes {
        destroyed := true;
        return;
      }
      Write(Terminal(sequence), bytes);
    }

    method ForwardEvent(event: Event)
      modifies this
      ensures State() == Forward(old(State()), maxOutboundQueuedBytes, event)
      ensures subscribed == (old(subscribed) && (old(eventStreamTerminal) || !eventStreamTerminal))
    {
      if eventStreamTerminal || event.sequence <= afterSequence {
        return;
      }
      if event.bytes > maxOutboundQueuedBytes {
        TerminateEventStream(event.sequence);
        return;
      }
      var sent := Send(EventMessage(event), event.bytes);
      if sent {
        afterSequence := event.sequence;
      }
    }

    method ForwardEvents(events: seq<Event>)
      modifies this
      ensures State() == ForwardAll(old(State()), maxOutboundQueuedBytes, events)
      ensures subscribed == (old(subscribed) && (old(eventStreamTerminal) || !eventStreamTerminal))
    {
      var i := 0;
      while i < |events|
        invariant 0 <= i <= |events|
        invariant ForwardAll(State(), maxOutboundQueuedBytes, events[i..]) ==
                    ForwardAll(old(State()), maxOutboundQueuedBytes, events)
        invariant subscribed == (old(subscribed) && (old(eventStreamTerminal) || !eventStreamTerminal))
        invariant old(eventStreamTerminal) ==> eventStreamTerminal
      {
        ForwardEvent(events[i]);
        assert events[i..][1..] == events[i + 1..];
        i := i + 1;
      }
    }

    /** Subscribes first and then replays the log, all in one stretch. */
    method StartEventSubscription(log: seq<Event>)
      requires !eventStreamTerminal
      modifies this
      ensures State() == ForwardAll(old(State()), maxOutboundQueuedBytes, Listed(log, old(afterSequence)))
      ensures subscribed <==> !eventStreamTerminal
    {
      subscribed := true;
      ForwardEvents(Listed(log, afterSequence));
    }

    method Acknowledged()
      requires unacknowledged != []
      modifies this`outboundQueuedBytes, this`unacknowledged
      ensures State() == Acknowledge(old(State()))
    {
      outboundQueuedBytes := outboundQueuedBytes - unacknowledged[0];
      unacknowledged := unacknowledged[1..];
    }
  }
}
