/**
 The event pipeline of the client: lines are cut from the received text, events
 wait in a bounded queue, and reading pauses while the queue has no room.
 */
module ClientPipeline {

  const MAX_LINE_BYTES := 1048576
  const MAX_EVENT_QUEUE := 256
  const MAX_EVENT_QUEUE_BYTES := 4194304
  const EVENT_RESUME_WATERMARK := 128

  datatype Event = Event(sequence: nat, kind: string, payload: string)

  /** What a line says. */
  datatype Parsed = AnEvent(event: Event) | AResponse | Neither | Malformed

  type Parser = string -> Parsed

  datatype Queued = Queued(event: Event, bytes: nat)

  /** What a call of `next` resolved to. */
  datatype Answer = Pending | Got(event: Event) | Done | Rejected

  /** `waiters` holds the calls that wait, by their number; `delivered` all events handed out. */
  datatype Queue = Queue(
    events: seq<Queued>, queuedBytes: int, waiters: seq<nat>, closed: bool, failed: bool,
    answers: seq<Answer>, delivered: seq<Event>)

  datatype Client = Client(queue: Queue, buffer: string, inputPaused: bool, socketPaused: bool, closed: bool)

  // Text.

  function Utf8Length(c: char): nat {
    if c as int < 0x80 then 1 else if c as int < 0x800 then 2 else if c as int < 0x1_0000 then 3 else 4
  }

  function ByteLength(s: string): nat {
    if s == "" then 0 else Utf8Length(s[0]) + ByteLength(s[1..])
  }

  predicate IsWhitespace(c: char) {
    || 0x9 <= c as int <= 0xD || c as int in {0x20, 0xA0, 0x1680, 0x2028, 0x2029, 0x202F, 0x205F, 0x3000, 0xFEFF}
    || 0x2000 <= c as int <= 0x200A
  }

  function TrimStart(s: string): string {
    if s != "" && IsWhitespace(s[0]) then TrimStart(s[1..]) else s
  }

  function TrimEnd(s: string): string {
    if s != "" && IsWhitespace(s[|s| - 1]) then TrimEnd(s[..|s| - 1]) else s
  }

  function Trim(s: string): string {
    TrimEnd(TrimStart(s))
  }

  /** The position of the first newline, or the length. */
  function NewlineAt(s: string): (i: nat)
    ensures i <= |s|
    ensures i < |s| ==> s[i] == '\n'
    ensures '\n' !in s[..i]
  {
    if s == "" || s[0] == '\n' then 0
    else
      var i := 1 + NewlineAt(s[1..]);
      assert s[..i] == [s[0]] + s[1..][..i - 1];
      i
  }

  /** The events of the complete lines of a text, up to the first line that fails. */
  function EventsIn(parse: Parser, text: string): seq<Event>
    decreases |text|
  {
    var i := NewlineAt(text);
    if i == |text| || ByteLength(text[..i]) > MAX_LINE_BYTES then []
    else
      var line, rest := Trim(text[..i]), text[i + 1..];
      if line == "" then EventsIn(parse, rest)
      else match parse(line)
        case Malformed => []
        case AnEvent(event) => [event] + EventsIn(parse, rest)
        case _ => EventsIn(parse, rest)
  }

  // The queue.

  function Settled(answers: seq<Answer>, ticket: nat, answer: Answer): seq<Answer> {
    if ticket < |answers| then answers[ticket := answer] else answers
  }

  function SettledAll(answers: seq<Answer>, tickets: seq<nat>, answer: Answer): seq<Answer>
    decreases |tickets|
  {
    if tickets == [] then answers else SettledAll(Settled(answers, tickets[0], answer), tickets[1..], answer)
  }

  predicate Accepts(q: Queue, bytes: nat) {
    && !q.closed
    && (q.waiters != [] || (|q.events| < MAX_EVENT_QUEUE && q.queuedBytes + bytes <= MAX_EVENT_QUEUE_BYTES))
  }

  function Pushed(q: Queue, event: Event, bytes: nat): Queue {
    if !Accepts(q, bytes) then q
    else if q.waiters != [] then
      q.(waiters := q.waiters[1..], answers := Settled(q.answers, q.waiters[0], Got(event)),
          delivered := q.delivered + [event])
    else q.(events := q.events + [Queued(event, bytes)], queuedBytes := q.queuedBytes + bytes)
  }

  function Closed(q: Queue, failed: bool): Queue {
    if q.closed then q
    else q.(events := [], queuedBytes := 0, waiters := [], closed := true, failed := failed,
            answers := SettledAll(q.answers, q.waiters, if failed then Rejected else Done))
  }

  /** A call of `next`, before it makes room known. */
  function Taken(q: Queue): Queue {
    if q.events != [] then
      q.(events := q.events[1..], queuedBytes := q.queuedBytes - q.events[0].bytes,
         answers := q.answers + [Got(q.events[0].event)], delivered := q.delivered + [q.events[0].event])
    else if q.failed then q.(answers := q.answers + [Rejected])
    else if q.closed then q.(answers := q.answers + [Done])
    else q.(answers := q.answers + [Pending], waiters := q.waiters + [|q.answers|])
  }

  // The client.

  function Shut(c: Client, failed: bool): Client {
    c.(closed := true, queue := Closed(c.queue, failed))
  }

  function Failed(c: Client): Client {
    if c.closed then c else Shut(c, true)
  }

  function Finished(c: Client): Client {
    Shut(c, false)
  }

  /** Cuts and handles lines while reading is not paused. */
  function Consumed(parse: Parser, c: Client): Client
    decreases |c.buffer|
  {
    var i := NewlineAt(c.buffer);
    if c.closed || c.inputPaused then c
    else if i == |c.buffer| then (if ByteLength(c.buffer) > MAX_LINE_BYTES then Failed(c) else c)
    else if ByteLength(c.buffer[..i]) > MAX_LINE_BYTES then Failed(c)
    else
      var line, rest := Trim(c.buffer[..i]), c.buffer[i + 1..];
      if line == "" then Consumed(parse, c.(buffer := rest))
      else match parse(line)
        case Malformed => Failed(c.(buffer := rest))
        case AnEvent(event) =>
          if Accepts(c.queue, ByteLength(line)) then
            Consumed(parse, c.(buffer := rest, queue := Pushed(c.queue, event, ByteLength(line))))
          else c.(buffer := line + "\n" + rest, inputPaused := true, socketPaused := true)
        case _ => Consumed(parse, c.(buffer := rest))
  }

  function Receive(parse: Parser, c: Client, chunk: string): Client {
    Consumed(parse, c.(buffer := c.buffer + chunk))
  }

  function ResumeIfPossible(parse: Parser, c: Client): Client {
    if !c.inputPaused || c.closed || |c.queue.events| > EVENT_RESUME_WATERMARK then c
    else
      var consumed := Consumed(parse, c.(inputPaused := false));
      if !consumed.inputPaused && !consumed.closed then consumed.(socketPaused := false) else consumed
  }

  function CallNext(parse: Parser, c: Client): Client {
    var taken := c.(queue := Taken(c.queue));
    if c.queue.events != [] then ResumeIfPossible(parse, taken) else taken
  }

  // Lemmas about text.

  lemma {:induction false} ByteLengthOfTwo(a: string, b: string)
    ensures ByteLength(a + b) == ByteLength(a) + ByteLength(b)
  {
    if a == "" {
      assert a + b == b;
    } else {
      ByteLengthOfTwo(a[1..], b);
      assert (a + b)[1..] == a[1..] + b;
    }
  }

  lemma {:induction false} TrimStartShrinks(s: string)
    ensures var r := TrimStart(s);
            && ByteLength(r) <= ByteLength(s)
            && ('\n' in r ==> '\n' in s)
            && (r != "" ==> !IsWhitespace(r[0]))
  {
    if s != "" && IsWhitespace(s[0]) {
      TrimStartShrinks(s[1..]);
    }
  }

  lemma {:induction false} TrimEndShrinks(s: string)
    ensures var r := TrimEnd(s);
            && ByteLength(r) <= ByteLength(s) && r <= s
            && (r != "" ==> !IsWhitespace(r[|r| - 1]))
  {
    if s != "" && IsWhitespace(s[|s| - 1]) {
      TrimEndShrinks(s[..|s| - 1]);
      ByteLengthOfTwo(s[..|s| - 1], s[|s| - 1..]);
      assert s == s[..|s| - 1] + s[|s| - 1..];
    }
  }

  /** Trimming twice is trimming once, and never adds bytes or newlines. */
  lemma TrimIsIdempotent(s: string)
    ensures Trim(Trim(s)) == Trim(s)
    ensures ByteLength(Trim(s)) <= ByteLength(s)
    ensures '\n' !in s ==> '\n' !in Trim(s)
  {
    var start := TrimStart(s);
    TrimStartShrinks(s);
    TrimEndShrinks(start);
  }

  lemma {:induction false} NewlineStays(s: string, t: string)
    ensures NewlineAt(s) < |s| ==> NewlineAt(s + t) == NewlineAt(s)
    ensures '\n' !in s ==> NewlineAt(s + t) == |s| + NewlineAt(t)
  {
    if s == "" {
      assert s + t == t;
    } else if s[0] != '\n' {
      NewlineStays(s[1..], t);
      assert (s + t)[1..] == s[1..] + t;
    }
  }

  /** The first complete line decides the first events, whatever follows. */
  lemma FirstLineDecides(parse: Parser, text: string, t: string)
    requires NewlineAt(text) < |text|
    ensures var i := NewlineAt(text);
            var line, rest := Trim(text[..i]), text[i + 1..] + t;
            EventsIn(parse, text + t) ==
              if ByteLength(text[..i]) > MAX_LINE_BYTES then []
              else if line == "" then EventsIn(parse, rest)
              else match parse(line)
                case Malformed => []
                case AnEvent(event) => [event] + EventsIn(parse, rest)
                case _ => EventsIn(parse, rest)
  {
    var i := NewlineAt(text);
    NewlineStays(text, t);
    assert (text + t)[..i] == text[..i];
    assert (text + t)[i + 1..] == text[i + 1..] + t;
  }

  /** A line that is put back trimmed says the same. */
  lemma PutBackSaysTheSame(parse: Parser, raw: string, rest: string)
    requires '\n' !in raw && ByteLength(raw) <= MAX_LINE_BYTES
    ensures EventsIn(parse, Trim(raw) + "\n" + rest) == EventsIn(parse, raw + "\n" + rest)
  {
    TrimIsIdempotent(raw);
    FirstLine(raw, rest);
    FirstLine(Trim(raw), rest);
  }

  lemma FirstLine(line: string, rest: string)
    requires '\n' !in line
    ensures var text := line + "\n" + rest;
            NewlineAt(text) == |line| && text[..|line|] == line && text[|line| + 1..] == rest
  {
    NewlineStays(line, "\n" + rest);
    assert line + "\n" + rest == line + ("\n" + rest);
  }

  /** More text only adds events. */
  lemma {:induction false} EventsOnlyGrow(parse: Parser, text: string, t: string)
    ensures EventsIn(parse, text) <= EventsIn(parse, text + t)
    decreases |text|
  {
    var i := NewlineAt(text);
    if i < |text| {
      FirstLineDecides(parse, text, t);
      EventsOnlyGrow(parse, text[i + 1..], t);
    }
  }

  // What every reachable queue satisfies.

  function Unqueued(events: seq<Queued>): seq<Event> {
    seq(|events|, i requires 0 <= i < |events| => events[i].event)
  }

  function Total(events: seq<Queued>): nat {
    if events == [] then 0 else events[0].bytes + Total(events[1..])
  }

  lemma {:induction false} TotalGrows(events: seq<Queued>, queued: Queued)
    ensures Total(events + [queued]) == Total(events) + queued.bytes
  {
    if events == [] {
      assert events + [queued] == [queued];
    } else {
      TotalGrows(events[1..], queued);
      assert (events + [queued])[1..] == events[1..] + [queued];
    }
  }

  /** The calls are answered in order: the k-th one gets the k-th event. */
  ghost predicate AnsweredInOrder(q: Queue) {
    && |q.delivered| + |q.waiters| <= |q.answers|
    && (!q.closed ==> |q.delivered| + |q.waiters| == |q.answers|)
    && (forall i :: 0 <= i < |q.waiters| ==> q.waiters[i] == |q.delivered| + i)
    && (forall k :: 0 <= k < |q.answers| ==> q.answers[k] == AnswerOf(q, k))
  }

  function AnswerOf(q: Queue, k: nat): Answer {
    if k < |q.delivered| then Got(q.delivered[k])
    else if !q.closed then Pending
    else if q.failed then Rejected
    else Done
  }

  ghost predicate QueueIsSound(q: Queue) {
    && q.queuedBytes == Total(q.events)
    && q.queuedBytes <= MAX_EVENT_QUEUE_BYTES
    && |q.events| <= MAX_EVENT_QUEUE
    && (q.waiters != [] ==> q.events == [])
    && (q.closed ==> q.events == [] && q.waiters == [])
    && (q.failed ==> q.closed)
    && AnsweredInOrder(q)
  }

  lemma PushIsSound(q: Queue, event: Event, bytes: nat)
    requires QueueIsSound(q) && Accepts(q, bytes)
    ensures QueueIsSound(Pushed(q, event, bytes))
    ensures var q' := Pushed(q, event, bytes);
            q'.delivered + Unqueued(q'.events) == q.delivered + Unqueued(q.events) + [event]
  {
    TotalGrows(q.events, Queued(event, bytes));
  }

  lemma {:induction false} SettledAllAnswers(answers: seq<Answer>, tickets: seq<nat>, answer: Answer, first: nat)
    requires first + |tickets| == |answers| && forall i :: 0 <= i < |tickets| ==> tickets[i] == first + i
    ensures |SettledAll(answers, tickets, answer)| == |answers|
    ensures forall k :: 0 <= k < |answers| ==> SettledAll(answers, tickets, answer)[k] == if k < first then answers[k]
              else answer
    decreases |tickets|
  {
    if tickets != [] {
      SettledAllAnswers(Settled(answers, tickets[0], answer), tickets[1..], answer, first + 1);
    }
  }

  lemma CloseIsSound(q: Queue, failed: bool)
    requires QueueIsSound(q)
    ensures QueueIsSound(Closed(q, failed)) && Closed(q, failed).delivered == q.delivered
  {
    if !q.closed {
      SettledAllAnswers(q.answers, q.waiters, if failed then Rejected else Done, |q.delivered|);
    }
  }

  lemma TakeIsSound(q: Queue)
    requires QueueIsSound(q)
    ensures QueueIsSound(Taken(q))
    ensures Taken(q).delivered + Unqueued(Taken(q).events) == q.delivered + Unqueued(q.events)
  {
  }

  // What every reachable client satisfies.

  /** Whatever text follows, the events so far and the rest of the buffer make up all events. */
  ghost predicate Accounts(parse: Parser, received: string, events: seq<Event>, buffer: string) {
    forall t: string {:trigger AccountsWith(parse, received, events, buffer, t)} ::
        AccountsWith(parse, received, events, buffer, t)
  }

  predicate AccountsWith(parse: Parser, received: string, events: seq<Event>, buffer: string, t: string) {
    EventsIn(parse, received + t) == events + EventsIn(parse, buffer + t)
  }

  /** Every event received is delivered, queued or still in the buffer, once and in order. */
  ghost predicate IsSound(parse: Parser, c: Client, received: string) {
    && QueueIsSound(c.queue)
    && c.closed == c.queue.closed
    && ((c.closed && c.queue.delivered <= EventsIn(parse, received)) ||
        (!c.closed && Accounts(parse, received, c.queue.delivered + Unqueued(c.queue.events), c.buffer)))
  }

  /** A line at the front of the buffer that the queue has no room for. */
  ghost predicate HeldBack(parse: Parser, c: Client, line: string, rest: string) {
    && c.buffer == line + "\n" + rest
    && line != "" && '\n' !in line && Trim(line) == line && ByteLength(line) <= MAX_LINE_BYTES
    && parse(line).AnEvent?
    && c.queue.events != []
    && (|c.queue.events| > EVENT_RESUME_WATERMARK || c.queue.queuedBytes + ByteLength(line) > MAX_EVENT_QUEUE_BYTES)
  }

  ghost predicate IsBlocked(parse: Parser, c: Client) {
    exists line, rest :: HeldBack(parse, c, line, rest)
  }

  /** Between two stretches: paused only for lack of room, otherwise all lines are handled. */
  ghost predicate AtRest(parse: Parser, c: Client) {
    !c.closed ==>
      if c.inputPaused then c.socketPaused && IsBlocked(parse, c)
      else '\n' !in c.buffer && ByteLength(c.buffer) <= MAX_LINE_BYTES
  }

  /** With `t` to follow, the buffer says `more` and then what `rest` says. */
  predicate Says(parse: Parser, buffer: string, more: seq<Event>, rest: string, t: string) {
    EventsIn(parse, buffer + t) == more + EventsIn(parse, rest + t)
  }

  lemma AccountGoesOn(parse: Parser, received: string, events: seq<Event>, buffer: string, more: seq<Event>,
                      rest: string)
    requires Accounts(parse, received, events, buffer)
    requires forall t: string {:trigger Says(parse, buffer, more, rest, t)} :: Says(parse, buffer, more, rest, t)
    ensures Accounts(parse, received, events + more, rest)
  {
    forall t: string
      ensures AccountsWith(parse, received, events + more, rest, t)
    {
      assert AccountsWith(parse, received, events, buffer, t) && Says(parse, buffer, more, rest, t);
      assert events + (more + EventsIn(parse, rest + t)) == events + more + EventsIn(parse, rest + t);
    }
  }

  /** The events that the first line adds. */
  function FirstEvents(parse: Parser, line: string): seq<Event> {
    if line != "" && parse(line).AnEvent? then [parse(line).event] else []
  }

  lemma FirstLineAdds(parse: Parser, buffer: string, t: string)
    requires NewlineAt(buffer) < |buffer| && ByteLength(buffer[..NewlineAt(buffer)]) <= MAX_LINE_BYTES
    requires var line := Trim(buffer[..NewlineAt(buffer)]); line == "" || !parse(line).Malformed?
    ensures var i := NewlineAt(buffer);
            Says(parse, buffer, FirstEvents(parse, Trim(buffer[..i])), buffer[i + 1..], t)
  {
    FirstLineDecides(parse, buffer, t);
  }

  lemma LineHandled(parse: Parser, received: string, events: seq<Event>, buffer: string)
    requires Accounts(parse, received, events, buffer)
    requires NewlineAt(buffer) < |buffer| && ByteLength(buffer[..NewlineAt(buffer)]) <= MAX_LINE_BYTES
    requires var line := Trim(buffer[..NewlineAt(buffer)]); line == "" || !parse(line).Malformed?
    ensures var i := NewlineAt(buffer);
            Accounts(parse, received, events + FirstEvents(parse, Trim(buffer[..i])), buffer[i + 1..])
  {
    var i := NewlineAt(buffer);
    var more, rest := FirstEvents(parse, Trim(buffer[..i])), buffer[i + 1..];
    forall t: string
      ensures Says(parse, buffer, more, rest, t)
    {
      FirstLineAdds(parse, buffer, t);
    }
    AccountGoesOn(parse, received, events, buffer, more, rest);
  }

  lemma PutBackWith(parse: Parser, received: string, events: seq<Event>, buffer: string, raw: string, rest: string,
                    t: string)
    requires AccountsWith(parse, received, events, buffer, t)
    requires buffer == raw + "\n" + rest && '\n' !in raw && ByteLength(raw) <= MAX_LINE_BYTES
    ensures AccountsWith(parse, received, events, Trim(raw) + "\n" + rest, t)
  {
    PutBackSaysTheSame(parse, raw, rest + t);
    assert Trim(raw) + "\n" + rest + t == Trim(raw) + "\n" + (rest + t);
    assert buffer + t == raw + "\n" + (rest + t);
  }

  lemma LinePutBack(parse: Parser, received: string, events: seq<Event>, buffer: string, raw: string, rest: string)
    requires Accounts(parse, received, events, buffer)
    requires buffer == raw + "\n" + rest && '\n' !in raw && ByteLength(raw) <= MAX_LINE_BYTES
    ensures Accounts(parse, received, events, Trim(raw) + "\n" + rest)
  {
    forall t: string
      ensures AccountsWith(parse, received, events, Trim(raw) + "\n" + rest, t)
    {
      assert AccountsWith(parse, received, events, buffer, t);
      PutBackWith(parse, received, events, buffer, raw, rest, t);
    }
  }

  lemma ShutIsSound(parse: Parser, c: Client, received: string, failed: bool)
    requires IsSound(parse, c, received)
    ensures IsSound(parse, Shut(c, failed), received)
  {
    CloseIsSound(c.queue, failed);
    if !c.closed {
      assert received + "" == received;
      assert AccountsWith(parse, received, c.queue.delivered + Unqueued(c.queue.events), c.buffer, "");
    }
  }

  lemma PausedIsBlocked(parse: Parser, c: Client, line: string, rest: string, raw: string)
    requires QueueIsSound(c.queue) && !c.queue.closed && !Accepts(c.queue, ByteLength(line))
    requires line == Trim(raw) && '\n' !in raw && ByteLength(raw) <= MAX_LINE_BYTES && line != ""
             && parse(line).AnEvent?
    ensures IsBlocked(parse, c.(buffer := line + "\n" + rest, inputPaused := true, socketPaused := true))
  {
    TrimIsIdempotent(raw);
    assert c.queue.events == [] ==> c.queue.queuedBytes == 0;
    assert HeldBack(parse, c.(buffer := line + "\n" + rest, inputPaused := true, socketPaused := true), line, rest);
  }

  lemma HandledLineIsSound(parse: Parser, c: Client, received: string)
    requires IsSound(parse, c, received) && !c.closed
    requires NewlineAt(c.buffer) < |c.buffer| && ByteLength(c.buffer[..NewlineAt(c.buffer)]) <= MAX_LINE_BYTES
    requires var line := Trim(c.buffer[..NewlineAt(c.buffer)]);
             line == "" || (!parse(line).Malformed? && (parse(line).AnEvent? ==> Accepts(c.queue, ByteLength(line))))
    ensures var i := NewlineAt(c.buffer);
            var line := Trim(c.buffer[..i]);
            var queue := if line != "" && parse(line).AnEvent?
                then Pushed(c.queue, parse(line).event, ByteLength(line)) else c.queue;
            IsSound(parse, c.(buffer := c.buffer[i + 1..], queue := queue), received)
  {
    var line := Trim(c.buffer[..NewlineAt(c.buffer)]);
    var events := c.queue.delivered + Unqueued(c.queue.events);
    LineHandled(parse, received, events, c.buffer);
    if line != "" && parse(line).AnEvent? {
      PushIsSound(c.queue, parse(line).event, ByteLength(line));
    } else {
      assert events + [] == events;
    }
  }

  lemma PausedIsSound(parse: Parser, c: Client, received: string)
    requires IsSound(parse, c, received) && !c.closed
    requires NewlineAt(c.buffer) < |c.buffer| && ByteLength(c.buffer[..NewlineAt(c.buffer)]) <= MAX_LINE_BYTES
    requires var line := Trim(c.buffer[..NewlineAt(c.buffer)]);
             line != "" && parse(line).AnEvent? && !Accepts(c.queue, ByteLength(line))
    ensures var i := NewlineAt(c.buffer);
            var c' := c.(buffer := Trim(c.buffer[..i]) + "\n" + c.buffer[i + 1..], inputPaused := true,
                socketPaused := true);
            IsSound(parse, c', received) && AtRest(parse, c')
  {
    var i := NewlineAt(c.buffer);
    LinePutBack(parse, received, c.queue.delivered + Unqueued(c.queue.events), c.buffer, c.buffer[..i],
        c.buffer[i + 1..]);
    PausedIsBlocked(parse, c, Trim(c.buffer[..i]), c.buffer[i + 1..], c.buffer[..i]);
  }

  /** Handling the buffered lines keeps the account of all events. */
  lemma {:induction false} ConsumeIsSound(parse: Parser, c: Client, received: string)
    requires IsSound(parse, c, received) && !c.closed && !c.inputPaused
    ensures IsSound(parse, Consumed(parse, c), received)
    ensures AtRest(parse, Consumed(parse, c))
    ensures var c' := Consumed(parse, c);
            !c'.closed && !c'.inputPaused ==> c'.socketPaused == c.socketPaused
    decreases |c.buffer|
  {
    var i := NewlineAt(c.buffer);
    if i == |c.buffer| || ByteLength(c.buffer[..i]) > MAX_LINE_BYTES {
      ShutIsSound(parse, c, received, true);
      assert c.buffer[..|c.buffer|] == c.buffer;
    } else {
      var line, rest := Trim(c.buffer[..i]), c.buffer[i + 1..];
      if line != "" && parse(line).Malformed? {
        ShutIsSound(parse, c, received, true);
      } else if line != "" && parse(line).AnEvent? && !Accepts(c.queue, ByteLength(line)) {
        PausedIsSound(parse, c, received);
      } else {
        HandledLineIsSound(parse, c, received);
        if line != "" && parse(line).AnEvent? {
          ConsumeIsSound(parse, c.(buffer := rest, queue := Pushed(c.queue, parse(line).event, ByteLength(line))),
              received);
        } else {
          ConsumeIsSound(parse, c.(buffer := rest), received);
        }
      }
    }
  }

  lemma MoreTextWith(parse: Parser, received: string, events: seq<Event>, buffer: string, chunk: string, t: string)
    requires AccountsWith(parse, received, events, buffer, chunk + t)
    ensures AccountsWith(parse, received + chunk, events, buffer + chunk, t)
  {
    assert received + chunk + t == received + (chunk + t);
    assert buffer + chunk + t == buffer + (chunk + t);
  }

  lemma MoreTextAccounts(parse: Parser, received: string, events: seq<Event>, buffer: string, chunk: string)
    requires Accounts(parse, received, events, buffer)
    ensures Accounts(parse, received + chunk, events, buffer + chunk)
  {
    forall t: string
      ensures AccountsWith(parse, received + chunk, events, buffer + chunk, t)
    {
      assert AccountsWith(parse, received, events, buffer, chunk + t);
      MoreTextWith(parse, received, events, buffer, chunk, t);
    }
  }

  lemma ReceiveKeepsInvariant(parse: Parser, c: Client, received: string, chunk: string)
    requires Invariant(parse, c, received)
    ensures Invariant(parse, Receive(parse, c, chunk), received + chunk)
  {
    var more := c.(buffer := c.buffer + chunk);
    EventsOnlyGrow(parse, received, chunk);
    if !c.closed {
      MoreTextAccounts(parse, received, c.queue.delivered + Unqueued(c.queue.events), c.buffer, chunk);
      if c.inputPaused {
        var line, rest :| HeldBack(parse, c, line, rest);
        assert line + "\n" + rest + chunk == line + "\n" + (rest + chunk);
        assert HeldBack(parse, more, line, rest + chunk);
      } else {
        ConsumeIsSound(parse, more, received + chunk);
      }
    }
  }

  lemma NextKeepsInvariant(parse: Parser, c: Client, received: string)
    requires Invariant(parse, c, received)
    ensures Invariant(parse, CallNext(parse, c), received)
  {
    var taken := c.(queue := Taken(c.queue));
    TakeIsSound(c.queue);
    assert IsSound(parse, taken, received);
    if c.queue.events != [] && !c.closed && c.inputPaused {
      if |taken.queue.events| > EVENT_RESUME_WATERMARK {
        var line, rest :| HeldBack(parse, c, line, rest);
        assert HeldBack(parse, taken, line, rest);
      } else {
        var consumed := Consumed(parse, taken.(inputPaused := false));
        ConsumeIsSound(parse, taken.(inputPaused := false), received);
        assert IsSound(parse, consumed.(socketPaused := false), received);
      }
    }
  }

  ghost predicate Invariant(parse: Parser, c: Client, received: string) {
    && IsSound(parse, c, received)
    && AtRest(parse, c)
    && (!c.closed && !c.inputPaused ==> !c.socketPaused)
  }

  // Every run: text arrives in chunks of any size, `next` is called at any time,
  // and the connection may fail or finish at any time.

  datatype Step = Arrives(chunk: string) | Calls | Fails | Finishes

  /** The client and everything it has received. */
  datatype Session = Session(client: Client, received: string)

  const INITIAL := Client(Queue([], 0, [], false, false, [], []), "", false, false, false)

  function Perform(parse: Parser, s: Session, step: Step): Session {
    match step
    case Arrives(chunk) => Session(Receive(parse, s.client, chunk), s.received + chunk)
    case Calls => s.(client := CallNext(parse, s.client))
    case Fails => s.(client := Failed(s.client))
    case Finishes => s.(client := Finished(s.client))
  }

  function After(parse: Parser, steps: seq<Step>): Session {
    if steps == [] then Session(INITIAL, "") else Perform(parse, After(parse, steps[..|steps| - 1]), steps[|steps| - 1])
  }

  lemma {:induction false} EveryRunKeepsInvariant(parse: Parser, steps: seq<Step>)
    ensures var s := After(parse, steps);
            Invariant(parse, s.client, s.received)
  {
    if steps == [] {
      forall t: string
        ensures AccountsWith(parse, "", [], "", t)
      {
      }
      assert INITIAL.queue.delivered + Unqueued(INITIAL.queue.events) == [];
    } else {
      var s := After(parse, steps[..|steps| - 1]);
      EveryRunKeepsInvariant(parse, steps[..|steps| - 1]);
      match steps[|steps| - 1]
      case Arrives(chunk) => ReceiveKeepsInvariant(parse, s.client, s.received, chunk);
      case Calls => NextKeepsInvariant(parse, s.client, s.received);
      case Fails => ShutIsSound(parse, s.client, s.received, true);
      case Finishes => ShutIsSound(parse, s.client, s.received, false);
    }
  }

  // The main results.

  lemma AccountOfNow(parse: Parser, c: Client, received: string)
    requires IsSound(parse, c, received)
    ensures c.queue.delivered <= EventsIn(parse, received)
    ensures !c.closed ==>
              c.queue.delivered + Unqueued(c.queue.events) + EventsIn(parse, c.buffer) == EventsIn(parse, received)
  {
    if !c.closed {
      assert received + "" == received && c.buffer + "" == c.buffer;
      assert AccountsWith(parse, received, c.queue.delivered + Unqueued(c.queue.events), c.buffer, "");
    }
  }

  /** However the text is cut into chunks and whenever `next` is called: the k-th
      call gets the k-th event of the text, or waits, or finds the queue closed. */
  lemma KthCallGetsKthEvent(parse: Parser, steps: seq<Step>, k: nat)
    requires k < |After(parse, steps).client.queue.answers|
    ensures var s := After(parse, steps);
            match s.client.queue.answers[k]
            case Got(event) => k < |EventsIn(parse, s.received)| && event == EventsIn(parse, s.received)[k]
            case Pending => !s.client.closed
            case _ => s.client.closed
  {
    EveryRunKeepsInvariant(parse, steps);
    AccountOfNow(parse, After(parse, steps).client, After(parse, steps).received);
  }

  /** A call waits only after every event received so far was delivered, and while
      the socket is read. */
  lemma CallsWaitOnlyForText(parse: Parser, steps: seq<Step>)
    requires After(parse, steps).client.queue.waiters != []
    ensures var s := After(parse, steps);
            && s.client.queue.delivered == EventsIn(parse, s.received)
            && !s.client.inputPaused && !s.client.socketPaused
  {
    EveryRunKeepsInvariant(parse, steps);
    var s := After(parse, steps);
    AccountOfNow(parse, s.client, s.received);
    assert NewlineAt(s.client.buffer) == |s.client.buffer|;
  }

  /** A call on an open client returns the next event at once if any is left. */
  lemma NextEventIsReturnedAtOnce(parse: Parser, steps: seq<Step>)
    requires var s := After(parse, steps);
             !s.client.closed && s.client.queue.delivered != EventsIn(parse, s.received)
    ensures var s, s' := After(parse, steps), After(parse, steps + [Calls]);
            && |s.client.queue.delivered| < |EventsIn(parse, s.received)|
            && |s.client.queue.delivered| < |s'.client.queue.answers|
            && s'.client.queue.answers[|s.client.queue.delivered|] ==
                 Got(EventsIn(parse, s.received)[|s.client.queue.delivered|])
  {
    var s, s' := After(parse, steps), After(parse, steps + [Calls]);
    assert (steps + [Calls])[..|steps|] == steps;
    EveryRunKeepsInvariant(parse, steps);
    EveryRunKeepsInvariant(parse, steps + [Calls]);
    AccountOfNow(parse, s.client, s.received);
    assert NewlineAt(s.client.buffer) == |s.client.buffer| ==> EventsIn(parse, s.client.buffer) == [];
    assert s.client.queue.events != [];
    DeliveredByCall(parse, s.client);
  }

  lemma {:induction false} ConsumeOnlyDelivers(parse: Parser, c: Client)
    ensures c.queue.delivered <= Consumed(parse, c).queue.delivered
    decreases |c.buffer|
  {
    var i := NewlineAt(c.buffer);
    if !c.closed && !c.inputPaused && i < |c.buffer| && ByteLength(c.buffer[..i]) <= MAX_LINE_BYTES {
      var line, rest := Trim(c.buffer[..i]), c.buffer[i + 1..];
      if line == "" || !parse(line).AnEvent? {
        ConsumeOnlyDelivers(parse, c.(buffer := rest));
      } else if Accepts(c.queue, ByteLength(line)) {
        ConsumeOnlyDelivers(parse, c.(buffer := rest, queue := Pushed(c.queue, parse(line).event, ByteLength(line))));
      }
    }
  }

  lemma DeliveredByCall(parse: Parser, c: Client)
    requires c.queue.events != []
    ensures c.queue.delivered + [c.queue.events[0].event] <= CallNext(parse, c).queue.delivered
  {
    var taken := c.(queue := Taken(c.queue));
    ConsumeOnlyDelivers(parse, taken.(inputPaused := false));
  }

  /** Reading pauses only over a non-empty queue, within both limits, and resumes
      whenever an event and room for it are left. */
  lemma PausedInputLeavesEvents(parse: Parser, steps: seq<Step>)
    ensures var c := After(parse, steps).client;
            && c.queue.queuedBytes == Total(c.queue.events) <= MAX_EVENT_QUEUE_BYTES
            && |c.queue.events| <= MAX_EVENT_QUEUE
            && (!c.closed ==> c.inputPaused == c.socketPaused)
            && (!c.closed && c.inputPaused ==> c.queue.events != [] && IsBlocked(parse, c))
  {
    EveryRunKeepsInvariant(parse, steps);
  }

  /** While reading is not paused, nothing complete is left in the buffer. */
  lemma OpenInputIsHandled(parse: Parser, steps: seq<Step>)
    requires !After(parse, steps).client.closed && !After(parse, steps).client.inputPaused
    ensures var s := After(parse, steps);
            s.client.queue.delivered + Unqueued(s.client.queue.events) == EventsIn(parse, s.received)
  {
    EveryRunKeepsInvariant(parse, steps);
    var s := After(parse, steps);
    AccountOfNow(parse, s.client, s.received);
    assert NewlineAt(s.client.buffer) == |s.client.buffer|;
  }

  // What closes the client.

  /** Some complete line of the text is too long or malformed, or its unfinished last
      line is too long already. */
  predicate TextIsFaulty(parse: Parser, text: string)
    decreases |text|
  {
    var i := NewlineAt(text);
    if i == |text| then ByteLength(text) > MAX_LINE_BYTES
    else LineIsFaulty(parse, text[..i]) || TextIsFaulty(parse, text[i + 1..])
  }

  predicate LineIsFaulty(parse: Parser, line: string) {
    ByteLength(line) > MAX_LINE_BYTES || (Trim(line) != "" && parse(Trim(line)).Malformed?)
  }

  lemma FirstLineFaults(parse: Parser, text: string, t: string)
    requires NewlineAt(text) < |text|
    ensures var i := NewlineAt(text);
            TextIsFaulty(parse, text + t) <==> LineIsFaulty(parse, text[..i]) || TextIsFaulty(parse, text[i + 1..] + t)
  {
    var i := NewlineAt(text);
    NewlineStays(text, t);
    assert (text + t)[..i] == text[..i];
    assert (text + t)[i + 1..] == text[i + 1..] + t;
  }

  /** More text does not mend a fault. */
  lemma {:induction false} FaultsStay(parse: Parser, text: string, t: string)
    requires TextIsFaulty(parse, text)
    ensures TextIsFaulty(parse, text + t)
    decreases |text|
  {
    var i := NewlineAt(text);
    if i < |text| {
      FirstLineFaults(parse, text, t);
      if !LineIsFaulty(parse, text[..i]) {
        FaultsStay(parse, text[i + 1..], t);
      }
    } else {
      var j := NewlineAt(t);
      assert text[..i] == text;
      NewlineStays(text, t);
      ByteLengthOfTwo(text, t);
      ByteLengthOfTwo(text, t[..j]);
      assert (text + t)[..|text| + j] == text + t[..j];
    }
  }

  predicate SameFault(parse: Parser, received: string, buffer: string, t: string) {
    TextIsFaulty(parse, received + t) <==> TextIsFaulty(parse, buffer + t)
  }

  /** Whatever follows, the received text is faulty exactly if the buffered text is. */
  ghost predicate FaultsAreAhead(parse: Parser, received: string, buffer: string) {
    forall t: string {:trigger SameFault(parse, received, buffer, t)} :: SameFault(parse, received, buffer, t)
  }

  lemma FaultlessLineIsHandled(parse: Parser, received: string, buffer: string)
    requires FaultsAreAhead(parse, received, buffer)
    requires NewlineAt(buffer) < |buffer| && !LineIsFaulty(parse, buffer[..NewlineAt(buffer)])
    ensures FaultsAreAhead(parse, received, buffer[NewlineAt(buffer) + 1..])
  {
    var rest := buffer[NewlineAt(buffer) + 1..];
    forall t: string
      ensures SameFault(parse, received, rest, t)
    {
      assert SameFault(parse, received, buffer, t);
      FirstLineFaults(parse, buffer, t);
    }
  }

  lemma FaultlessLineIsPutBack(parse: Parser, received: string, buffer: string)
    requires FaultsAreAhead(parse, received, buffer)
    requires NewlineAt(buffer) < |buffer| && !LineIsFaulty(parse, buffer[..NewlineAt(buffer)])
    ensures var i := NewlineAt(buffer);
            FaultsAreAhead(parse, received, Trim(buffer[..i]) + "\n" + buffer[i + 1..])
  {
    var i := NewlineAt(buffer);
    var line, rest := Trim(buffer[..i]), buffer[i + 1..];
    TrimIsIdempotent(buffer[..i]);
    FirstLine(line, rest);
    forall t: string
      ensures SameFault(parse, received, line + "\n" + rest, t)
    {
      assert SameFault(parse, received, buffer, t);
      FirstLineFaults(parse, buffer, t);
      FirstLineFaults(parse, line + "\n" + rest, t);
    }
  }

  lemma FaultsNow(parse: Parser, received: string, buffer: string)
    requires FaultsAreAhead(parse, received, buffer)
    ensures TextIsFaulty(parse, received) <==> TextIsFaulty(parse, buffer)
  {
    assert SameFault(parse, received, buffer, "");
    assert received + "" == received && buffer + "" == buffer;
  }

  /** Neither 256 events nor 4 MiB leave room for another `bytes`. */
  predicate HasNoRoom(q: Queue, bytes: nat) {
    q.waiters == [] && (|q.events| == 256 || q.queuedBytes + bytes > 4 * 1024 * 1024)
  }

  /** The line at the front of the buffer is an event that the queue has no room for. */
  ghost predicate WaitsForRoom(parse: Parser, c: Client) {
    exists line, rest :: IsHeld(parse, c, line, rest) && HasNoRoom(c.queue, ByteLength(line))
  }

  predicate IsHeld(parse: Parser, c: Client, line: string, rest: string) {
    c.buffer == line + "\n" + rest && line != "" && '\n' !in line && Trim(line) == line && parse(line).AnEvent?
  }

  /** How handling the buffered lines ends: failed over a fault, paused over an event
      without room, or done with a faultless text. */
  ghost predicate EndsRightly(parse: Parser, received: string, c: Client) {
    if c.closed then c.queue.closed && c.queue.failed && TextIsFaulty(parse, received)
    else
      && !c.queue.closed && FaultsAreAhead(parse, received, c.buffer)
      && (c.inputPaused ==> c.socketPaused && WaitsForRoom(parse, c))
      && (!c.inputPaused ==> !TextIsFaulty(parse, received))
  }

  lemma {:induction false} ConsumeEndsRightly(parse: Parser, c: Client, received: string)
    requires QueueIsSound(c.queue) && !c.closed && !c.queue.closed && !c.inputPaused
    requires FaultsAreAhead(parse, received, c.buffer)
    ensures EndsRightly(parse, received, Consumed(parse, c))
    decreases |c.buffer|
  {
    var i := NewlineAt(c.buffer);
    FaultsNow(parse, received, c.buffer);
    if i < |c.buffer| && !LineIsFaulty(parse, c.buffer[..i]) {
      var line, rest := Trim(c.buffer[..i]), c.buffer[i + 1..];
      FaultlessLineIsHandled(parse, received, c.buffer);
      if line == "" || !parse(line).AnEvent? {
        ConsumeEndsRightly(parse, c.(buffer := rest), received);
      } else if Accepts(c.queue, ByteLength(line)) {
        PushIsSound(c.queue, parse(line).event, ByteLength(line));
        ConsumeEndsRightly(parse, c.(buffer := rest, queue := Pushed(c.queue, parse(line).event, ByteLength(line))),
            received);
      } else {
        TrimIsIdempotent(c.buffer[..i]);
        FaultlessLineIsPutBack(parse, received, c.buffer);
        assert IsHeld(parse, Consumed(parse, c), line, rest);
      }
    } else {
      assert c.buffer[..|c.buffer|] == c.buffer;
    }
  }

  /** Why the client of a run is closed, and what its calls are told. */
  ghost predicate IsClosedRightly(parse: Parser, steps: seq<Step>, s: Session) {
    var c := s.client;
    && c.closed == c.queue.closed
    && (c.closed ==> TextIsFaulty(parse, s.received) || Fails in steps || Finishes in steps)
    && (Fails in steps || Finishes in steps ==> c.closed)
    && (c.closed && c.queue.failed ==> TextIsFaulty(parse, s.received) || Fails in steps)
    && (c.closed && !c.queue.failed ==> Finishes in steps)
    && (!c.closed ==> FaultsAreAhead(parse, s.received, c.buffer))
    && (!c.closed && !c.inputPaused ==> !TextIsFaulty(parse, s.received))
  }

  lemma MoreTextKeepsFaults(parse: Parser, received: string, buffer: string, chunk: string)
    requires FaultsAreAhead(parse, received, buffer)
    ensures FaultsAreAhead(parse, received + chunk, buffer + chunk)
  {
    forall t: string
      ensures SameFault(parse, received + chunk, buffer + chunk, t)
    {
      assert SameFault(parse, received, buffer, chunk + t);
      assert received + chunk + t == received + (chunk + t) && buffer + chunk + t == buffer + (chunk + t);
    }
  }

  lemma ArrivalIsClosedRightly(parse: Parser, before: seq<Step>, s: Session, chunk: string)
    requires QueueIsSound(s.client.queue) && IsClosedRightly(parse, before, s)
    ensures IsClosedRightly(parse, before + [Arrives(chunk)], Perform(parse, s, Arrives(chunk)))
  {
    if TextIsFaulty(parse, s.received) {
      FaultsStay(parse, s.received, chunk);
    }
    if !s.client.closed {
      MoreTextKeepsFaults(parse, s.received, s.client.buffer, chunk);
      if !s.client.inputPaused {
        ConsumeEndsRightly(parse, s.client.(buffer := s.client.buffer + chunk), s.received + chunk);
      }
    }
  }

  lemma CallIsClosedRightly(parse: Parser, before: seq<Step>, s: Session)
    requires QueueIsSound(s.client.queue) && IsClosedRightly(parse, before, s)
    ensures IsClosedRightly(parse, before + [Calls], Perform(parse, s, Calls))
  {
    var taken := s.client.(queue := Taken(s.client.queue));
    TakeIsSound(s.client.queue);
    if !s.client.closed && s.client.queue.events != [] && s.client.inputPaused
       && |taken.queue.events| <= EVENT_RESUME_WATERMARK {
      ConsumeEndsRightly(parse, taken.(inputPaused := false), s.received);
    }
  }

  lemma {:induction false} EveryRunIsClosedRightly(parse: Parser, steps: seq<Step>)
    ensures IsClosedRightly(parse, steps, After(parse, steps))
  {
    if steps != [] {
      var before, last := steps[..|steps| - 1], steps[|steps| - 1];
      EveryRunIsClosedRightly(parse, before);
      EveryRunKeepsInvariant(parse, before);
      assert steps == before + [last];
      match last
      case Arrives(chunk) => ArrivalIsClosedRightly(parse, before, After(parse, before), chunk);
      case Calls => CallIsClosedRightly(parse, before, After(parse, before));
      case _ =>
    } else {
      forall t: string
        ensures SameFault(parse, "", "", t)
      {
      }
    }
  }

  /** However the text is cut and whenever `next` is called: the client is closed only
      over a faulty text, a failed connection or a finished one, and it stays open over
      a faulty text only while reading is paused before the fault. Later calls are
      rejected unless the connection finished. */
  lemma ClientClosesExactly(parse: Parser, steps: seq<Step>)
    ensures var s := After(parse, steps);
            && (s.client.closed ==> TextIsFaulty(parse, s.received) || Fails in steps || Finishes in steps)
            && (Fails in steps || Finishes in steps ==> s.client.closed)
            && (TextIsFaulty(parse, s.received) ==> s.client.closed || s.client.inputPaused)
    ensures var s := After(parse, steps);
            && (s.client.queue.failed ==> TextIsFaulty(parse, s.received) || Fails in steps)
            && (s.client.closed && !s.client.queue.failed ==> Finishes in steps)
  {
    EveryRunIsClosedRightly(parse, steps);
    EveryRunKeepsInvariant(parse, steps);
  }

  /** Arriving text pauses reading only before an event that the queue has no room
      for, at 256 events or 4 MiB; the client stays open and keeps its queue. */
  lemma ReadingPausesForRoom(parse: Parser, steps: seq<Step>, chunk: string)
    requires var c := After(parse, steps).client; !c.closed && !c.inputPaused
    ensures var c, c' := After(parse, steps).client, After(parse, steps + [Arrives(chunk)]).client;
            c'.inputPaused && !c'.closed ==> c'.socketPaused && WaitsForRoom(parse, c')
  {
    var s := After(parse, steps);
    assert (steps + [Arrives(chunk)])[..|steps|] == steps;
    EveryRunIsClosedRightly(parse, steps);
    EveryRunKeepsInvariant(parse, steps);
    MoreTextKeepsFaults(parse, s.received, s.client.buffer, chunk);
    ConsumeEndsRightly(parse, s.client.(buffer := s.client.buffer + chunk), s.received + chunk);
  }

  /** Taking an event leaves a paused client paused while more than 128 stay queued,
      and nothing is read. At 128 it reads on: until the text is handled, to a fault,
      or to the next event without room. */
  lemma ReadingResumesAtTheWatermark(parse: Parser, steps: seq<Step>)
    requires var c := After(parse, steps).client; !c.closed && c.inputPaused
    ensures var c, c' := After(parse, steps).client, After(parse, steps + [Calls]).client;
            if |c.queue.events| > 128 + 1 then
              && c'.inputPaused && !c'.closed && c'.buffer == c.buffer && c'.socketPaused == c.socketPaused
              && |c'.queue.events| == |c.queue.events| - 1
            else
              || c'.closed
              || (!c'.inputPaused && !c'.socketPaused)
              || (c'.inputPaused && c'.socketPaused && WaitsForRoom(parse, c'))
  {
    var s := After(parse, steps);
    assert (steps + [Calls])[..|steps|] == steps;
    EveryRunIsClosedRightly(parse, steps);
    EveryRunKeepsInvariant(parse, steps);
    PausedInputLeavesEvents(parse, steps);
    var taken := s.client.(queue := Taken(s.client.queue));
    TakeIsSound(s.client.queue);
    if |taken.queue.events| <= EVENT_RESUME_WATERMARK {
      ConsumeEndsRightly(parse, taken.(inputPaused := false), s.received);
    }
  }

  /** An event that finds no room leaves the client open, paused before it, with all
      its events. */
  lemma FullQueuePauses(parse: Parser, c: Client, line: string, rest: string)
    requires !c.closed && !c.inputPaused && c.buffer == "" && '\n' !in line && ByteLength(line) <= MAX_LINE_BYTES
    requires Trim(line) != "" && parse(Trim(line)).AnEvent?
    requires c.queue.closed || HasNoRoom(c.queue, ByteLength(Trim(line)))
    ensures Receive(parse, c, line + "\n" + rest) ==
            c.(buffer := Trim(line) + "\n" + rest, inputPaused := true, socketPaused := true)
  {
    assert c.buffer + (line + "\n" + rest) == line + "\n" + rest;
    FirstLine(line, rest);
  }

  // The queue and the client, updated in place.

  class EventQueue {
    var events: seq<Queued>
    var queuedBytes: int
    var waiters: seq<nat>
    var closed: bool
    var failed: bool
    var answers: seq<Answer>
    ghost var delivered: seq<Event>

    ghost function State(): Queue
      reads this
    {
      Queue(events, queuedBytes, waiters, closed, failed, answers, delivered)
    }

    constructor ()
      ensures State() == INITIAL.queue
    {
      events, queuedBytes, waiters, closed, failed, answers, delivered := [], 0, [], false, false, [], [];
    }

    method Resolve(ticket: nat, answer: Answer)
      modifies this`answers
      ensures answers == Settled(old(answers), ticket, answer)
    {
      if ticket < |answers| {
        answers := answers[ticket := answer];
      }
    }

    method Push(event: Event, bytes: nat) returns (pushed: bool)
      modifies this
      ensures pushed == Accepts(old(State()), bytes)
      ensures State() == Pushed(old(State()), event, bytes)
    {
      if closed {
        return false;
      }
      if waiters != [] {
        var waiter := waiters[0];
        waiters := waiters[1..];
        Resolve(waiter, Got(event));
        delivered := delivered + [event];
        return true;
      }
      if |events| >= MAX_EVENT_QUEUE || queuedBytes + bytes > MAX_EVENT_QUEUE_BYTES {
        return false;
      }
      events := events + [Queued(event, bytes)];
      queuedBytes := queuedBytes + bytes;
      return true;
    }

    method Close(error: bool)
      modifies this
      ensures State() == Closed(old(State()), error)
    {
      if closed {
        return;
      }
      closed := true;
      failed := error;
      events := [];
      queuedBytes := 0;
      var waiting := waiters;
      waiters := [];
      var i := 0;
      while i < |waiting|
        invariant 0 <= i <= |waiting|
        invariant SettledAll(answers, waiting[i..], if error then Rejected else Done)
               == SettledAll(old(answers), waiting, if error then Rejected else Done)
        invariant State() == old(State()).(events := [], queuedBytes := 0, waiters := [], closed := true,
                    failed := error, answers := answers)
      {
        Resolve(waiting[i], if error then Rejected else Done);
        assert waiting[i..][1..] == waiting[i + 1..];
        i := i + 1;
      }
    }

    /** The part of a call of `next` before it makes room known. */
    method Take() returns (taken: bool)
      modifies this
      ensures taken <==> old(events) != []
      ensures State() == Taken(old(State()))
    {
      if events != [] {
        var queued := events[0];
        events := events[1..];
        queuedBytes := queuedBytes - queued.bytes;
        answers := answers + [Got(queued.event)];
        delivered := delivered + [queued.event];
        return true;
      }
      if failed {
        answers := answers + [Rejected];
      } else if closed {
        answers := answers + [Done];
      } else {
        waiters := waiters + [|answers|];
        answers := answers + [Pending];
      }
      return false;
    }
  }

  class AgentTownClient {
    const parse: Parser
    const events: EventQueue
    var buffer: string
    var inputPaused: bool
    var socketPaused: bool
    var closed: bool

    ghost function State(): Client
      reads this, events
    {
      Client(events.State(), buffer, inputPaused, socketPaused, closed)
    }

    constructor (parse: Parser)
      ensures fresh(events) && State() == INITIAL && this.parse == parse
    {
      this.parse := parse;
      events := new EventQueue();
      buffer, inputPaused, socketPaused, closed := "", false, false, false;
    }

    method Fail()
      modifies this, events
      ensures State() == Failed(old(State()))
    {
      if closed {
        return;
      }
      closed := true;
      events.Close(true);
    }

    method Finish()
      modifies this, events
      ensures State() == Finished(old(State()))
    {
      closed := true;
      events.Close(false);
    }

    method Consume()
      modifies this, events
      ensures State() == Consumed(parse, old(State()))
    {
      if closed {
        return;
      }
      while !inputPaused
        invariant !closed
        invariant Consumed(parse, State()) == Consumed(parse, old(State()))
        decreases !inputPaused, |buffer|
      {
        var newline := NewlineAt(buffer);
        if newline == |buffer| {
          if ByteLength(buffer) > MAX_LINE_BYTES {
            Fail();
          }
          return;
        }
        if ByteLength(buffer[..newline]) > MAX_LINE_BYTES {
          Fail();
          return;
        }
        var line := Trim(buffer[..newline]);
        buffer := buffer[newline + 1..];
        if line == "" {
          continue;
        }
        var message := parse(line);
        if message.AnEvent? {
          var pushed := events.Push(message.event, ByteLength(line));
          if !pushed {
            buffer := line + "\n" + buffer;
            inputPaused := true;
            socketPaused := true;
          }
          continue;
        }
        if message.Malformed? {
          Fail();
          return;
        }
      }
    }

    /** A chunk arrives on the socket. */
    method OnData(chunk: string)
      modifies this, events
      ensures State() == Receive(parse, old(State()), chunk)
    {
      buffer := buffer + chunk;
      Consume();
    }

    method ResumeInputIfPossible()
      modifies this, events
      ensures State() == ResumeIfPossible(parse, old(State()))
    {
      if !inputPaused || closed || |events.events| > EVENT_RESUME_WATERMARK {
        return;
      }
      inputPaused := false;
      Consume();
      if !inputPaused && !closed {
        socketPaused := false;
      }
    }

    /** A consumer calls `next`. */
    method Next()
      modifies this, events
      ensures State() == CallNext(parse, old(State()))
    {
      var taken := events.Take();
      if taken {
        ResumeInputIfPossible();
      }
    }
  }
}
