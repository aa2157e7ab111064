/**
 JSON-RPC request correlation in the app-server client, as a state machine: requests,
 the read loop, the write loop and dropped futures interleave at every point where the
 code lets another task run. Each request resolves at most once, with the first line
 that carries its id.
 */
module Correlation {
  import opened Protocol

  datatype RequestId = IntegerId(value: int) | StringId(text: string)

  /** One line: the members a message is decoded from, or what can be told of one that is not. */
  datatype Line =
    | Readable(id: Option<RequestId>, call: Option<string>, result: Option<string>, error: Option<int>)
    | Unreadable(lineId: Option<RequestId>, hasMethod: bool)

  datatype Answer = Result(value: string) | Failure(code: int)

  const PARSE_ERROR: int := -32700

  /** The request a line answers, and how. */
  function AnswerOf(line: Line): Option<(RequestId, Answer)> {
    match line
    case Readable(id, call, result, error) =>
      if id.None? then None
      else if error.Some? then Some((id.value, Failure(error.value)))
      else if call.Some? then None
      else Some((id.value, Result(if result.Some? then result.value else "null")))
    case Unreadable(id, hasMethod) =>
      if id.Some? && !hasMethod then Some((id.value, Failure(PARSE_ERROR))) else None
  }

  /**
   The line answers the request: it carries its id, and an error, or no method. A line that
   cannot be decoded answers it if its id can be told and it names no method.
   */
  predicate IsFor(line: Line, id: nat) {
    match line
    case Readable(lineId, call, _, error) => lineId == Some(IntegerId(id)) && (error.Some? || call.None?)
    case Unreadable(lineId, hasMethod) => lineId == Some(IntegerId(id)) && !hasMethod
  }

  /** What the line says to the request it is for: its error, or else its result, null if it has none. */
  predicate Says(line: Line, answer: Answer) {
    match line
    case Readable(_, _, result, error) =>
      && (error.Some? ==> answer == Failure(error.value))
      && (error.None? && result.Some? ==> answer == Result(result.value))
      && (error.None? && result.None? ==> answer == Result("null"))
    case Unreadable(_, _) => answer == Failure(-32700)
  }

  /** What was read of an answer is what its line says, and whom it is for. */
  lemma AnswersAreOfLines(line: Line, id: nat)
    ensures IsFor(line, id) <==> AnswerOf(line).Some? && AnswerOf(line).value.0 == IntegerId(id)
    ensures IsFor(line, id) ==> Says(line, AnswerOf(line).value.1)
  {
  }

  /** An answer on its way, with the place of its line among those read. */
  datatype Arrival = Arrival(line: nat, answer: Answer)

  /** How a request ended: with an answer, or because the connection closed. */
  datatype Outcome = Answered(arrival: Arrival) | Closed

  /** A request has taken its id, is registered, waits, has ended, or its future was dropped. */
  datatype Stage = Taken | Registered | Waiting | Done(outcome: Outcome) | Dropped

  /** `since` counts the lines read before it was registered; `sent` is what its channel holds. */
  datatype Request = Request(stage: Stage, since: nat, sent: Option<Arrival>)

  /**
   `pending` is `None` once a loop has ended. `hand` is the answer the read loop has taken
   from `pending` and not yet put into its request's channel.
   */
  datatype ClientState = ClientState(
    next: nat,
    pending: Option<set<nat>>,
    requests: map<nat, Request>,
    hand: Option<(nat, Arrival)>,
    lines: seq<Line>,
    reading: bool,
    writing: bool,
    open: bool)
  {
    function With(id: nat, request: Request): ClientState {
      this.(requests := requests[id := request])
    }

    /** What the guard of a request does when its future ends, for any reason. */
    function Forget(id: nat): ClientState {
      if pending.Some? then this.(pending := Some(pending.value - {id})) else this
    }

    function TakeId(): ClientState {
      this.(next := next + 1).With(next, Request(Taken, 0, None))
    }

    function Register(id: nat): ClientState {
      if pending.None? then With(id, Request(Done(Closed), |lines|, None))
      else this.(pending := Some(pending.value + {id})).With(id, Request(Registered, |lines|, None))
    }

    function Send(id: nat): ClientState
      requires id in requests
    {
      if open then With(id, requests[id].(stage := Waiting))
      else With(id, requests[id].(stage := Done(Closed))).Forget(id)
    }

    /** The read loop takes a line, and the answered request's sender out of `pending`. */
    function Hear(line: Line): ClientState {
      var heard := this.(lines := lines + [line]);
      var answer := AnswerOf(line);
      if && answer.Some? && answer.value.0.IntegerId? && answer.value.0.value >= 0
         && pending.Some? && answer.value.0.value in pending.value
      then heard.(pending := Some(pending.value - {answer.value.0.value}),
                  hand := Some((answer.value.0.value, Arrival(|lines|, answer.value.1))))
      else heard
    }

    /** A channel whose receiver is gone takes nothing. */
    function Deliver(): ClientState
      requires hand.Some? && hand.value.0 in requests
    {
      var request := requests[hand.value.0];
      var left := this.(hand := None);
      if request.stage in {Registered, Waiting}
      then left.With(hand.value.0, request.(sent := Some(hand.value.1))) else left
    }

    /** The sender is neither registered nor in hand. */
    predicate SenderIsGone(id: nat) {
      (pending.None? || id !in pending.value) && (hand.None? || hand.value.0 != id)
    }

    function Resolve(id: nat): ClientState
      requires id in requests
    {
      var sent := requests[id].sent;
      With(id, requests[id].(stage := Done(if sent.Some? then Answered(sent.value) else Closed))).Forget(id)
    }

    function Drop(id: nat): ClientState
      requires id in requests
    {
      With(id, requests[id].(stage := Dropped)).Forget(id)
    }

    function EndReading(): ClientState { this.(reading := false, pending := None) }

    function EndWriting(): ClientState { this.(writing := false, pending := None) }

    function CloseLines(): ClientState { this.(open := false) }
  }

  const CONNECTED: ClientState := ClientState(1, Some({}), map[], None, [], true, true, true)

  datatype Step =
    | TakesId
    | Registers(id: nat)
    | Sends(id: nat)
    | Hears(line: Line)
    | Delivers
    | Resolves(id: nat)
    | Drops(id: nat)
    | ReadingEnds
    | WritingEnds
    | LinesClose

  predicate IsAt(s: ClientState, id: nat, stage: Stage) {
    id in s.requests && s.requests[id].stage == stage
  }

  predicate Allowed(s: ClientState, step: Step) {
    match step
    case TakesId => true
    case Registers(id) => IsAt(s, id, Taken)
    case Sends(id) => IsAt(s, id, Registered)
    case Hears(_) => s.reading && s.hand.None?
    case Delivers => s.hand.Some? && s.hand.value.0 in s.requests
    case Resolves(id) => IsAt(s, id, Waiting) && (s.requests[id].sent.Some? || s.SenderIsGone(id))
    case Drops(id) => IsAt(s, id, Waiting)
    case ReadingEnds => s.reading && s.hand.None?
    case WritingEnds => s.writing
    case LinesClose => !s.writing
  }

  function Do(s: ClientState, step: Step): ClientState
    requires Allowed(s, step)
  {
    match step
    case TakesId => s.TakeId()
    case Registers(id) => s.Register(id)
    case Sends(id) => s.Send(id)
    case Hears(line) => s.Hear(line)
    case Delivers => s.Deliver()
    case Resolves(id) => s.Resolve(id)
    case Drops(id) => s.Drop(id)
    case ReadingEnds => s.EndReading()
    case WritingEnds => s.EndWriting()
    case LinesClose => s.CloseLines()
  }

  ghost predicate Leads(s: ClientState, steps: seq<Step>, t: ClientState)
    decreases |steps|
  {
    if steps == [] then s == t else Allowed(s, steps[0]) && Leads(Do(s, steps[0]), steps[1..], t)
  }

  // ---------------------------------------------------------------------
  // The invariant

  /** What the first line for this id says, since so many had been read. */
  predicate FirstFor(lines: seq<Line>, since: nat, id: nat, arrival: Arrival) {
    && since <= arrival.line < |lines| && IsFor(lines[arrival.line], id) && Says(lines[arrival.line], arrival.answer)
    && forall i :: since <= i < arrival.line ==> !IsFor(lines[i], id)
  }

  predicate NoneFor(lines: seq<Line>, since: nat, id: nat) {
    since <= |lines| && forall i :: since <= i < |lines| ==> !IsFor(lines[i], id)
  }

  predicate InHand(s: ClientState, id: nat) {
    s.hand.Some? && s.hand.value.0 == id
  }

  predicate IsPending(s: ClientState, id: nat) {
    s.pending.Some? && id in s.pending.value
  }

  /** What holds of one request. */
  predicate RequestInv(s: ClientState, id: nat)
    requires id in s.requests
  {
    var r := s.requests[id];
    && r.since <= |s.lines|
    // No entry outlives its request, and none is left once an answer is under way.
    && (IsPending(s, id) ==>
          r.stage in {Registered, Waiting} && r.sent.None? && !InHand(s, id) && NoneFor(s.lines, r.since, id))
    // A request that waits is registered, or its answer is under way, or the connection closed.
    && (r.stage in {Registered, Waiting} ==> IsPending(s, id) || InHand(s, id) || r.sent.Some? || s.pending.None?)
    && (InHand(s, id) ==> FirstFor(s.lines, r.since, id, s.hand.value.1) && r.sent.None? && r.stage != Taken)
    && (r.sent.Some? ==> FirstFor(s.lines, r.since, id, r.sent.value) && r.stage != Taken)
    && (r.stage.Done? && r.stage.outcome.Answered? ==> r.sent == Some(r.stage.outcome.arrival))
  }

  ghost predicate CorrelationInv(s: ClientState) {
    && (forall id: nat :: id in s.requests ==> id < s.next)
    && (forall id: nat :: IsPending(s, id) || InHand(s, id) ==> id in s.requests)
    && (s.pending.None? <==> !s.reading || !s.writing)
    && (!s.open ==> !s.writing)
    && (forall id: nat :: id in s.requests ==> RequestInv(s, id))
  }

  lemma OneStepKeepsRequest(s: ClientState, step: Step, id: nat)
    requires CorrelationInv(s) && Allowed(s, step) && id in Do(s, step).requests
    ensures RequestInv(Do(s, step), id)
  {
    if id !in s.requests {
      assert !IsPending(s, id) && !InHand(s, id);
      return;
    }
    assert RequestInv(s, id);
    match step {
      case Registers(other) => RegisteringKeepsRequest(s, other, id);
      case Sends(other) => SendingKeepsRequest(s, other, id);
      case Hears(line) => HearingKeepsRequest(s, line, id);
      case Delivers => DeliveringKeepsRequest(s, id);
      case Resolves(other) => ResolvingKeepsRequest(s, other, id);
      case Drops(other) => DroppingKeepsRequest(s, other, id);
      case _ =>
    }
  }

  lemma RegisteringKeepsRequest(s: ClientState, other: nat, id: nat)
    requires id in s.requests && RequestInv(s, id) && IsAt(s, other, Taken)
    ensures RequestInv(s.Register(other), id)
  {
  }

  lemma SendingKeepsRequest(s: ClientState, other: nat, id: nat)
    requires id in s.requests && RequestInv(s, id) && IsAt(s, other, Registered)
    ensures RequestInv(s.Send(other), id)
  {
  }

  lemma DeliveringKeepsRequest(s: ClientState, id: nat)
    requires id in s.requests && RequestInv(s, id) && s.hand.Some? && s.hand.value.0 in s.requests
    ensures RequestInv(s.Deliver(), id)
  {
  }

  lemma ResolvingKeepsRequest(s: ClientState, other: nat, id: nat)
    requires id in s.requests && RequestInv(s, id) && IsAt(s, other, Waiting)
    ensures RequestInv(s.Resolve(other), id)
  {
  }

  lemma DroppingKeepsRequest(s: ClientState, other: nat, id: nat)
    requires id in s.requests && RequestInv(s, id) && IsAt(s, other, Waiting)
    ensures RequestInv(s.Drop(other), id)
  {
  }

  lemma HearingKeepsRequest(s: ClientState, line: Line, id: nat)
    requires id in s.requests && RequestInv(s, id) && s.hand.None?
    ensures RequestInv(s.Hear(line), id)
  {
    AnswersAreOfLines(line, id);
    var lines := s.lines + [line];
    assert forall i :: 0 <= i < |s.lines| ==> lines[i] == s.lines[i];
    assert lines[|s.lines|] == line;
  }

  lemma StepKeepsCorrelation(s: ClientState, step: Step)
    requires CorrelationInv(s) && Allowed(s, step)
    ensures CorrelationInv(Do(s, step))
  {
    hide RequestInv;
    forall id: nat | id in Do(s, step).requests
      ensures RequestInv(Do(s, step), id)
    {
      OneStepKeepsRequest(s, step, id);
    }
  }

  lemma {:induction false} EveryRunKeepsCorrelation(s: ClientState, steps: seq<Step>, t: ClientState)
    requires CorrelationInv(s) && Leads(s, steps, t)
    ensures CorrelationInv(t)
    decreases |steps|
  {
    if steps != [] {
      StepKeepsCorrelation(s, steps[0]);
      EveryRunKeepsCorrelation(Do(s, steps[0]), steps[1..], t);
    }
  }

  // ---------------------------------------------------------------------
  // What every run guarantees

  /**
   An answered request got what the first line says that carries its own id after it was
   registered: that line's error, or its result.
   */
  lemma AnswersAreOnesOwn(steps: seq<Step>, t: ClientState, id: nat, arrival: Arrival)
    requires Leads(CONNECTED, steps, t) && IsAt(t, id, Done(Answered(arrival)))
    ensures FirstFor(t.lines, t.requests[id].since, id, arrival)
  {
    EveryRunKeepsCorrelation(CONNECTED, steps, t);
    assert RequestInv(t, id);
  }

  /** Two requests never share a line. */
  lemma AnswersAreNotShared(steps: seq<Step>, t: ClientState, a: nat, b: nat, x: Arrival, y: Arrival)
    requires Leads(CONNECTED, steps, t)
    requires IsAt(t, a, Done(Answered(x))) && IsAt(t, b, Done(Answered(y))) && x.line == y.line
    ensures a == b
  {
    AnswersAreOnesOwn(steps, t, a, x);
    AnswersAreOnesOwn(steps, t, b, y);
  }

  lemma EndedStaysEnded(s: ClientState, step: Step, id: nat)
    requires CorrelationInv(s) && Allowed(s, step)
    requires id in s.requests && (s.requests[id].stage.Done? || s.requests[id].stage.Dropped?)
    ensures id in Do(s, step).requests && Do(s, step).requests[id].stage == s.requests[id].stage
  {
  }

  /** A request that has ended stays as it ended, and its id is never used again. */
  lemma {:induction false} ResolvesAtMostOnce(s: ClientState, steps: seq<Step>, t: ClientState, id: nat)
    requires CorrelationInv(s) && Leads(s, steps, t)
    requires id in s.requests && (s.requests[id].stage.Done? || s.requests[id].stage.Dropped?)
    ensures id in t.requests && t.requests[id].stage == s.requests[id].stage
    decreases |steps|
  {
    if steps != [] {
      StepKeepsCorrelation(s, steps[0]);
      EndedStaysEnded(s, steps[0], id);
      ResolvesAtMostOnce(Do(s, steps[0]), steps[1..], t, id);
    }
  }

  /**
   No entry outlives its request, and no waiting request is forgotten: while the
   connection is open, the entries are exactly the requests still to be answered.
   */
  lemma EntriesAreTheUnanswered(steps: seq<Step>, t: ClientState, id: nat)
    requires Leads(CONNECTED, steps, t) && t.pending.Some?
    ensures id in t.pending.value
            <==> && id in t.requests && t.requests[id].stage in {Registered, Waiting}
                 && NoneFor(t.lines, t.requests[id].since, id)
  {
    EveryRunKeepsCorrelation(CONNECTED, steps, t);
    if id in t.requests {
      assert RequestInv(t, id);
    }
  }

  /** What can still be answered once the connection has closed: what was under way by then. */
  predicate UnderWay(s: ClientState, id: nat) {
    InHand(s, id) || (id in s.requests && s.requests[id].sent.Some?)
  }

  lemma {:induction false} ClosedStaysClosed(s: ClientState, steps: seq<Step>, t: ClientState, id: nat)
    requires CorrelationInv(s) && s.pending.None? && Leads(s, steps, t) && !UnderWay(s, id)
    ensures t.pending.None? && !UnderWay(t, id)
    decreases |steps|
  {
    if steps != [] {
      StepKeepsCorrelation(s, steps[0]);
      ClosedStaysClosed(Do(s, steps[0]), steps[1..], t, id);
    }
  }

  /**
   Once either loop has ended, every request whose answer was not under way by then, and
   every one made later, can only fail; and nothing keeps it from failing at once.
   */
  lemma ClosingFailsTheRest(before: seq<Step>, s: ClientState, steps: seq<Step>, t: ClientState, id: nat)
    requires Leads(CONNECTED, before, s) && (!s.reading || !s.writing)
    requires Leads(s, steps, t) && !UnderWay(s, id) && id in t.requests
    ensures t.requests[id].stage.Done? ==> t.requests[id].stage.outcome == Closed
    ensures IsAt(t, id, Taken) ==> IsAt(Do(t, Registers(id)), id, Done(Closed))
    ensures IsAt(t, id, Waiting) ==> Allowed(t, Resolves(id)) && IsAt(Do(t, Resolves(id)), id, Done(Closed))
  {
    EveryRunKeepsCorrelation(CONNECTED, before, s);
    EveryRunKeepsCorrelation(s, steps, t);
    ClosedStaysClosed(s, steps, t, id);
    assert RequestInv(t, id);
  }
}
