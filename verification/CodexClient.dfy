/**
 The app-server client's shared state in place: each method is what one task does to it
 between two points where another may run.
 */
module CodexClient {
  import opened Protocol
  import opened Correlation

  class Client {
    var next: nat
    var pending: Option<set<nat>>
    var requests: map<nat, Request>
    var hand: Option<(nat, Arrival)>
    var lines: seq<Line>
    var reading: bool
    var writing: bool
    var open: bool

    function State(): ClientState
      reads this
    {
      ClientState(next, pending, requests, hand, lines, reading, writing, open)
    }

    constructor ()
      ensures State() == CONNECTED
    {
      next, pending, requests, hand, lines := 1, Some({}), map[], None, [];
      reading, writing, open := true, true, true;
    }

    /** Takes an id, registers the request and sends its line, unless the connection has closed. */
    method Begin() returns (id: nat, sent: bool)
      requires next !in requests
      modifies this
      ensures id == old(next) && (sent <==> old(pending).Some? && old(open))
      ensures State() == (var registered := old(State()).TakeId().Register(id);
                          if old(pending).Some? then registered.Send(id) else registered)
    {
      id := next;
      next := next + 1;
      if pending.None? {
        requests := requests[id := Request(Done(Closed), |lines|, None)];
        return id, false;
      }
      pending := Some(pending.value + {id});
      if !open {
        requests := requests[id := Request(Done(Closed), |lines|, None)];
        Forget(id);
        return id, false;
      }
      requests := requests[id := Request(Waiting, |lines|, None)];
      sent := true;
    }

    /** The guard of a request: its entry goes when its future ends. */
    method Forget(id: nat)
      modifies this`pending
      ensures State() == old(State()).Forget(id)
    {
      if pending.Some? {
        pending := Some(pending.value - {id});
      }
    }

    /** The read loop handles a line: an answer goes to the request that waits for it. */
    method Dispatch(line: Line)
      requires hand.None? && (pending.Some? ==> forall id :: id in pending.value ==> id in requests)
      modifies this`lines, this`pending, this`requests
      ensures var heard := old(State()).Hear(line);
              State() == if heard.hand.Some? then heard.Deliver() else heard
    {
      lines := lines + [line];
      match AnswerOf(line) {
        case Some((IntegerId(id), answer)) =>
          if id >= 0 && pending.Some? && id in pending.value {
            pending := Some(pending.value - {id});
            var request := requests[id];
            if request.stage in {Registered, Waiting} {
              requests := requests[id := request.(sent := Some(Arrival(|lines| - 1, answer)))];
            }
          }
        case _ =>
      }
    }

    /** Ends a waiting request once its answer is there, or its sender is gone. */
    method Poll(id: nat) returns (outcome: Option<Outcome>)
      requires id in requests && requests[id].stage == Waiting
      modifies this`requests, this`pending
      ensures var ready := old(requests)[id].sent.Some? || old(State()).SenderIsGone(id);
              && (outcome.Some? <==> ready)
              && State() == (if ready then old(State()).Resolve(id) else old(State()))
              && (ready ==> requests[id].stage == Done(outcome.value))
    {
      var request := requests[id];
      if request.sent.None? && !State().SenderIsGone(id) {
        return None;
      }
      var ended := if request.sent.Some? then Answered(request.sent.value) else Closed;
      requests := requests[id := request.(stage := Done(ended))];
      Forget(id);
      outcome := Some(ended);
    }

    method Drop(id: nat)
      requires id in requests && requests[id].stage == Waiting
      modifies this`requests, this`pending
      ensures State() == old(State()).Drop(id)
    {
      requests := requests[id := requests[id].(stage := Dropped)];
      Forget(id);
    }

    /** The end of either loop takes every entry away, for good. */
    method EndReading()
      modifies this`reading, this`pending
      ensures State() == old(State()).EndReading()
    {
      reading, pending := false, None;
    }

    method EndWriting()
      modifies this`writing, this`pending
      ensures State() == old(State()).EndWriting()
    {
      writing, pending := false, None;
    }
  }
}
