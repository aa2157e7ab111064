/**
 What a copy of one Bot's conversation owes the gateway's log, and why replaying
 events onto a page keeps it: whatever position the page really showed, whatever
 order truthful events come in, and however often they are repeated.
 */
module Copies {
  import opened Protocol
  import opened ServerLog
  import opened StoreModel

  /** Every message in the copy is one of the gateway's, under its own id and Bot. */
  ghost predicate Genuine(log: seq<Event>, messages: MessageMap) {
    forall id :: id in messages ==>
                   && messages[id].id == id && id in Fold(log, |log|)
                   && Fold(log, |log|)[id].bot == messages[id].bot
  }

  /**
   What a copy of a conversation is a copy of: the Bot, the number its page reflected,
   the cursor it starts from, and the furthest position its pages or events showed.
   */
  datatype Scope = Scope(bot: BotId, upTo: nat, older: Option<MessageId>, shown: nat)

  /** Each of the Bot's messages held is the gateway's at k or later. */
  ghost predicate Current(log: seq<Event>, scope: Scope, messages: MessageMap, k: nat) {
    forall id :: id in messages && messages[id].bot == scope.bot ==>
                   exists q :: k <= q <= Max(k, scope.shown) && ShownAt(log, q, messages[id])
  }

  /** One of the Bot's messages that the gateway had after n events. */
  ghost predicate Has(log: seq<Event>, n: nat, bot: BotId, id: MessageId) {
    n <= |log| && id in Fold(log, n) && Fold(log, n)[id].bot == bot
  }

  /** A reply streamed after i events and no longer after k. */
  ghost predicate EndedBetween(log: seq<Event>, i: nat, k: nat, id: MessageId)
    requires i <= k <= |log| && id in Fold(log, i)
  {
    && Fold(log, i)[id].state.Streaming?
    && id in Fold(log, k) && !Fold(log, k)[id].state.Streaming?
  }

  predicate From(cursor: Option<MessageId>, id: MessageId) {
    cursor.Some? ==> cursor.value <= id
  }

  /**
   The copy misses nothing: it has every message the page covered, from its cursor
   on, every message created after the page, and every reply that ended after it.
   */
  ghost predicate Whole(log: seq<Event>, scope: Scope, messages: MessageMap, k: nat) {
    && scope.upTo <= k <= |log|
    && (forall id :: Has(log, scope.upTo, scope.bot, id) && From(scope.older, id) ==> id in messages)
    && (forall id :: Has(log, k, scope.bot, id) && !Has(log, scope.upTo, scope.bot, id) ==> id in messages)
    && (forall id :: Has(log, scope.upTo, scope.bot, id) && EndedBetween(log, scope.upTo, k, id) ==> id in messages)
  }

  /** The copy is right after event k. */
  ghost predicate Faithful(log: seq<Event>, scope: Scope, messages: MessageMap, k: nat) {
    Genuine(log, messages) && Whole(log, scope, messages, k) && Current(log, scope, messages, k)
  }

  /** What the copy covers is enough to place every later event of the Bot. */
  ghost predicate Covers(log: seq<Event>, scope: Scope) {
    && scope.upTo <= |log|
    && forall id :: Has(log, scope.upTo, scope.bot, id) && Fold(log, scope.upTo)[id].state.Streaming? ==>
                      From(scope.older, id)
  }

  // ---------------------------------------------------------------------
  // One message

  /**
   Deltas cut from one stream extend a copy of its start along that stream only, to
   exactly where the delta ends or the copy already reached; a delta that starts
   beyond the copy is refused, and only such a delta.
   */
  lemma DeltasFollowTheStream(message: Message, stream: string, offset: nat, delta: string)
    requires message.state.Streaming? && message.text <= stream
    requires offset + |delta| <= |stream| && delta == stream[offset..offset + |delta|]
    ensures AppendDelta(message, offset, delta).None? <==> |message.text| < offset
    ensures offset <= |message.text| ==>
              AppendDelta(message, offset, delta)
              == Some(message.(text := stream[..Max(|message.text|, offset + |delta|)]))
  {
    if offset <= |message.text| {
      var known := |message.text| - offset;
      if known <= |delta| {
        assert message.text + delta[known..] == stream[..offset + |delta|];
      } else {
        assert message.text + "" == message.text == stream[..|message.text|];
      }
    }
  }

  /** What a delta does to its message in the gateway's own copy. */
  lemma DeltaInLog(log: seq<Event>, j: nat)
    requires WellFormed(log) && 0 < j <= |log| && log[j - 1].MessageDelta?
    ensures var id := log[j - 1].messageId;
            && id in Fold(log, j - 1) && Fold(log, j - 1)[id].state.Streaming?
            && log[j - 1].offset == |Fold(log, j - 1)[id].text|
            && id in Fold(log, j)
            && Fold(log, j)[id]
               == Fold(log, j - 1)[id].(text := Fold(log, j - 1)[id].text + log[j - 1].delta, stamp := None)
  {
    assert FollowsAt(log, j - 1);
  }

  /**
   A delta and a message that shows the log at q. If the delta is already part of
   it, nothing changes; if it is the next event, the message follows; a later one is
   either refused or brings the message to that event exactly.
   */
  lemma DeltaOnMessage(log: seq<Event>, q: nat, message: Message, j: nat)
    requires WellFormed(log) && ShownAt(log, q, message) && 0 < j <= |log|
    requires log[j - 1].MessageDelta? && log[j - 1].messageId == message.id
    ensures var grown := AppendDelta(message, log[j - 1].offset, log[j - 1].delta);
            && (j <= q + 1 ==> grown.Some?)
            && (grown.Some? ==> ShownAt(log, Max(q, j), grown.value))
            && (grown.Some? && j <= q ==> grown.value == message)
  {
    if j <= q {
      DeltaSeen(log, q, message, j);
    } else {
      DeltaAhead(log, q, message, j);
    }
  }

  /** A delta already part of the message changes nothing. */
  lemma DeltaSeen(log: seq<Event>, q: nat, message: Message, j: nat)
    requires WellFormed(log) && ShownAt(log, q, message) && 0 < j <= q
    requires log[j - 1].MessageDelta? && log[j - 1].messageId == message.id
    ensures AppendDelta(message, log[j - 1].offset, log[j - 1].delta) == Some(message)
  {
    var id, offset, delta := message.id, log[j - 1].offset, log[j - 1].delta;
    DeltaInLog(log, j);
    var after := Fold(log, j)[id].text;
    assert delta == after[offset..offset + |delta|];
    MessagesGrow(log, j, q, id);
    if message.state.Streaming? {
      assert delta == message.text[offset..offset + |delta|];
      DeltasFollowTheStream(message, message.text, offset, delta);
      assert message.text[..|message.text|] == message.text;
    }
  }

  /** A delta past the message brings it to that event, or is refused. */
  lemma DeltaAhead(log: seq<Event>, q: nat, message: Message, j: nat)
    requires WellFormed(log) && ShownAt(log, q, message) && q < j <= |log|
    requires log[j - 1].MessageDelta? && log[j - 1].messageId == message.id
    ensures var grown := AppendDelta(message, log[j - 1].offset, log[j - 1].delta);
            (j == q + 1 ==> grown.Some?) && (grown.Some? ==> ShownAt(log, j, grown.value))
  {
    hide AppendDelta, WellFormed;
    var id, offset, delta := message.id, log[j - 1].offset, log[j - 1].delta;
    DeltaInLog(log, j);
    var before, after := Fold(log, j - 1)[id].text, Fold(log, j)[id].text;
    EndOf(before, delta, after);
    MessagesGrow(log, q, j - 1, id);
    PrefixGrows(message.text, before, after);
    DeltasFollowTheStream(message, after, offset, delta);
  }

  lemma EndOf(before: string, delta: string, after: string)
    requires after == before + delta
    ensures delta == after[|before|..|before| + |delta|] && after[..|after|] == after
  {
  }

  lemma PrefixGrows(start: string, before: string, after: string)
    requires start <= before && before <= after
    ensures start <= after
  {
  }

  /** A creation found the message only if the message already shows the creation. */
  lemma CreatedMessage(log: seq<Event>, q: nat, message: Message, j: nat)
    requires WellFormed(log) && ShownAt(log, q, message) && 0 < j <= |log|
    requires log[j - 1].MessageCreated? && log[j - 1].message.id == message.id
    ensures j <= q && Ahead(message, log[j - 1].message)
  {
    assert FollowsAt(log, j - 1);
    if q < j {
      MessagesGrow(log, q, j - 1, message.id);
    } else {
      MessagesGrow(log, j, q, message.id);
    }
  }

  /** A creation leaves the message held or the one created, whichever is the newer. */
  lemma CreationIsShown(messages: MessageMap, message: Message)
    ensures var after := Receive(messages, MessageCreated(message));
            && !after.incomplete && message.id in after.messages
            && (after.messages[message.id].state.Streaming? ==> message.text <= after.messages[message.id].text)
            && (after.messages == messages || after.messages == messages[message.id := message])
            && (message.id in messages && message.text < messages[message.id].text ==> after.messages == messages)
            && (message.id in messages && !messages[message.id].state.Streaming? ==> after.messages == messages)
  {
  }

  lemma CompletedMessage(log: seq<Event>, q: nat, message: Message, j: nat)
    requires WellFormed(log) && ShownAt(log, q, message) && 0 < j <= |log|
    requires log[j - 1].MessageCompleted? && log[j - 1].message.id == message.id
    ensures ShownAt(log, Max(q, j), log[j - 1].message)
  {
    assert FollowsAt(log, j - 1);
    if j <= q {
      MessagesGrow(log, j, q, message.id);
    }
  }

  /** The message an event changes, if it changes one. */
  function Subject(event: Event): Option<MessageId> {
    match event
    case MessageCreated(message) => Some(message.id)
    case MessageCompleted(message) => Some(message.id)
    case MessageDelta(_, id, _, _) => Some(id)
    case _ => None
  }

  /**
   A held message that shows the log at q, after any event of the log is received: it never
   falls back, and an event of its own brings it to that event or shows that it missed some.
   */
  lemma HeldMessageAfter(log: seq<Event>, messages: MessageMap, id: MessageId, q: nat, j: nat)
    returns (q': nat)
    requires WellFormed(log) && 0 < j <= |log|
    requires id in messages && messages[id].id == id && ShownAt(log, q, messages[id])
    ensures q <= q' <= Max(q, j) && (j == q + 1 ==> q' == j)
    ensures id in Receive(messages, log[j - 1]).messages
    ensures ShownAt(log, q', Receive(messages, log[j - 1]).messages[id])
    ensures j <= q + 1 && Subject(log[j - 1]) == Some(id) ==> !Receive(messages, log[j - 1]).incomplete
    ensures Subject(log[j - 1]) == Some(id) && !Receive(messages, log[j - 1]).incomplete ==> q' == Max(q, j)
  {
    var event := log[j - 1];
    if Subject(event) == Some(id) {
      match event {
        case MessageDelta(_, _, offset, delta) =>
          DeltaOnMessage(log, q, messages[id], j);
          q' := if AppendDelta(messages[id], offset, delta).Some? then Max(q, j) else q;
        case MessageCreated(_) =>
          CreatedMessage(log, q, messages[id], j);
          q' := q;
        case MessageCompleted(_) =>
          CompletedMessage(log, q, messages[id], j);
          q' := Max(q, j);
      }
    } else {
      q' := if j == q + 1 then j else q;
    }
  }

  /** A message an event adds to the copy shows the log right after that event. */
  lemma AddedMessage(log: seq<Event>, messages: MessageMap, id: MessageId, j: nat)
    requires WellFormed(log) && 0 < j <= |log|
    requires id !in messages && id in Receive(messages, log[j - 1]).messages
    ensures Subject(log[j - 1]) == Some(id) && !log[j - 1].MessageDelta?
    ensures Receive(messages, log[j - 1]).messages[id].id == id
    ensures ShownAt(log, j, Receive(messages, log[j - 1]).messages[id])
  {
  }

  // ---------------------------------------------------------------------
  // One event and the whole copy

  function Next(k: nat, j: nat): nat {
    if j == k + 1 then j else k
  }

  function Seen(scope: Scope, j: nat): Scope {
    scope.(shown := Max(scope.shown, j))
  }

  lemma ReceiveKeepsGenuine(log: seq<Event>, messages: MessageMap, j: nat)
    requires WellFormed(log) && Genuine(log, messages) && 0 < j <= |log|
    ensures Genuine(log, Receive(messages, log[j - 1]).messages)
  {
    var after := Receive(messages, log[j - 1]).messages;
    forall id | id in after
      ensures after[id].id == id && id in Fold(log, |log|) && Fold(log, |log|)[id].bot == after[id].bot
    {
      if id !in messages {
        AddedMessage(log, messages, id, j);
        MessagesGrow(log, j, |log|, id);
      } else if Subject(log[j - 1]) == Some(id) && !log[j - 1].MessageDelta? {
        assert FollowsAt(log, j - 1);
        MessagesGrow(log, j, |log|, id);
      }
    }
  }

  lemma ReceiveKeepsIds(messages: MessageMap, event: Event)
    ensures messages.Keys <= Receive(messages, event).messages.Keys
  {
  }

  /** A message the log adds, or a reply it ends, is in the copy that receives the event. */
  lemma NextEventIsIn(log: seq<Event>, messages: MessageMap, k: nat, id: MessageId)
    requires WellFormed(log) && k < |log| && id in Fold(log, k + 1)
    requires id !in Fold(log, k) || (Fold(log, k)[id].state.Streaming? && !Fold(log, k + 1)[id].state.Streaming?)
    ensures id in Receive(messages, log[k]).messages
  {
    assert FollowsAt(log, k);
  }

  lemma NextIsWhole(log: seq<Event>, scope: Scope, messages: MessageMap, k: nat)
    requires WellFormed(log) && Whole(log, scope, messages, k) && k < |log|
    ensures Whole(log, scope, Receive(messages, log[k]).messages, k + 1)
  {
    var after := Receive(messages, log[k]).messages;
    ReceiveKeepsIds(messages, log[k]);
    forall id | Has(log, k + 1, scope.bot, id) && !Has(log, scope.upTo, scope.bot, id)
      ensures id in after
    {
      if id in Fold(log, k) {
        MessagesGrow(log, k, k + 1, id);
      } else {
        NextEventIsIn(log, messages, k, id);
      }
    }
    forall id | Has(log, scope.upTo, scope.bot, id) && EndedBetween(log, scope.upTo, k + 1, id)
      ensures id in after
    {
      MessagesGrow(log, scope.upTo, k, id);
      if !EndedBetween(log, scope.upTo, k, id) {
        NextEventIsIn(log, messages, k, id);
      }
    }
  }

  lemma ReceiveKeepsWhole(log: seq<Event>, scope: Scope, messages: MessageMap, k: nat, j: nat)
    requires WellFormed(log) && Whole(log, scope, messages, k) && 0 < j <= |log|
    ensures Whole(log, scope, Receive(messages, log[j - 1]).messages, Next(k, j))
  {
    ReceiveKeepsIds(messages, log[j - 1]);
    if j == k + 1 {
      NextIsWhole(log, scope, messages, k);
    }
  }

  lemma ReceiveKeepsCurrent(log: seq<Event>, scope: Scope, messages: MessageMap, k: nat, j: nat)
    requires WellFormed(log) && Faithful(log, scope, messages, k) && scope.upTo < j <= |log|
    ensures Current(log, Seen(scope, j), Receive(messages, log[j - 1]).messages, Next(k, j))
  {
    var after := Receive(messages, log[j - 1]).messages;
    forall id | id in after && after[id].bot == scope.bot
      ensures exists q :: Next(k, j) <= q <= Max(Next(k, j), Seen(scope, j).shown) && ShownAt(log, q, after[id])
    {
      if id in messages {
        assert messages[id].bot == scope.bot by {
          ReceiveKeepsGenuine(log, messages, j);
        }
        var q :| k <= q <= Max(k, scope.shown) && ShownAt(log, q, messages[id]);
        var q' := HeldMessageAfter(log, messages, id, q, j);
        assert Next(k, j) <= q';
      } else {
        AddedMessage(log, messages, id, j);
        if j <= k {
          OldNewsIsHeld(log, scope, messages, k, j, id);
        }
      }
    }
  }

  /** An event already taken in, or reflected, adds none of the Bot's messages. */
  lemma OldNewsIsHeld(log: seq<Event>, scope: Scope, messages: MessageMap, k: nat, j: nat, id: MessageId)
    requires WellFormed(log) && Whole(log, scope, messages, k) && scope.upTo < j <= k
    requires Subject(log[j - 1]) == Some(id) && !log[j - 1].MessageDelta? && Has(log, j, scope.bot, id)
    ensures id in messages
  {
    assert FollowsAt(log, j - 1);
    MessagesGrow(log, j, k, id);
    if Has(log, scope.upTo, scope.bot, id) {
      MessagesGrow(log, scope.upTo, j - 1, id);
      assert EndedBetween(log, scope.upTo, k, id);
    }
  }

  /** Any later event of the log, in or out of order, for any Bot, keeps the copy faithful. */
  lemma ReceiveKeepsFaithful(log: seq<Event>, scope: Scope, messages: MessageMap, k: nat, j: nat)
    requires WellFormed(log) && Faithful(log, scope, messages, k) && scope.upTo < j <= |log|
    ensures Faithful(log, Seen(scope, j), Receive(messages, log[j - 1]).messages, Next(k, j))
  {
    ReceiveKeepsGenuine(log, messages, j);
    ReceiveKeepsWhole(log, scope, messages, k, j);
    ReceiveKeepsCurrent(log, scope, messages, k, j);
  }

  /** The next event, when it concerns no message of the Bot, needs no work. */
  lemma OtherBotsEvent(log: seq<Event>, scope: Scope, messages: MessageMap, k: nat)
    requires WellFormed(log) && Faithful(log, scope, messages, k) && k < |log|
    requires MessageBot(log[k]) != Some(scope.bot)
    ensures Faithful(log, scope, messages, k + 1)
  {
    assert FollowsAt(log, k);
    forall id | Has(log, scope.upTo, scope.bot, id)
      ensures EndedBetween(log, scope.upTo, k + 1, id) ==> EndedBetween(log, scope.upTo, k, id)
    {
      MessagesGrow(log, scope.upTo, k, id);
    }
    forall id | id in messages && messages[id].bot == scope.bot
      ensures exists q :: k + 1 <= q <= Max(k + 1, scope.shown) && ShownAt(log, q, messages[id])
    {
      var q :| k <= q <= Max(k, scope.shown) && ShownAt(log, q, messages[id]);
      if q == k {
        assert ShownAt(log, k + 1, messages[id]);
      }
    }
  }

  /** A faithful copy was faithful at every earlier position since its page. */
  lemma FaithfulBefore(log: seq<Event>, scope: Scope, messages: MessageMap, k: nat, n: nat)
    requires WellFormed(log) && Faithful(log, scope, messages, k)
    requires scope.upTo <= n <= k <= Max(n, scope.shown)
    ensures Faithful(log, scope, messages, n)
  {
    forall id | id in Fold(log, n)
      ensures id in Fold(log, k) && Fold(log, k)[id].bot == Fold(log, n)[id].bot
      ensures !Fold(log, n)[id].state.Streaming? ==> !Fold(log, k)[id].state.Streaming?
    {
      MessagesGrow(log, n, k, id);
    }
    forall id | id in messages && messages[id].bot == scope.bot
      ensures exists q :: n <= q <= Max(n, scope.shown) && ShownAt(log, q, messages[id])
    {
      var q :| k <= q <= Max(k, scope.shown) && ShownAt(log, q, messages[id]);
    }
  }

  /** What the log says, at each position from i to j, of a reply that streams after j events. */
  lemma StreamsBefore(log: seq<Event>, i: nat, j: nat, id: MessageId, bot: BotId)
    requires WellFormed(log) && i <= j && Has(log, j, bot, id) && Fold(log, j)[id].state.Streaming?
    requires id in Fold(log, i)
    ensures Has(log, i, bot, id) && Fold(log, i)[id].state.Streaming?
  {
    MessagesGrow(log, i, j, id);
  }

  /** With enough covered, the copy holds the message a due delta extends. */
  lemma DueDeltaIsHeld(log: seq<Event>, scope: Scope, messages: MessageMap, k: nat, j: nat)
    requires WellFormed(log) && Faithful(log, scope, messages, k) && scope.upTo < j <= |log|
    requires j <= k + 1 && Covers(log, scope) && MessageBot(log[j - 1]) == Some(scope.bot) && log[j - 1].MessageDelta?
    ensures log[j - 1].messageId in messages && messages[log[j - 1].messageId].bot == scope.bot
  {
    var id := log[j - 1].messageId;
    assert Has(log, j - 1, scope.bot, id) && Fold(log, j - 1)[id].state.Streaming? by {
      assert FollowsAt(log, j - 1);
    }
    StreamingIsHeld(log, scope, messages, k, j - 1, id);
    assert Fold(log, |log|)[id].bot == scope.bot by {
      MessagesGrow(log, j - 1, |log|, id);
    }
  }

  lemma StreamingIsHeld(log: seq<Event>, scope: Scope, messages: MessageMap, k: nat, i: nat, id: MessageId)
    requires WellFormed(log) && Whole(log, scope, messages, k) && Covers(log, scope) && scope.upTo <= i <= k
    requires Has(log, i, scope.bot, id) && Fold(log, i)[id].state.Streaming?
    ensures id in messages
  {
    if id in Fold(log, scope.upTo) {
      StreamsBefore(log, scope.upTo, i, id, scope.bot);
    } else {
      MessagesGrow(log, i, k, id);
    }
  }

  /** With enough covered, no event already due asks for the page again. */
  lemma DueEventIsPlaced(log: seq<Event>, scope: Scope, messages: MessageMap, k: nat, j: nat)
    requires WellFormed(log) && Faithful(log, scope, messages, k) && scope.upTo < j <= |log|
    requires j <= k + 1 && Covers(log, scope) && MessageBot(log[j - 1]) == Some(scope.bot)
    ensures !Receive(messages, log[j - 1]).incomplete
  {
    if log[j - 1].MessageDelta? {
      var id := log[j - 1].messageId;
      DueDeltaIsHeld(log, scope, messages, k, j);
      var q :| k <= q <= Max(k, scope.shown) && ShownAt(log, q, messages[id]);
      var q' := HeldMessageAfter(log, messages, id, q, j);
    }
  }

  // ---------------------------------------------------------------------
  // A page and the events held while it loaded

  /** The page shows, whole, the Bot's messages before `before` from its cursor on, as after p events. */
  ghost predicate ShowsLog(log: seq<Event>, bot: BotId, before: Option<MessageId>, page: MessagePage, p: nat) {
    && p <= |log|
    && (forall id :: id in page.messages <==>
          Has(log, p, bot, id) && From(page.older, id) && (before.Some? ==> id < before.value))
    && (forall id :: id in page.messages ==>
          page.messages[id].id == id && ShownAt(log, p, page.messages[id]))
  }

  /** Every event is the log's event of its number. */
  predicate FromLog(log: seq<Event>, events: seq<Envelope>) {
    forall i :: 0 <= i < |events| ==>
                  0 < events[i].number <= |log| && events[i].event == log[events[i].number - 1]
  }

  /** How far the log is known without a gap, from k on, after the events. */
  function Reached(k: nat, events: seq<Envelope>): (n: nat)
    ensures k <= n
  {
    if events == [] then k else Next(Reached(k, events[..|events| - 1]), events[|events| - 1].number)
  }

  /** The furthest position shown after replaying the events numbered after `upTo`. */
  function Furthest(shown: nat, upTo: nat, events: seq<Envelope>): (n: nat)
    ensures shown <= n
    ensures Reached(upTo, events) <= Max(upTo, n)
  {
    if events == [] then shown
    else
      var before := Furthest(shown, upTo, events[..|events| - 1]);
      var last := events[|events| - 1];
      if last.number <= upTo then before else Max(before, last.number)
  }

  /** The events held end with every one after `floor` up to `position`, in order. */
  predicate HeldSince(held: seq<Envelope>, floor: nat, position: nat) {
    position <= floor
    || (&& held != [] && held[|held| - 1].number == position
        && HeldSince(held[..|held| - 1], floor, position - 1))
  }

  lemma {:induction false} HeldReachesPosition(held: seq<Envelope>, floor: nat, upTo: nat, position: nat)
    requires HeldSince(held, floor, position) && floor <= upTo
    ensures position <= Max(upTo, Reached(upTo, held))
    decreases |held|
  {
    if position > upTo {
      HeldReachesPosition(held[..|held| - 1], floor, upTo, position - 1);
    }
  }

  lemma PageIsFaithful(log: seq<Event>, bot: BotId, page: MessagePage, p: nat)
    requires WellFormed(log) && ShowsLog(log, bot, None, page, p) && page.upTo <= p
    ensures Faithful(log, Scope(bot, page.upTo, page.older, p), page.messages, page.upTo)
  {
    forall id | Has(log, page.upTo, bot, id)
      ensures Has(log, p, bot, id)
    {
      MessagesGrow(log, page.upTo, p, id);
    }
    forall id | id in page.messages
      ensures id in Fold(log, |log|) && Fold(log, |log|)[id].bot == page.messages[id].bot
    {
      MessagesGrow(log, p, |log|, id);
    }
  }

  /** One held event more: how the replay, its reach and what it showed go on. */
  lemma ReplayGoesOn(messages: MessageMap, shown: nat, upTo: nat, events: seq<Envelope>)
    requires events != []
    ensures var before, last := events[..|events| - 1], events[|events| - 1];
            if last.number <= upTo then
              && Replay(messages, upTo, events) == Replay(messages, upTo, before)
              && Furthest(shown, upTo, events) == Furthest(shown, upTo, before)
              && Reached(upTo, events) == Reached(upTo, before)
            else
              && Replay(messages, upTo, events).messages
                  == Receive(Replay(messages, upTo, before).messages, last.event).messages
              && Furthest(shown, upTo, events) == Max(Furthest(shown, upTo, before), last.number)
              && Reached(upTo, events) == Next(Reached(upTo, before), last.number)
  {
  }

  /** Replaying held events onto a faithful copy leaves it faithful as far as they reach. */
  lemma {:induction false} ReplayKeepsFaithful(log: seq<Event>, scope: Scope, messages: MessageMap,
                                               events: seq<Envelope>)
    requires WellFormed(log) && Faithful(log, scope, messages, scope.upTo) && FromLog(log, events)
    ensures Faithful(log, scope.(shown := Furthest(scope.shown, scope.upTo, events)),
                     Replay(messages, scope.upTo, events).messages, Reached(scope.upTo, events))
    decreases |events|
  {
    if events != [] {
      var before, last := events[..|events| - 1], events[|events| - 1];
      ReplayKeepsFaithful(log, scope, messages, before);
      ReplayGoesOn(messages, scope.shown, scope.upTo, events);
      if scope.upTo < last.number {
        ReceivedOn(log, scope, Replay(messages, scope.upTo, before).messages,
                   Furthest(scope.shown, scope.upTo, before), Reached(scope.upTo, before), last);
      }
    }
  }

  lemma ReceivedOn(log: seq<Event>, scope: Scope, messages: MessageMap, shown: nat, k: nat, envelope: Envelope)
    requires WellFormed(log) && Faithful(log, scope.(shown := shown), messages, k)
    requires scope.upTo < envelope.number <= |log| && envelope.event == log[envelope.number - 1]
    ensures Faithful(log, scope.(shown := Max(shown, envelope.number)), Receive(messages, envelope.event).messages,
                     Next(k, envelope.number))
  {
    ReceiveKeepsFaithful(log, scope.(shown := shown), messages, k, envelope.number);
  }

  /**
   A page that reflects every event up to its number, and may show later ones, with
   every event since its request replayed onto it, is a faithful copy at the client's
   position, or at the page's own number if that is further on.
   */
  lemma LoadedPageIsFaithful(log: seq<Event>, bot: BotId, page: MessagePage, p: nat,
                             held: seq<Envelope>, floor: nat, position: nat)
    requires WellFormed(log) && ShowsLog(log, bot, None, page, p) && floor <= page.upTo <= p
    requires FromLog(log, held) && HeldSince(held, floor, position) && position <= |log|
    ensures Faithful(log, Scope(bot, page.upTo, page.older, Furthest(p, page.upTo, held)),
                     Replay(page.messages, page.upTo, held).messages, Max(position, page.upTo))
  {
    var scope := Scope(bot, page.upTo, page.older, p);
    PageIsFaithful(log, bot, page, p);
    ReplayKeepsFaithful(log, scope, page.messages, held);
    HeldReachesPosition(held, floor, page.upTo, position);
    FaithfulBefore(log, scope.(shown := Furthest(p, page.upTo, held)),
                   Replay(page.messages, page.upTo, held).messages, Reached(page.upTo, held),
                   Max(position, page.upTo));
  }

  // ---------------------------------------------------------------------
  // Older pages

  /** Every message shows the log somewhere from k to top. */
  ghost predicate AllShown(log: seq<Event>, messages: MessageMap, k: nat, top: nat) {
    forall id :: id in messages ==>
                   messages[id].id == id && exists q :: k <= q <= top && ShownAt(log, q, messages[id])
  }

  lemma OlderMessageAfter(log: seq<Event>, earlier: MessageMap, id: MessageId, q: nat, j: nat)
    returns (q': nat)
    requires WellFormed(log) && 0 < j <= |log|
    requires id in earlier && earlier[id].id == id && ShownAt(log, q, earlier[id])
    ensures q <= q' <= Max(q, j) && (j == q + 1 ==> q' == j)
    ensures id in ReceiveOlder(earlier, log[j - 1]).messages
    ensures ReceiveOlder(earlier, log[j - 1]).messages[id].id == id
    ensures ShownAt(log, q', ReceiveOlder(earlier, log[j - 1]).messages[id])
  {
    q' := HeldMessageAfter(log, earlier, id, q, j);
    if log[j - 1].MessageCreated? && log[j - 1].message.id == id {
      CreatedMessage(log, q, earlier[id], j);
    }
    assert ReceiveOlder(earlier, log[j - 1]).messages[id] == Receive(earlier, log[j - 1]).messages[id];
  }

  lemma ReceiveOlderKeepsShown(log: seq<Event>, earlier: MessageMap, k: nat, top: nat, j: nat)
    requires WellFormed(log) && AllShown(log, earlier, k, top) && 0 < j <= |log|
    ensures AllShown(log, ReceiveOlder(earlier, log[j - 1]).messages, Next(k, j), Max(top, j))
  {
    var after := ReceiveOlder(earlier, log[j - 1]).messages;
    forall id | id in after
      ensures after[id].id == id
      ensures exists q :: Next(k, j) <= q <= Max(top, j) && ShownAt(log, q, after[id])
    {
      var q :| k <= q <= top && ShownAt(log, q, earlier[id]);
      var q' := OlderMessageAfter(log, earlier, id, q, j);
    }
  }

  /** Held events change the messages of an older page; they add and remove none. */
  lemma {:induction false} ReplayOlderKeepsIds(earlier: MessageMap, upTo: nat, events: seq<Envelope>)
    ensures ReplayOlder(earlier, upTo, events).messages.Keys == earlier.Keys
    decreases |events|
  {
    if events != [] {
      ReplayOlderKeepsIds(earlier, upTo, events[..|events| - 1]);
      var before, last := ReplayOlder(earlier, upTo, events[..|events| - 1]).messages, events[|events| - 1];
      assert ReceiveOlder(before, last.event).messages.Keys == before.Keys;
    }
  }

  lemma ReplayOlderGoesOn(earlier: MessageMap, shown: nat, upTo: nat, events: seq<Envelope>)
    requires events != []
    ensures var before, last := events[..|events| - 1], events[|events| - 1];
            if last.number <= upTo then
              && ReplayOlder(earlier, upTo, events) == ReplayOlder(earlier, upTo, before)
              && Furthest(shown, upTo, events) == Furthest(shown, upTo, before)
              && Reached(upTo, events) == Reached(upTo, before)
            else
              && ReplayOlder(earlier, upTo, events).messages
                 == ReceiveOlder(ReplayOlder(earlier, upTo, before).messages, last.event).messages
              && Furthest(shown, upTo, events) == Max(Furthest(shown, upTo, before), last.number)
              && Reached(upTo, events) == Next(Reached(upTo, before), last.number)
  {
  }

  /** After the held events, every message of an older page is as current as they reach. */
  lemma {:induction false} ReplayOlderKeepsShown(log: seq<Event>, earlier: MessageMap, upTo: nat, p: nat,
                                                 events: seq<Envelope>)
    requires WellFormed(log) && FromLog(log, events) && upTo <= p && AllShown(log, earlier, p, p)
    ensures AllShown(log, ReplayOlder(earlier, upTo, events).messages,
                     Reached(upTo, events), Furthest(p, upTo, events))
    decreases |events|
  {
    hide AllShown, WellFormed;
    if events == [] {
      ShownMoreWidely(log, earlier, p, p, upTo, p);
    } else {
      var before, last := events[..|events| - 1], events[|events| - 1];
      ReplayOlderKeepsShown(log, earlier, upTo, p, before);
      ReplayOlderGoesOn(earlier, p, upTo, events);
      if upTo < last.number {
        ReceiveOlderKeepsShown(log, ReplayOlder(earlier, upTo, before).messages,
                               Reached(upTo, before), Furthest(p, upTo, before), last.number);
      }
    }
  }

  /** Messages of the log added to a copy, with a cursor that covers them. */
  lemma AddingKeepsFaithful(log: seq<Event>, scope: Scope, messages: MessageMap, added: MessageMap,
                            older: Option<MessageId>, shown: nat, k: nat)
    requires WellFormed(log) && Faithful(log, scope, messages, k)
    requires added.Keys !! messages.Keys && AllShown(log, added, k, shown) && scope.shown <= shown
    requires forall id :: Has(log, scope.upTo, scope.bot, id) && From(older, id) ==> id in messages || id in added
    ensures Faithful(log, scope.(older := older, shown := shown), messages + added, k)
  {
    var joined := messages + added;
    forall id | id in added
      ensures id in Fold(log, |log|) && Fold(log, |log|)[id].bot == joined[id].bot
    {
      var q :| k <= q <= shown && ShownAt(log, q, added[id]);
      MessagesGrow(log, q, |log|, id);
    }
    forall id | id in joined && joined[id].bot == scope.bot
      ensures exists q :: k <= q <= Max(k, shown) && ShownAt(log, q, joined[id])
    {
      if id in added {
        var q :| k <= q <= shown && ShownAt(log, q, added[id]);
      } else {
        var q :| k <= q <= Max(k, scope.shown) && ShownAt(log, q, messages[id]);
      }
    }
  }

  /**
   An older page, requested for this copy and cursor after the copy's own page, joins
   the copy without disturbing it: the messages held stay as they are, and the copy
   is faithful from the page's cursor on.
   */
  lemma JoinedPageIsFaithful(log: seq<Event>, scope: Scope, messages: MessageMap, earlier: MessageMap,
                             before: MessageId, page: MessagePage, p: nat,
                             held: seq<Envelope>, floor: nat, position: nat)
    requires WellFormed(log) && scope.older == Some(before)
    requires Faithful(log, scope, messages, Max(position, scope.upTo))
    requires ShowsLog(log, scope.bot, Some(before), page, p) && scope.upTo <= floor <= page.upTo <= p
    requires FromLog(log, held) && HeldSince(held, floor, position) && position <= |log|
    requires earlier == map id | id in page.messages && page.messages[id].bot == scope.bot
                               && id < before && id !in messages :: page.messages[id]
    ensures var joined := messages + ReplayOlder(earlier, page.upTo, held).messages;
            && Faithful(log, scope.(older := page.older, shown := Max(scope.shown, Furthest(p, page.upTo, held))),
                        joined, Max(position, scope.upTo))
            && forall id :: id in messages ==> id in joined && joined[id] == messages[id]
  {
    var added := ReplayOlder(earlier, page.upTo, held).messages;
    var k, shown := Max(position, scope.upTo), Max(scope.shown, Furthest(p, page.upTo, held));
    ReplayOlderKeepsIds(earlier, page.upTo, held);
    assert AllShown(log, added, k, shown) by {
      assert AllShown(log, earlier, p, p);
      AddedAreShown(log, earlier, page.upTo, p, held, floor, position);
      ShownMoreWidely(log, added, Max(position, page.upTo), Furthest(p, page.upTo, held), k, shown);
    }
    OlderPageCovers(log, scope, messages, earlier, before, page, p);
    AddingKeepsFaithful(log, scope, messages, added, page.older, shown, k);
  }

  lemma AddedAreShown(log: seq<Event>, earlier: MessageMap, upTo: nat, p: nat, held: seq<Envelope>, floor: nat,
                      position: nat)
    requires WellFormed(log) && FromLog(log, held) && floor <= upTo <= p && AllShown(log, earlier, p, p)
    requires HeldSince(held, floor, position)
    ensures AllShown(log, ReplayOlder(earlier, upTo, held).messages, Max(position, upTo), Furthest(p, upTo, held))
  {
    ReplayOlderKeepsShown(log, earlier, upTo, p, held);
    HeldReachesPosition(held, floor, upTo, position);
    ShownMoreWidely(log, ReplayOlder(earlier, upTo, held).messages, Reached(upTo, held), Furthest(p, upTo, held),
                    Max(position, upTo), Furthest(p, upTo, held));
  }

  lemma ShownMoreWidely(log: seq<Event>, messages: MessageMap, k: nat, top: nat, i: nat, wide: nat)
    requires AllShown(log, messages, k, top) && i <= k && top <= wide
    ensures AllShown(log, messages, i, wide)
  {
    forall id | id in messages
      ensures exists q :: i <= q <= wide && ShownAt(log, q, messages[id])
    {
      var q :| k <= q <= top && ShownAt(log, q, messages[id]);
    }
  }

  /** The copy and the older page together have every message from the page's cursor on. */
  lemma OlderPageCovers(log: seq<Event>, scope: Scope, messages: MessageMap, earlier: MessageMap,
                        before: MessageId, page: MessagePage, p: nat)
    requires WellFormed(log) && scope.older == Some(before) && scope.upTo <= p
    requires scope.upTo <= |log|
    requires forall id :: Has(log, scope.upTo, scope.bot, id) && From(scope.older, id) ==> id in messages
    requires ShowsLog(log, scope.bot, Some(before), page, p)
    requires earlier == map id | id in page.messages && page.messages[id].bot == scope.bot
                               && id < before && id !in messages :: page.messages[id]
    ensures forall id :: Has(log, scope.upTo, scope.bot, id) && From(page.older, id) ==> id in messages || id in earlier
  {
    forall id | Has(log, scope.upTo, scope.bot, id) && From(page.older, id)
      ensures id in messages || id in earlier
    {
      MessagesGrow(log, scope.upTo, p, id);
    }
  }

  // ---------------------------------------------------------------------
  // The log grows; the client catches up

  lemma FaithfulAfterCommit(log: seq<Event>, more: seq<Event>, scope: Scope, messages: MessageMap, k: nat)
    requires WellFormed(log + more) && Faithful(log, scope, messages, k)
    ensures Faithful(log + more, scope, messages, k)
  {
    FoldOfPrefixes(log, more);
    forall id | id in messages
      ensures id in Fold(log + more, |log + more|) && Fold(log + more, |log + more|)[id].bot == messages[id].bot
    {
      MessagesGrow(log + more, |log|, |log + more|, id);
    }
    forall id | id in messages && messages[id].bot == scope.bot
      ensures exists q :: k <= q <= Max(k, scope.shown) && ShownAt(log + more, q, messages[id])
    {
      var q :| k <= q <= Max(k, scope.shown) && ShownAt(log, q, messages[id]);
      assert ShownAt(log + more, q, messages[id]);
    }
  }

  // ---------------------------------------------------------------------
  // Other Bots' events

  predicate OnlyOf(messages: MessageMap, bot: BotId) {
    forall id :: id in messages ==> messages[id].bot == bot
  }

  /** An event that puts a message of another Bot into whatever copy receives it. */
  predicate BringsAnother(bot: BotId, event: Event) {
    (event.MessageCreated? || event.MessageCompleted?) && event.message.bot != bot
  }

  predicate AnyBringsAnother(bot: BotId, upTo: nat, events: seq<Envelope>) {
    && events != []
    && var last := events[|events| - 1];
       || (upTo < last.number && BringsAnother(bot, last.event))
       || AnyBringsAnother(bot, upTo, events[..|events| - 1])
  }

  /** Another Bot's message gets into a replayed page exactly when such an event is held after it. */
  lemma {:induction false} ReplayMixesBots(log: seq<Event>, bot: BotId, messages: MessageMap,
                                           upTo: nat, events: seq<Envelope>)
    requires WellFormed(log) && FromLog(log, events)
    requires Genuine(log, messages) && OnlyOf(messages, bot)
    ensures Genuine(log, Replay(messages, upTo, events).messages)
    ensures OnlyOf(Replay(messages, upTo, events).messages, bot) <==> !AnyBringsAnother(bot, upTo, events)
    decreases |events|
  {
    if events != [] {
      var before, last := events[..|events| - 1], events[|events| - 1];
      ReplayMixesBots(log, bot, messages, upTo, before);
      if upTo < last.number {
        ReceiveMixesBots(log, bot, Replay(messages, upTo, before).messages, last.number);
      }
    }
  }

  lemma ReceiveMixesBots(log: seq<Event>, bot: BotId, messages: MessageMap, j: nat)
    requires WellFormed(log) && Genuine(log, messages) && 0 < j <= |log|
    ensures var after := Receive(messages, log[j - 1]).messages;
            && Genuine(log, after)
            && (OnlyOf(after, bot) <==> OnlyOf(messages, bot) && !BringsAnother(bot, log[j - 1]))
  {
    ReceiveKeepsGenuine(log, messages, j);
    var event := log[j - 1];
    var after := Receive(messages, event).messages;
    forall id | id in messages
      ensures id in after && after[id].bot == messages[id].bot
    {
    }
    if event.MessageCreated? || event.MessageCompleted? {
      var id := event.message.id;
      assert id in Fold(log, j) && Fold(log, j)[id].bot == event.message.bot;
      MessagesGrow(log, j, |log|, id);
      assert id in after && after[id].bot == event.message.bot;
    }
  }

  predicate ConcernsAnother(bot: BotId, event: Event) {
    MessageBot(event).Some? && MessageBot(event) != Some(bot)
  }

  predicate AnyConcernsAnother(bot: BotId, upTo: nat, events: seq<Envelope>) {
    && events != []
    && var last := events[|events| - 1];
       || (upTo < last.number && ConcernsAnother(bot, last.event))
       || AnyConcernsAnother(bot, upTo, events[..|events| - 1])
  }

  /** No event is skipped, from k on; any may be repeated. */
  predicate Gapless(k: nat, events: seq<Envelope>) {
    events == [] || (var before := events[..|events| - 1];
                     Gapless(k, before) && events[|events| - 1].number <= Reached(k, before) + 1)
  }

  lemma ReceiveIsExact(log: seq<Event>, scope: Scope, messages: MessageMap, k: nat, j: nat)
    requires WellFormed(log) && Faithful(log, scope, messages, k) && scope.upTo < j <= |log|
    requires j <= k + 1 && Covers(log, scope)
    ensures var received := Receive(messages, log[j - 1]);
            OnlyOf(received.messages, scope.bot) && !received.incomplete
            <==> OnlyOf(messages, scope.bot) && !ConcernsAnother(scope.bot, log[j - 1])
  {
    ReceiveMixesBots(log, scope.bot, messages, j);
    if MessageBot(log[j - 1]) == Some(scope.bot) {
      DueEventIsPlaced(log, scope, messages, k, j);
    } else if log[j - 1].MessageDelta? && OnlyOf(messages, scope.bot) {
      AnothersDeltaIsRefused(log, scope.bot, messages, j);
    }
  }

  /**
   Replaying gapless events onto a copy that covers enough gives a copy of that Bot's
   messages alone, and asks for no reload, exactly when none of the events after the
   page concerns another Bot's conversation.
   */
  lemma {:induction false} ReplayIsExact(log: seq<Event>, scope: Scope, messages: MessageMap, events: seq<Envelope>)
    requires WellFormed(log) && Faithful(log, scope, messages, scope.upTo) && OnlyOf(messages, scope.bot)
    requires FromLog(log, events) && Gapless(scope.upTo, events) && Covers(log, scope)
    ensures var replayed := Replay(messages, scope.upTo, events);
            OnlyOf(replayed.messages, scope.bot) && !replayed.incomplete
            <==> !AnyConcernsAnother(scope.bot, scope.upTo, events)
    decreases |events|
  {
    if events != [] {
      var before, last := events[..|events| - 1], events[|events| - 1];
      ReplayIsExact(log, scope, messages, before);
      var r, any := Replay(messages, scope.upTo, before), AnyConcernsAnother(scope.bot, scope.upTo, before);
      if scope.upTo < last.number {
        var shown, k := Furthest(scope.shown, scope.upTo, before), Reached(scope.upTo, before);
        assert Faithful(log, scope.(shown := shown), r.messages, k) by {
          ReplayKeepsFaithful(log, scope, messages, before);
        }
        ExactStep(log, scope, r, shown, k, last, any);
      }
      ExactGoesOn(messages, scope.bot, scope.upTo, events);
    }
  }

  lemma ExactStep(log: seq<Event>, scope: Scope, r: Received, shown: nat, k: nat, envelope: Envelope, any: bool)
    requires WellFormed(log) && Faithful(log, scope.(shown := shown), r.messages, k) && Covers(log, scope)
    requires scope.upTo < envelope.number <= |log| && envelope.event == log[envelope.number - 1]
    requires envelope.number <= k + 1
    requires OnlyOf(r.messages, scope.bot) && !r.incomplete <==> !any
    ensures var received := Receive(r.messages, envelope.event);
            OnlyOf(received.messages, scope.bot) && !(r.incomplete || received.incomplete)
            <==> !(ConcernsAnother(scope.bot, envelope.event) || any)
  {
    OneMoreIsExact(log, scope, r.messages, shown, k, envelope);
  }

  /** One held event more, for what a replay asks and which Bots it concerns. */
  lemma ExactGoesOn(messages: MessageMap, bot: BotId, upTo: nat, events: seq<Envelope>)
    requires events != []
    ensures var before, last := events[..|events| - 1], events[|events| - 1];
            if last.number <= upTo then
              && Replay(messages, upTo, events) == Replay(messages, upTo, before)
              && AnyConcernsAnother(bot, upTo, events) == AnyConcernsAnother(bot, upTo, before)
            else
              var received := Receive(Replay(messages, upTo, before).messages, last.event);
              && Replay(messages, upTo, events)
                 == Received(received.messages, Replay(messages, upTo, before).incomplete || received.incomplete)
              && AnyConcernsAnother(bot, upTo, events)
                 == (ConcernsAnother(bot, last.event) || AnyConcernsAnother(bot, upTo, before))
  {
  }

  lemma OneMoreIsExact(log: seq<Event>, scope: Scope, messages: MessageMap, shown: nat, k: nat, envelope: Envelope)
    requires WellFormed(log) && Faithful(log, scope.(shown := shown), messages, k) && Covers(log, scope)
    requires scope.upTo < envelope.number <= |log| && envelope.event == log[envelope.number - 1]
    requires envelope.number <= k + 1
    ensures var received := Receive(messages, envelope.event);
            OnlyOf(received.messages, scope.bot) && !received.incomplete
            <==> OnlyOf(messages, scope.bot) && !ConcernsAnother(scope.bot, envelope.event)
  {
    assert Covers(log, scope.(shown := shown));
    ReceiveIsExact(log, scope.(shown := shown), messages, k, envelope.number);
  }

  lemma AnothersDeltaIsRefused(log: seq<Event>, bot: BotId, messages: MessageMap, j: nat)
    requires WellFormed(log) && Genuine(log, messages) && 0 < j <= |log|
    requires OnlyOf(messages, bot) && ConcernsAnother(bot, log[j - 1]) && log[j - 1].MessageDelta?
    ensures Receive(messages, log[j - 1]).incomplete
  {
    DeltaInLog(log, j);
    assert FollowsAt(log, j - 1);
    MessagesGrow(log, j, |log|, log[j - 1].messageId);
  }

  /** Once the client has reached all its copy showed, the copy shows that position exactly. */
  lemma CaughtUpCopyIsExact(log: seq<Event>, scope: Scope, messages: MessageMap, k: nat)
    requires WellFormed(log) && Faithful(log, scope, messages, k) && scope.shown <= k
    ensures forall id :: id in messages && messages[id].bot == scope.bot ==> ShownAt(log, k, messages[id])
    ensures forall id :: Has(log, k, scope.bot, id) && From(scope.older, id) ==>
                           id in messages && ShownAt(log, k, messages[id])
  {
    forall id | id in messages && messages[id].bot == scope.bot
      ensures ShownAt(log, k, messages[id])
    {
      var q :| k <= q <= Max(k, scope.shown) && ShownAt(log, q, messages[id]);
    }
    forall id | Has(log, k, scope.bot, id) && From(scope.older, id)
      ensures id in messages && messages[id].bot == scope.bot
    {
      if Has(log, scope.upTo, scope.bot, id) {
        MessagesGrow(log, scope.upTo, k, id);
      }
      MessagesGrow(log, k, |log|, id);
    }
  }
}
