// The live responder. It handles the messages of one snapshot in order, and
// every durable effect it has is a step of the protocol machine: whatever
// fails, the files are those of a run of the machine.
module Responder {
  import opened Wrappers
  import opened DidKey
  import opened Messages
  import opened Protocol
  import opened State
  import opened Quota
  import opened PullRequest
  import opened Capabilities
  import opened Policy
  import opened Audit
  import opened Receipt
  import opened Delivery
  import opened Recovery
  import opened DeliveryProtocol
  import opened Deployment

  datatype EventOutcome =
    | NoAnswer | WouldReply | WouldIssue | ReplySent(reply: int) | IssueFailed
    | ReceiptSent(reply: int, digest: Digest<string>)

  datatype Event =
    | GenerationChanged(previous: nat, generation: int)
    | RetentionGap(cursor: nat, firstAvailable: int)
    | MessageHandled(m: RoomMessage, decision: Decision, outcome: EventOutcome)
    | CursorAdvanced(from: nat, to: int)

  // Each of these ends the process.
  datatype RunError =
    | OtherRoom | GenerationFell | CheckpointBehind | PolicyFailed | JournalInUse | NotSigned | NotCreated
    | UncertainWrite | ReceiptServiceFailed | NoAnswerFromServer | BadSnapshot | AuditFailed(error: AuditError) | StateNotSaved | AuditOfOtherIssuer

  datatype ReadError = Unanswered(retryAfter: Option<real>) | BadResponse

  // What one poll came to.
  datatype ServerReply = Processed | NoReply(retryAfter: Option<real>)

  // A round of polling: its cache buster, and if there was no answer, what the
  // server asked for and how the process slept.
  datatype Round = Round(cacheBuster: nat, failure: Option<ServerReply>, naps: seq<real>)

  function Total(naps: seq<real>): real {
    if naps == [] then 0.0 else Total(naps[..|naps| - 1]) + naps[|naps| - 1]
  }

  // The back-off after some rounds: one second after an answer, doubled by
  // every failure since, up to half a minute.
  function Backoff(rounds: seq<Round>): (backoff: real)
    ensures 1.0 <= backoff <= 30.0
  {
    if rounds == [] || rounds[|rounds| - 1].failure.None? then 1.0
    else
      var doubled := Backoff(rounds[..|rounds| - 1]) * 2.0;
      if doubled < 30.0 then doubled else 30.0
  }

  function Delay(reply: ServerReply, backoff: real): real {
    var asked := if reply.NoReply? && reply.retryAfter.Some? then reply.retryAfter.value else backoff;
    if asked > 0.5 then asked else 0.5
  }

  // Reads carry different cache busters, and none follows a failed one before
  // the time the server asked for, or the back-off, has been slept through.
  predicate InTime(rounds: seq<Round>) {
    forall k :: 0 <= k < |rounds| ==> RoundInTime(rounds[..k], rounds[k])
  }

  predicate RoundInTime(earlier: seq<Round>, round: Round) {
    && round.cacheBuster == |earlier| + 1
    && (round.failure.Some? ==>
          && round.failure.value.NoReply?
          && Total(round.naps) == Delay(round.failure.value, Backoff(earlier))
          && forall nap :: nap in round.naps ==> 0.0 < nap <= 30.0)
  }

  lemma RoundAdded(rounds: seq<Round>, next: Round)
    requires InTime(rounds) && RoundInTime(rounds, next)
    ensures InTime(rounds + [next])
    ensures Backoff(rounds + [next])
            == if next.failure.None? then 1.0
               else if Backoff(rounds) * 2.0 < 30.0 then Backoff(rounds) * 2.0 else 30.0
  {
    var more := rounds + [next];
    assert more[..|rounds|] == rounds;
    assert forall k :: 0 <= k < |rounds| ==> more[k] == rounds[k] && more[..k] == rounds[..k];
  }

  // ---- What the events say ----

  function IsAnswer(outcome: EventOutcome): bool {
    outcome.ReplySent? || outcome.ReceiptSent?
  }

  function SequenceOf(outcome: EventOutcome): Option<int> {
    if IsAnswer(outcome) then Some(outcome.reply) else None
  }

  // The messages that events report as handled, in order.
  function HandledMessages(events: seq<Event>): seq<RoomMessage> {
    if events == [] then []
    else
      var before, e := HandledMessages(events[..|events| - 1]), events[|events| - 1];
      if e.MessageHandled? then before + [e.m] else before
  }

  // A text posted in answer to an input.
  datatype Posting = Posting(input: int, text: string)

  function Swept(text: string): string {
    match Sweep(text)
    case Ok(swept) => swept
    case Err(_) => ""
  }

  // The text an answer consists of: the command's reply, or the receipt whose
  // digest is reported.
  function AnswerText(decision: Decision, outcome: EventOutcome): string {
    if outcome.ReplySent? && decision.reply.Some? then Swept(decision.reply.value)
    else if outcome.ReceiptSent? && outcome.digest.Sha256? then Swept(outcome.digest.preimage)
    else ""
  }

  function AnswerPosted(m: RoomMessage, decision: Decision, outcome: EventOutcome): seq<Posting> {
    if IsAnswer(outcome) then [Posting(m.seqno, AnswerText(decision, outcome))] else []
  }

  function AnswerOf(e: Event): seq<Posting> {
    if e.MessageHandled? then AnswerPosted(e.m, e.decision, e.outcome) else []
  }

  // What the events report as answered, in order.
  function Postings(events: seq<Event>): seq<Posting> {
    if events == [] then [] else Postings(events[..|events| - 1]) + AnswerOf(events[|events| - 1])
  }

  // What the prepared envelopes answer.
  function Envelopes(issued: seq<Issued>): (postings: seq<Posting>)
    ensures |postings| == |issued|
  {
    seq(|issued|, k requires 0 <= k < |issued| => Posting(issued[k].record.inputSequence, issued[k].record.text))
  }

  lemma EnvelopeAdded(issued: seq<Issued>, i: Issued)
    ensures Envelopes(issued + [i]) == Envelopes(issued) + [Posting(i.record.inputSequence, i.record.text)]
  {
  }

  // The messages above a cursor.
  function Above(messages: seq<RoomMessage>, cursor: int): seq<RoomMessage> {
    if messages == [] then []
    else
      var before, m := Above(messages[..|messages| - 1], cursor), messages[|messages| - 1];
      if m.seqno > cursor then before + [m] else before
  }

  // Where handling a snapshot leaves the cursor.
  function CursorAfter(snapshot: RoomSnapshot, cursor: nat): int {
    var handled := Above(snapshot.messages, cursor);
    if handled == [] then Max(cursor, snapshot.lastSeq) else handled[|handled| - 1].seqno
  }

  lemma {:induction false} AboveAll(messages: seq<RoomMessage>, cursor: int)
    requires forall m :: m in messages ==> m.seqno <= cursor
    ensures Above(messages, cursor) == []
    decreases |messages|
  {
    if messages != [] {
      AboveAll(messages[..|messages| - 1], cursor);
    }
  }

  // The last message above a cursor is the last message, if any is above.
  lemma {:induction false} LastAbove(messages: seq<RoomMessage>, cursor: int)
    requires Increasing(Sequences(messages))
    ensures var above := Above(messages, cursor);
            above != [] <==> messages != [] && messages[|messages| - 1].seqno > cursor
    ensures var above := Above(messages, cursor);
            above != [] ==> above[|above| - 1] == messages[|messages| - 1]
    decreases |messages|
  {
    if messages != [] {
      var front := messages[..|messages| - 1];
      assert forall k :: 0 <= k < |front| ==> Sequences(front)[k] == Sequences(messages)[k];
      LastAbove(front, cursor);
      if Above(front, cursor) != [] {
        assert Sequences(messages)[|front| - 1] < Sequences(messages)[|front|];
      }
    }
  }

  lemma AboveNext(messages: seq<RoomMessage>, cursor: int, i: nat)
    requires i < |messages|
    ensures Above(messages[..i + 1], cursor)
            == Above(messages[..i], cursor) + (if messages[i].seqno > cursor then [messages[i]] else [])
  {
    assert messages[..i + 1][..i] == messages[..i];
  }

  // Where handling the first messages of a snapshot leaves the cursor.
  function CursorOver(messages: seq<RoomMessage>, cursor: int): int {
    var handled := Above(messages, cursor);
    if handled == [] then cursor else handled[|handled| - 1].seqno
  }

  // Skipping what the moving cursor has passed skips what the first one had.
  lemma MovingCursor(messages: seq<RoomMessage>, cursor: int, i: nat)
    requires Increasing(Sequences(messages)) && i < |messages|
    ensures messages[i].seqno > CursorOver(messages[..i], cursor) <==> messages[i].seqno > cursor
    ensures messages[i].seqno > cursor ==> CursorOver(messages[..i + 1], cursor) == messages[i].seqno
    ensures messages[i].seqno <= cursor ==> CursorOver(messages[..i + 1], cursor) == CursorOver(messages[..i], cursor)
    ensures CursorOver(messages[..i], cursor) >= cursor
  {
    var before := messages[..i];
    assert forall k :: 0 <= k < i ==> Sequences(before)[k] == Sequences(messages)[k];
    LastAbove(before, cursor);
    AboveNext(messages, cursor, i);
    assert i > 0 ==> Sequences(messages)[i - 1] < Sequences(messages)[i];
  }

  lemma EventAdded(events: seq<Event>, e: Event)
    ensures HandledMessages(events + [e])
            == HandledMessages(events) + (if e.MessageHandled? then [e.m] else [])
    ensures Postings(events + [e]) == Postings(events) + AnswerOf(e)
  {
    assert (events + [e])[..|events|] == events;
  }

  lemma {:induction false} NoticesFirst(notices: seq<Event>, events: seq<Event>)
    requires forall e :: e in notices ==> !e.MessageHandled?
    ensures HandledMessages(notices + events) == HandledMessages(events)
    ensures Postings(notices + events) == Postings(events)
    decreases |notices| + |events|
  {
    var all := notices + events;
    if events != [] {
      NoticesFirst(notices, events[..|events| - 1]);
      assert all[..|all| - 1] == notices + events[..|events| - 1];
    } else if notices != [] {
      NoticesFirst(notices[..|notices| - 1], []);
      assert all[..|all| - 1] == notices[..|notices| - 1] + [];
    }
  }

  lemma {:induction false} NoticesLast(events: seq<Event>, notices: seq<Event>)
    requires forall e :: e in notices ==> !e.MessageHandled?
    ensures HandledMessages(events + notices) == HandledMessages(events)
    ensures Postings(events + notices) == Postings(events)
    decreases |notices|
  {
    var all := events + notices;
    if notices == [] {
      assert all == events;
    } else {
      NoticesLast(events, notices[..|notices| - 1]);
      assert all[..|all| - 1] == events + notices[..|notices| - 1];
    }
  }

  lemma Between(first: seq<Event>, events: seq<Event>, last: seq<Event>)
    requires forall e :: e in first + last ==> !e.MessageHandled?
    ensures HandledMessages(first + events + last) == HandledMessages(events)
    ensures Postings(first + events + last) == Postings(events)
  {
    assert forall e :: e in first ==> e in first + last;
    assert forall e :: e in last ==> e in first + last;
    NoticesFirst(first, events);
    NoticesLast(first + events, last);
  }

  // The first messages of a snapshot were handled: one event for each above
  // the old cursor, one envelope for each that was answered.
  predicate Progress(messages: seq<RoomMessage>, from: int, cursor: int, events: seq<Event>,
                     oldIssued: seq<Issued>, issued: seq<Issued>)
  {
    && cursor == CursorOver(messages, from)
    && HandledMessages(events) == Above(messages, from)
    && Envelopes(issued) == Envelopes(oldIssued) + Postings(events)
  }

  lemma ProgressSkips(messages: seq<RoomMessage>, i: nat, from: int, cursor: int, events: seq<Event>,
                      oldIssued: seq<Issued>, issued: seq<Issued>)
    requires Increasing(Sequences(messages)) && i < |messages| && messages[i].seqno <= cursor
    requires Progress(messages[..i], from, cursor, events, oldIssued, issued)
    ensures Progress(messages[..i + 1], from, cursor, events, oldIssued, issued)
  {
    MovingCursor(messages, from, i);
    AboveNext(messages, from, i);
  }

  lemma ProgressHandles(messages: seq<RoomMessage>, i: nat, from: int, cursor: int, events: seq<Event>,
                        oldIssued: seq<Issued>, issued: seq<Issued>, e: Event, issued': seq<Issued>)
    requires Increasing(Sequences(messages)) && i < |messages| && messages[i].seqno > cursor
    requires Progress(messages[..i], from, cursor, events, oldIssued, issued)
    requires e.MessageHandled? && e.m == messages[i]
    requires Envelopes(issued') == Envelopes(issued) + AnswerOf(e)
    ensures Progress(messages[..i + 1], from, messages[i].seqno, events + [e], oldIssued, issued')
    ensures HandledMessages(events + [e]) != []
  {
    MovingCursor(messages, from, i);
    AboveNext(messages, from, i);
    EventAdded(events, e);
  }

  lemma ClosedCursor(snapshot: RoomSnapshot, from: nat, events: seq<Event>, cursor: int)
    requires HandledMessages(events) == Above(snapshot.messages, from)
    requires cursor == if HandledMessages(events) != [] then CursorOver(snapshot.messages, from)
                       else Max(CursorOver(snapshot.messages, from), snapshot.lastSeq)
    ensures cursor == CursorAfter(snapshot, from)
  {
  }

  lemma {:induction false} AnsweredAreHandled(events: seq<Event>)
    ensures |Postings(events)| <= |HandledMessages(events)|
    decreases |events|
  {
    if events != [] {
      AnsweredAreHandled(events[..|events| - 1]);
    }
  }

  lemma CursorCovers(snapshot: RoomSnapshot, cursor: nat)
    requires WellFormed(snapshot)
    ensures CursorAfter(snapshot, cursor) >= cursor
    ensures Above(snapshot.messages, CursorAfter(snapshot, cursor)) == []
  {
    var messages := snapshot.messages;
    LastAbove(messages, cursor);
    forall m | m in messages
      ensures m.seqno <= CursorAfter(snapshot, cursor)
    {
      var k :| 0 <= k < |messages| && messages[k] == m;
      assert Sequences(messages)[k] <= Sequences(messages)[|messages| - 1];
    }
    AboveAll(messages, CursorAfter(snapshot, cursor));
  }

  // A second pass over the same snapshot handles no message, and answers none.
  lemma SecondPassSendsNothing(snapshot: RoomSnapshot, cursor: nat, events: seq<Event>)
    requires WellFormed(snapshot)
    requires HandledMessages(events) == Above(snapshot.messages, CursorAfter(snapshot, cursor))
    ensures HandledMessages(events) == [] && Postings(events) == []
  {
    CursorCovers(snapshot, cursor);
    AnsweredAreHandled(events);
  }

  // ---- What the audit log is told ----

  function OutcomeOf(outcome: EventOutcome): Outcome {
    match outcome
    case ReplySent(_) => Sent
    case ReceiptSent(_, _) => SentReceipt
    case IssueFailed => ReceiptFailed
    case _ => NothingSent
  }

  function FieldsFor(m: RoomMessage, decision: Decision, outcome: EventOutcome): AuditFields {
    AuditFields(
      m.seqno, if m.IsSigned() then Some(Sha256(m.sender)) else None, m.IsSigned(),
      decision.action, decision.reason, OutcomeOf(outcome),
      if outcome.ReceiptSent? then Some(outcome.digest) else None,
      SequenceOf(outcome))
  }

  // The outcomes a decision can have, with and without sending.
  predicate Follows(send: bool, decision: Decision, outcome: EventOutcome) {
    match decision.action
    case Ignore => outcome.NoAnswer?
    case Reply => if send then outcome.ReplySent? && outcome.reply > 0 else outcome.WouldReply?
    case Receipt =>
      if send then outcome.IssueFailed? || (outcome.ReceiptSent? && outcome.reply > 0 && outcome.digest.Sha256?)
      else outcome.WouldIssue?
  }

  // A decision the policy can come to.
  predicate Decided(own: string, mode: SenderMode, grants: Grants, split: string -> UrlParts, m: RoomMessage,
                    decision: Decision)
  {
    var verdict := Judged(own, mode, grants, split, m);
    decision == verdict.decision || (verdict.Metered? && decision == Ignored("rate_limited"))
  }

  lemma SenderReasons()
    ensures IsToken("own_message") && IsToken("unsigned_sender") && IsToken("sender_not_allowlisted")
    ensures IsToken("principal_not_granted")
  {
  }

  lemma CommandReasons()
    ensures IsToken("principal_revoked") && IsToken("unsupported_command") && IsToken("command_not_granted")
    ensures IsToken("invalid_pull_request_url")
  {
  }

  lemma GrantReasons()
    ensures IsToken("repository_not_granted") && IsToken("rate_limited") && IsToken("allowed_command")
    ensures IsToken("allowed_public_pull_request")
  {
  }

  lemma ReasonsAreTokens(
      own: string, mode: SenderMode, grants: Grants, split: string -> UrlParts, m: RoomMessage, decision: Decision)
    requires Decided(own, mode, grants, split, m, decision)
    ensures IsToken(decision.reason)
  {
    SenderReasons();
    CommandReasons();
    GrantReasons();
  }

  // Every event of the live responder passes the validators of the log.
  lemma EventsAreAuditable(
      own: string, mode: SenderMode, grants: Grants, split: string -> UrlParts, m: RoomMessage,
      decision: Decision, outcome: EventOutcome)
    requires Decided(own, mode, grants, split, m, decision) && Follows(true, decision, outcome) && m.seqno > 0
    ensures ValidateFields(FieldsFor(m, decision, outcome)).Ok?
  {
    ReasonsAreTokens(own, mode, grants, split, m, decision);
  }

  // A reply decision has its text and a receipt decision its target.
  lemma DecisionIsWhole(
      own: string, mode: SenderMode, grants: Grants, split: string -> UrlParts, m: RoomMessage, decision: Decision)
    requires Decided(own, mode, grants, split, m, decision)
    ensures decision.action.Reply? ==> decision.reply.Some?
    ensures decision.action.Receipt? ==> decision.target.Some? && decision.target.value.Valid()
  {
    if CommandName(m.text).Some? {
      ParsedIsWhole(CommandName(m.text).value, m.text, split);
    }
    JudgedIsParsed(own, mode, grants, split, m);
  }

  lemma JudgedIsParsed(own: string, mode: SenderMode, grants: Grants, split: string -> UrlParts, m: RoomMessage)
    ensures var decision := Judged(own, mode, grants, split, m).decision;
            decision.action.Ignore?
            || (CommandName(m.text).Some? && decision == ParsedCommand(CommandName(m.text).value, m.text, split))
  {
  }

  lemma ParsedIsWhole(name: string, text: string, split: string -> UrlParts)
    ensures var decision := ParsedCommand(name, text, split);
            && (decision.action.Reply? ==> decision.reply.Some?)
            && (decision.action.Receipt? ==> decision.target.Some? && decision.target.value.Valid())
  {
    RequestedIsValid(text, split);
  }

  lemma RequestedIsValid(text: string, split: string -> UrlParts)
    ensures RequestedPull(text, split).Some? ==> RequestedPull(text, split).value.Valid()
  {
    var url := split(if "/pr " <= text then text[|"/pr "|..] else text);
    if ParsePullRequest(url).Ok? {
      ParsesExactlyPrintedForms(url, ParsePullRequest(url).value);
    }
  }

  predicate AllIn(messages: seq<RoomMessage>, room: Room) {
    forall m :: m in messages ==> m in room
  }

  lemma StaysIn(messages: seq<RoomMessage>, m: RoomMessage, room: Room, room': Room)
    requires AllIn(messages, room) && m in messages && room <= room'
    ensures m in room'
  {
    var k :| 0 <= k < |room| && room[k] == m;
    assert room'[k] == m;
  }

  // ---- The responder ----

  // The reservation behind a metered verdict is a step of the machine.
  lemma VerdictReserves(
      s: Sys, mode: SenderMode, grants: Grants, split: string -> UrlParts, m: RoomMessage, now: nat)
    requires s.life.Live? && s.life.point == Handling(m, false, false) && s.life.metered == mode.ByCapability?
    requires var verdict := Judged(s.config.own, mode, grants, split, m);
             verdict.Metered? && Allowed(s.life.mem.requests, Attempt(m.sender, now, verdict.limit))
    ensures CanReserve(s, now, Judged(s.config.own, mode, grants, split, m).limit)
  {
    MeteredLimit(s.config.own, mode, grants, split, m);
  }

  // The machine's side of one audit entry, for a process that may end after it.
  lemma AuditRuns(s: Sys, fields: AuditFields)
    requires CanAuditReply(s, fields) || CanAuditOther(s, fields)
    ensures CanAuditReply(s, fields) ==>
              Reaches(s, DoAuditReply(s, fields)) && Reaches(s, DoCrash(DoAuditReply(s, fields)))
    ensures CanAuditOther(s, fields) ==>
              Reaches(s, DoAuditOther(s, fields)) && Reaches(s, DoCrash(DoAuditOther(s, fields)))
  {
    ReachesItself(s);
    if CanAuditReply(s, fields) {
      Advance(s, s, AuditReply(fields));
      AfterCrash(s, DoAuditReply(s, fields));
    } else {
      Advance(s, s, AuditOther(fields));
      AfterCrash(s, DoAuditOther(s, fields));
    }
  }

  // And of one lookup.
  lemma LookUpRuns(s: Sys)
    requires CanLookUp(s)
    ensures Reaches(s, DoLookUp(s)) && Reaches(s, DoCrash(DoLookUp(s)))
  {
    ReachesItself(s);
    Advance(s, s, LookUp);
    AfterCrash(s, DoLookUp(s));
  }

  function LimitOf(grants: Grants, did: string): nat {
    if did in grants then grants[did].maxRequestsPerHour else 0
  }

  lemma AnsweredSenders(
      own: string, mode: SenderMode, grants: Grants, split: string -> UrlParts, m: RoomMessage, decision: Decision)
    requires Decided(own, mode, grants, split, m, decision) && !decision.action.Ignore?
    ensures m.IsSigned() && m.sender != own
    ensures decision == Judged(own, mode, grants, split, m).decision
    ensures mode.ByCapability? ==> Judged(own, mode, grants, split, m).Metered?
  {
    OnlySignedThirdPartiesAreAnswered(own, mode, grants, split, m);
    if mode.ByCapability? {
      MeteredExactlyWhenEntitled(own, grants, split, m);
    }
  }

  class SafeResponder {
    const room: string
    const did: string
    const send: bool
    const policy: CommandPolicy
    const receipts: ContributionReceiptService
    const state: AgentState
    const world: World

    ghost predicate Valid()
      reads this, world, world.path, world.journal, world.audit, world.server
    {
      && world.Linked()
      && IsRoom(room) && KeyFromDid(did).Ok? && did == policy.ownDid && did == world.s.config.own
      && policy.limiter.state == state && policy.limiter.path == world.path && policy.limiter.consume == send
      && receipts.issuer == did && receipts.keyDid == did && receipts.minInterval >= 0.0
      && forall w :: IsSha256(world.audit.hash(w))
    }

    // The process is at this point, or does not send and is at none.
    ghost predicate At(point: LivePoint)
      reads this, world, world.path, world.journal, world.audit, world.server, state
    {
      && Valid()
      && if send then
           world.s.life == Live(room, policy.mode.ByCapability?, state.Value(), point) && OwnLog(world.audit.hash, world.audit.lines, did)
         else world.s.life.Down?
    }

    // Memory is what the state file holds, up to the room generations.
    ghost predicate Saved()
      reads this, world, world.path, state
    {
      send ==> state.Value() == world.path.saved.(generations := state.generations)
    }

    ghost predicate Ready()
      reads this, world, world.path, world.journal, world.audit, world.server, state
    {
      At(Polling) && Saved() && (send ==> world.s.disk.journal.None?)
    }

    constructor (room: string, send: bool, policy: CommandPolicy, receipts: ContributionReceiptService, world: World)
      ensures this.room == room && this.did == policy.ownDid && this.send == send && this.policy == policy
      ensures this.receipts == receipts && this.state == policy.limiter.state && this.world == world
    {
      this.room, this.did, this.send, this.policy := room, policy.ownDid, send, policy;
      this.receipts, this.state, this.world := receipts, policy.limiter.state, world;
    }

    // The policy's decision on a message, by the capability file as it is read
    // now, and when it reserved capacity for it, if it did.
    method Ask(m: RoomMessage)
      returns (r: Result<Decision, RunError>, ghost grants: Grants, ghost reservedAt: Option<nat>)
      requires policy.limiter.state == state && policy.limiter.path == world.path && policy.limiter.consume == send
      modifies world.path, state
      ensures r.Ok? ==> Decided(policy.ownDid, policy.mode, grants, policy.split, m, r.value)
      ensures r.Ok? && !r.value.action.Ignore? && policy.mode.ByCapability? && send ==> reservedAt.Some?
      ensures reservedAt.None? ==>
                world.path.saved == old(world.path.saved) && (r.Ok? ==> state.Value() == old(state.Value()))
      ensures reservedAt.Some? ==>
                var verdict := Judged(policy.ownDid, policy.mode, grants, policy.split, m);
                && send && verdict.Metered?
                && Allowed(old(state.capabilityRequests), Attempt(m.sender, reservedAt.value, verdict.limit))
                && world.path.saved == old(state.Value()).(
                  requests := Reserved(old(state.capabilityRequests), m.sender, reservedAt.value, WINDOW))
                && (r.Ok? ==> state.Value() == world.path.saved)
    {
      var clock: Reading := *;
      var granted: Grants, readable: bool := *, *;
      var file: Result<Grants, CapabilityError> := if readable then Ok(granted) else Err(PolicyUnreadable);
      grants := if readable then granted else map[];
      ghost var verdict := Judged(policy.ownDid, policy.mode, grants, policy.split, m);
      ghost var requests, saved := state.capabilityRequests, world.path.saved;
      var decided := policy.Decide(m, file, clock);
      reservedAt := None;
      if send && verdict.Metered? && clock.Finite? && clock.seconds >= 0.0
         && Allowed(requests, Attempt(m.sender, clock.seconds.Floor, verdict.limit))
         && (decided.Ok? || world.path.saved != saved) {
        reservedAt := Some(clock.seconds.Floor);
      }
      if decided.Err? {
        return Err(PolicyFailed), grants, reservedAt;
      }
      r := Ok(decided.value);
      if !r.value.action.Ignore? {
        AnsweredSenders(policy.ownDid, policy.mode, grants, policy.split, m, r.value);
      }
    }

    // Some contents of the capability file lead to this decision.
    ghost predicate ByPolicy(m: RoomMessage, decision: Decision) {
      exists grants :: Decided(did, policy.mode, grants, policy.split, m, decision)
    }

    // The same as steps of the machine: a reservation is on disk before the
    // decision is acted on, under the limit the file gave at that moment.
    method Decide(m: RoomMessage) returns (r: Result<Decision, RunError>, ghost granted: bool)
      requires At(Handling(m, false, false)) && Saved()
      modifies world, world.path, state
      ensures Valid() && Reaches(old(world.s), world.s)
      ensures world.s.issued == old(world.s.issued) && world.s.disk.journal == old(world.s.disk.journal)
      ensures r.Ok? ==> At(Handling(m, granted, false)) && Saved() && ByPolicy(m, r.value)
      ensures r.Ok? && !r.value.action.Ignore? ==>
                m.IsSigned() && m.sender != did && (send && policy.mode.ByCapability? ==> granted)
      ensures granted ==>
                && |world.s.reserved| == |old(world.s.reserved)| + 1
                && var a := world.s.reserved[|old(world.s.reserved)|];
                   a.did == m.sender
                   && (r.Ok? ==> exists grants :: Decided(did, policy.mode, grants, policy.split, m, r.value)
                                                  && m.sender in grants && a.limit == LimitOf(grants, m.sender))
      ensures r.Ok? ==> state.cursors == old(state.cursors) && state.generations == old(state.generations)
      ensures r.Err? && send ==> world.s.life.Down?
      ensures !send ==> world.s == old(world.s)
    {
      ReachesItself(world.s);
      ghost var before, grants, reservedAt := world.s, map[], None;
      r, grants, reservedAt := Ask(m);
      granted := reservedAt.Some?;
      if granted {
        ghost var limit := Judged(did, policy.mode, grants, policy.split, m).limit;
        MeteredLimit(did, policy.mode, grants, policy.split, m);
        assert limit == LimitOf(grants, m.sender);
        VerdictReserves(before, policy.mode, grants, policy.split, m, reservedAt.value);
        Advance(before, before, Reserve(reservedAt.value, limit));
        world.s := DoReserve(before, reservedAt.value, limit);
      }
      if r.Err? {
        if send {
          AfterCrash(before, world.s);
          world.s := DoCrash(world.s);
        }
        return;
      }
      assert Decided(did, policy.mode, grants, policy.split, m, r.value);
      if !r.value.action.Ignore? {
        AnsweredSenders(did, policy.mode, grants, policy.split, m, r.value);
      }
    }

    // ---- Sending ----

    // Memory is the state file but for the nonce just taken.
    ghost predicate SavedButNonce()
      reads this, world, world.path, state
    {
      state.Value() == world.path.saved.(nonces := state.nonces, generations := state.generations)
    }

    method SignAndCreate(inputSequence: int, nonce: nat, text: string) returns (r: Result<DeliveryRecord, RunError>)
      ensures r.Ok? <==> Envelope(did, room, inputSequence, nonce, text).Some?
      ensures r.Ok? ==> Some(r.value) == Envelope(did, room, inputSequence, nonce, text)
    {
      var signed := SignRoomMessage(did, room, nonce, text);
      if signed.Err? {
        return Err(NotSigned);
      }
      var record := Create(room, inputSequence, did, nonce, signed.value.0, signed.value.1);
      if record.Err? {
        return Err(NotCreated);
      }
      r := Ok(record.value);
    }

    // Nonce, signature and journal: the evidence is on disk before anything
    // is sent.
    method PrepareEnvelope(m: RoomMessage, text: string, ghost granted: bool, ghost lookedUp: bool)
      returns (r: Result<DeliveryRecord, RunError>)
      requires send && At(Handling(m, granted, lookedUp)) && Saved()
      requires m.IsSigned() && m.sender != did && (policy.mode.ByCapability? ==> granted)
      modifies world, world.journal, state`nonces
      ensures Valid() && Reaches(old(world.s), world.s)
      ensures r.Ok? ==> At(Prepared(m, r.value)) && SavedButNonce() && world.s.disk.journal == Some(r.value)
      ensures r.Ok? ==> world.s.issued == old(world.s.issued) + [Issued(room, r.value)]
      ensures r.Ok? ==> r.value.inputSequence == m.seqno && r.value.text == Swept(text)
      ensures r.Err? ==> world.s.life.Down?
    {
      ghost var before := world.s;
      ReachesItself(before);
      AfterCrash(before, before);
      var empty := world.journal.RequireEmpty();
      if empty.Err? {
        world.s := DoCrash(before);
        return Err(JournalInUse);
      }
      var clock: int := *;
      var nonce := state.NextNonceFor(room, clock);
      if nonce.Err? {
        world.s := DoCrash(before);
        return Err(NotSigned);
      }
      var record := SignAndCreate(m.seqno, nonce.value, text);
      if record.Err? {
        world.s := DoCrash(before);
        return Err(record.error);
      }
      EnvelopeIs(did, room, m.seqno, nonce.value, text);
      var prepared := JournalEnvelope(m, record.value, clock, text);
      r := if prepared.Err? then Err(prepared.error) else record;
    }

    // The journal write itself, after the nonce was taken in memory.
    method JournalEnvelope(m: RoomMessage, record: DeliveryRecord, ghost clock: nat, ghost text: string)
      returns (r: Result<(), RunError>)
      requires send && Valid() && CanPrepare(world.s, clock, text)
      requires WellFormedRecord(record)
      requires DoPrepare(world.s, clock, text).life == Live(room, policy.mode.ByCapability?, state.Value(), Prepared(m, record))
      requires OwnLog(world.audit.hash, world.audit.lines, did)
      requires DoPrepare(world.s, clock, text).disk.journal == Some(record)
      modifies world, world.journal
      ensures Valid() && Reaches(old(world.s), world.s)
      ensures r.Ok? ==> world.s == DoPrepare(old(world.s), clock, text)
      ensures r.Err? ==> world.s.life.Down?
    {
      ghost var before := world.s;
      ReachesItself(before);
      var prepared := world.journal.Prepare(record);
      if world.journal.stored.Some? {
        Advance(before, before, Prepare(clock, text));
        world.s := DoPrepare(before, clock, text);
      }
      if prepared.Err? {
        AfterCrash(before, world.s);
        world.s := DoCrash(world.s);
        return Err(UncertainWrite);
      }
      r := Ok(());
    }

    // The one request. Whether it lands, and whether the answer comes back,
    // is not the responder's to know.
    method PostEnvelope(m: RoomMessage, record: DeliveryRecord) returns (r: Result<int, RunError>)
      requires send && At(Prepared(m, record))
      modifies world, world.server
      ensures Valid() && Reaches(old(world.s), world.s)
      ensures world.s.disk == old(world.s.disk) && world.s.issued == old(world.s.issued)
      ensures RoomsGrow(old(world.server.rooms), world.server.rooms)
      ensures r.Ok? ==> At(Answered(m, record, r.value)) && r.value > 0
      ensures r.Err? ==> world.s.life.Down?
    {
      ghost var before := world.s;
      ReachesItself(before);
      Advance(before, before, Post);
      world.server.Send(Issued(room, record));
      world.s := DoPost(before);
      ghost var posted := world.s;
      world.Elapse();
      ReachesOn(before, posted, world.s);
      var answered: bool, reply: int := *, *;
      var landed := RoomOf(world.server.rooms, room);
      if !answered || !(1 <= reply <= |landed|) || !record.Matches(landed[reply - 1]) {
        AfterCrash(before, world.s);
        world.s := DoCrash(world.s);
        return Err(UncertainWrite);
      }
      Advance(before, world.s, Answer(reply));
      world.s := DoAnswer(world.s, reply);
      r := Ok(reply);
    }

    method AcknowledgeReply(m: RoomMessage, record: DeliveryRecord, reply: int) returns (r: Result<(), RunError>)
      requires send && At(Answered(m, record, reply)) && world.s.disk.journal == Some(record)
      modifies world, world.journal
      ensures Valid() && Reaches(old(world.s), world.s)
      ensures world.s.issued == old(world.s.issued)
      ensures r.Ok? ==> At(Acked(m, record, reply)) && world.s.disk.journal.Some?
      ensures r.Err? ==> world.s.life.Down?
    {
      ghost var before := world.s;
      ReachesItself(before);
      var acknowledged := world.AcknowledgeJournal(record, reply);
      if record.Acknowledge(reply).Ok? && (acknowledged.Ok? || world.journal.stored != Stored(before.disk.journal)) {
        Advance(before, before, Acknowledge);
        world.s := DoAcknowledge(before);
      }
      if acknowledged.Err? {
        AfterCrash(before, world.s);
        world.s := DoCrash(world.s);
        return Err(UncertainWrite);
      }
      r := Ok(());
    }

    // The message was handled, with this acknowledged reply or with none, and
    // nothing is saved yet.
    ghost predicate Served(m: RoomMessage, reply: Option<int>)
      reads this, world, world.path, world.journal, world.audit, world.server, state
    {
      && Valid() && OwnLog(world.audit.hash, world.audit.lines, did)
      && world.s.life.Live? && world.s.life.room == room && world.s.life.metered == policy.mode.ByCapability?
      && world.s.life.mem == state.Value()
      && var point := world.s.life.point;
         if reply.Some? then
           point.Acked? && point.m == m && point.reply == reply.value && SavedButNonce()
           && world.s.disk.journal.Some? && reply.value > 0
         else point.Handling? && point.m == m && Saved() && world.s.disk.journal.None?
    }

    // From evidence on disk to an acknowledged reply.
    method Deliver(m: RoomMessage, record: DeliveryRecord) returns (r: Result<int, RunError>)
      requires send && At(Prepared(m, record)) && SavedButNonce() && world.s.disk.journal == Some(record)
      modifies world, world.journal, world.server
      ensures Valid() && Reaches(old(world.s), world.s)
      ensures RoomsGrow(old(world.server.rooms), world.server.rooms)
      ensures world.s.issued == old(world.s.issued)
      ensures r.Ok? ==> Served(m, Some(r.value))
      ensures r.Err? ==> world.s.life.Down?
    {
      ghost var before := world.s;
      r := PostEnvelope(m, record);
      if r.Ok? {
        ghost var answered := world.s;
        var acknowledged := AcknowledgeReply(m, record, r.value);
        ReachesOn(before, answered, world.s);
        if acknowledged.Err? {
          r := Err(acknowledged.error);
        }
      }
    }

    method SendText(m: RoomMessage, text: string, ghost granted: bool, ghost lookedUp: bool)
      returns (r: Result<int, RunError>)
      requires send && At(Handling(m, granted, lookedUp)) && Saved()
      requires m.IsSigned() && m.sender != did && (policy.mode.ByCapability? ==> granted)
      modifies world, world.journal, world.server, state`nonces
      ensures Valid() && Reaches(old(world.s), world.s)
      ensures RoomsGrow(old(world.server.rooms), world.server.rooms)
      ensures r.Ok? ==> Served(m, Some(r.value))
      ensures r.Ok? ==> Envelopes(world.s.issued) == Envelopes(old(world.s.issued)) + [Posting(m.seqno, Swept(text))]
      ensures r.Err? ==> world.s.life.Down?
    {
      ghost var before := world.s;
      var prepared := PrepareEnvelope(m, text, granted, lookedUp);
      if prepared.Err? {
        return Err(prepared.error);
      }
      ghost var evident := world.s;
      EnvelopeAdded(before.issued, Issued(room, prepared.value));
      r := Deliver(m, prepared.value);
      ReachesOn(before, evident, world.s);
    }

    // ---- One message ----

    // A message event reports a decision of the policy and its outcome.
    ghost predicate Sound(e: Event) {
      e.MessageHandled? ==>
        ByPolicy(e.m, e.decision) && Follows(send, e.decision, e.outcome) && StatesTarget(e.decision, e.outcome)
    }

    // A receipt that was sent is the text of one that verifies as this
    // agent's, about the pull request that was asked for.
    ghost predicate StatesTarget(decision: Decision, outcome: EventOutcome) {
      outcome.ReceiptSent? ==>
        && decision.target.Some? && outcome.digest.Sha256?
        && exists receipt :: StatesPull(receipt, decision.target.value, did)
                             && receipts.render(receipt) == outcome.digest.preimage
    }

    method EventForMessage(m: RoomMessage) returns (r: Result<Event, RunError>)
      requires Ready() && receipts.Valid() && m.seqno > state.CursorFor(room)
      requires send ==> m in RoomOf(world.server.rooms, room)
      modifies world, world.path, world.journal, world.server, state, receipts
      ensures Valid() && receipts.Valid() && Reaches(old(world.s), world.s)
      ensures RoomsGrow(old(world.server.rooms), world.server.rooms)
      ensures r.Ok? ==> r.value.MessageHandled? && r.value.m == m
      ensures r.Ok? ==> Sound(r.value) && (send ==> Served(m, SequenceOf(r.value.outcome)))
      ensures r.Ok? && send ==>
                Envelopes(world.s.issued)
                == Envelopes(old(world.s.issued)) + AnswerOf(r.value)
      ensures r.Ok? ==> state.cursors == old(state.cursors) && state.generations == old(state.generations)
      ensures r.Err? && send ==> world.s.life.Down?
      ensures !send ==> world.s == old(world.s)
    {
      ghost var before := world.s;
      BeginMessage(m);
      ghost var taken := world.s;
      ghost var granted;
      var decision;
      decision, granted := Decide(m);
      ReachesOn(before, taken, world.s);
      if decision.Err? {
        return Err(decision.error);
      }
      ghost var decided := world.s;
      var outcome := Respond(m, decision.value, granted);
      ReachesOn(before, decided, world.s);
      r := if outcome.Ok? then Ok(MessageHandled(m, decision.value, outcome.value)) else Err(outcome.error);
    }

    // The machine turns to a message of the room.
    ghost method BeginMessage(m: RoomMessage)
      requires Ready() && m.seqno > state.CursorFor(room)
      requires send ==> m in RoomOf(world.server.rooms, room)
      modifies world
      ensures At(Handling(m, false, false)) && Saved() && Reaches(old(world.s), world.s)
      ensures world.s == old(world.s).(life := world.s.life)
      ensures !send ==> world.s == old(world.s)
    {
      ReachesItself(world.s);
      if send {
        Advance(world.s, world.s, Take(m));
        world.s := DoTake(world.s, m);
      }
    }

    method Respond(m: RoomMessage, decision: Decision, ghost granted: bool) returns (r: Result<EventOutcome, RunError>)
      requires receipts.Valid()
      requires At(Handling(m, granted, false)) && Saved() && (send ==> world.s.disk.journal.None?)
      requires ByPolicy(m, decision)
      requires !decision.action.Ignore? ==>
                 m.IsSigned() && m.sender != did && (send && policy.mode.ByCapability? ==> granted)
      modifies world, world.journal, world.server, state`nonces, receipts
      ensures Valid() && Reaches(old(world.s), world.s)
      ensures RoomsGrow(old(world.server.rooms), world.server.rooms)
      ensures receipts.Valid()
      ensures r.Ok? ==> Follows(send, decision, r.value) && (send ==> Served(m, SequenceOf(r.value)))
      ensures r.Ok? ==> StatesTarget(decision, r.value)
      ensures r.Ok? && send ==>
                Envelopes(world.s.issued) == Envelopes(old(world.s.issued)) + AnswerPosted(m, decision, r.value)
      ensures r.Err? && send ==> world.s.life.Down?
      ensures !send ==> world.s == old(world.s)
    {
      ghost var grants :| Decided(did, policy.mode, grants, policy.split, m, decision);
      DecisionIsWhole(did, policy.mode, grants, policy.split, m, decision);
      if decision.action.Reply? && decision.reply.Some? {
        r := ReplyEvent(m, decision, granted);
      } else if decision.action.Receipt? && decision.target.Some? {
        r := ReceiptEvent(m, decision, granted);
      } else {
        ReachesItself(world.s);
        r := Ok(NoAnswer);
      }
    }

    method ReplyEvent(m: RoomMessage, decision: Decision, ghost granted: bool) returns (r: Result<EventOutcome, RunError>)
      requires At(Handling(m, granted, false)) && Saved() && (send ==> world.s.disk.journal.None?)
      requires decision.action.Reply? && decision.reply.Some?
      requires m.IsSigned() && m.sender != did && (send && policy.mode.ByCapability? ==> granted)
      modifies world, world.journal, world.server, state`nonces
      ensures Valid() && Reaches(old(world.s), world.s)
      ensures RoomsGrow(old(world.server.rooms), world.server.rooms)
      ensures r.Ok? ==> Follows(send, decision, r.value) && (send ==> Served(m, SequenceOf(r.value)))
      ensures r.Ok? && send ==>
                Envelopes(world.s.issued) == Envelopes(old(world.s.issued)) + AnswerPosted(m, decision, r.value)
      ensures r.Err? && send ==> world.s.life.Down?
      ensures !send ==> world.s == old(world.s)
    {
      if !send {
        ReachesItself(world.s);
        return Ok(WouldReply);
      }
      var sent := SendText(m, decision.reply.value, granted, false);
      r := if sent.Ok? then Ok(ReplySent(sent.value)) else Err(sent.error);
    }

    method ReceiptEvent(m: RoomMessage, decision: Decision, ghost granted: bool) returns (r: Result<EventOutcome, RunError>)
      requires receipts.Valid()
      requires At(Handling(m, granted, false)) && Saved() && (send ==> world.s.disk.journal.None?)
      requires decision.action.Receipt? && decision.target.Some? && decision.target.value.Valid()
      requires m.IsSigned() && m.sender != did && (send && policy.mode.ByCapability? ==> granted)
      modifies world, world.journal, world.server, state`nonces, receipts
      ensures Valid() && Reaches(old(world.s), world.s)
      ensures RoomsGrow(old(world.server.rooms), world.server.rooms)
      ensures receipts.Valid()
      ensures r.Ok? ==> Follows(send, decision, r.value) && (send ==> Served(m, SequenceOf(r.value)))
      ensures r.Ok? ==> StatesTarget(decision, r.value)
      ensures r.Ok? && send ==>
                Envelopes(world.s.issued) == Envelopes(old(world.s.issued)) + AnswerPosted(m, decision, r.value)
      ensures r.Err? && send ==> world.s.life.Down?
      ensures !send ==> world.s == old(world.s)
    {
      if !send {
        ReachesItself(world.s);
        return Ok(WouldIssue);
      }
      r := IssueAndSend(m, decision, granted);
    }

    method IssueAndSend(m: RoomMessage, decision: Decision, ghost granted: bool) returns (r: Result<EventOutcome, RunError>)
      requires send && At(Handling(m, granted, false)) && Saved() && receipts.Valid() && world.s.disk.journal.None?
      requires decision.target.Some? && decision.target.value.Valid()
      requires m.IsSigned() && m.sender != did && (policy.mode.ByCapability? ==> granted)
      modifies world, world.journal, world.server, state`nonces, receipts
      ensures Valid() && receipts.Valid() && Reaches(old(world.s), world.s)
      ensures RoomsGrow(old(world.server.rooms), world.server.rooms)
      ensures r.Ok? ==> r.value.IssueFailed? || (r.value.ReceiptSent? && r.value.reply > 0 && r.value.digest.Sha256?)
      ensures r.Ok? ==> Served(m, SequenceOf(r.value)) && StatesTarget(decision, r.value)
      ensures r.Ok? ==>
                Envelopes(world.s.issued) == Envelopes(old(world.s.issued)) + AnswerPosted(m, decision, r.value)
      ensures r.Err? ==> world.s.life.Down?
    {
      ghost var before := world.s;
      var issued;
      ghost var receipt, lookedUp;
      issued, receipt, lookedUp := IssueReceipt(m, decision.target.value, granted);
      if issued.Err? {
        return Err(issued.error);
      }
      if issued.value.None? {
        return Ok(IssueFailed);
      }
      ghost var asked := world.s;
      r := SendReceipt(m, decision, issued.value.value, receipt.value, granted, lookedUp);
      ReachesOn(before, asked, world.s);
    }

    method SendReceipt(m: RoomMessage, decision: Decision, text: string, ghost receipt: SignedReceipt,
                       ghost granted: bool, ghost lookedUp: bool)
      returns (r: Result<EventOutcome, RunError>)
      requires send && At(Handling(m, granted, lookedUp)) && Saved()
      requires m.IsSigned() && m.sender != did && (policy.mode.ByCapability? ==> granted)
      requires decision.target.Some? && StatesPull(receipt, decision.target.value, did) && receipts.render(receipt) == text
      modifies world, world.journal, world.server, state`nonces
      ensures Valid() && Reaches(old(world.s), world.s)
      ensures RoomsGrow(old(world.server.rooms), world.server.rooms)
      ensures r.Ok? ==> r.value.ReceiptSent? && r.value.reply > 0 && r.value.digest.Sha256? && StatesTarget(decision, r.value)
      ensures r.Ok? ==> Served(m, SequenceOf(r.value))
      ensures r.Ok? ==>
                Envelopes(world.s.issued) == Envelopes(old(world.s.issued)) + AnswerPosted(m, decision, r.value)
      ensures r.Err? ==> world.s.life.Down?
    {
      var sent := SendText(m, text, granted, lookedUp);
      r := if sent.Ok? then Ok(ReceiptSent(sent.value, Sha256(text))) else Err(sent.error);
    }

    // The receipt service: the text of a receipt of the target, a refusal that
    // is reported, or any other error, which ends the process. GitHub is asked
    // if the service makes an attempt.
    method IssueReceipt(m: RoomMessage, target: PullRequestRef, ghost granted: bool)
      returns (r: Result<Option<string>, RunError>, ghost receipt: Option<SignedReceipt>, ghost lookedUp: bool)
      requires send && At(Handling(m, granted, false)) && Saved() && receipts.Valid() && target.Valid()
      requires policy.mode.ByCapability? ==> granted
      modifies world, receipts
      ensures Valid() && receipts.Valid() && Reaches(old(world.s), world.s)
      ensures world.s == old(world.s).(life := world.s.life, lookups := world.s.lookups)
      ensures lookedUp <==> receipts.attempts != old(receipts.attempts)
      ensures r.Ok? ==> At(Handling(m, granted, lookedUp)) && Saved()
      ensures r.Ok? && r.value.Some? ==>
                lookedUp && receipt.Some? && StatesPull(receipt.value, target, did)
                && receipts.render(receipt.value) == r.value.value
      ensures r.Err? ==> world.s.life.Down?
    {
      ghost var before, attempts := world.s, receipts.attempts;
      ReachesItself(before);
      AfterCrash(before, before);
      var now: real, responses: Responses, observedAt: string := *, *, *;
      ParsesExactlyPrintedForms(target.Url(), target);
      var issued;
      issued, receipt := receipts.Issue(Some(target.Url()), now, responses, observedAt);
      lookedUp := receipts.attempts != attempts;
      if lookedUp {
        LookUpRuns(before);
        world.s := DoLookUp(before);
      }
      var failed: bool := *;
      if failed {
        world.s := DoCrash(world.s);
        return Err(ReceiptServiceFailed), receipt, lookedUp;
      }
      r := Ok(if issued.Ok? then Some(issued.value) else None);
    }

    // ---- Audit, cursor, journal ----

    method AppendAuditRecord(m: RoomMessage, decision: Decision, outcome: EventOutcome) returns (r: Result<(), RunError>)
      requires send && Served(m, SequenceOf(outcome)) && m.seqno > 0
      requires ByPolicy(m, decision) && Follows(true, decision, outcome)
      modifies world, world.audit
      ensures Valid() && Reaches(old(world.s), world.s)
      ensures world.s.issued == old(world.s.issued)
      ensures world.s.disk == old(world.s.disk).(audit := world.s.disk.audit)
      ensures r.Ok? ==> At(Audited(m, IsAnswer(outcome)))
      ensures r.Err? ==> world.s.life.Down? && r.error == AuditFailed(AppendFailed)
    {
      ghost var before := world.s;
      ReachesItself(before);
      AfterCrash(before, before);
      ghost var grants :| Decided(did, policy.mode, grants, policy.split, m, decision);
      EventsAreAuditable(did, policy.mode, grants, policy.split, m, decision, outcome);
      var fields := FieldsFor(m, decision, outcome);
      var observedAt: int := *;
      ghost var written;
      var appended;
      appended, written := world.AppendLine(did, observedAt, AuditNote(room, fields));
      if written {
        world.s := if IsAnswer(outcome) then DoAuditReply(before, fields) else DoAuditOther(before, fields);
        AuditRuns(before, fields);
      }
      if appended.Err? {
        world.s := DoCrash(world.s);
        return Err(AuditFailed(appended.error));
      }
      r := Ok(());
    }

    method SaveCursor(m: RoomMessage, ghost replied: bool) returns (r: Result<(), RunError>)
      requires send && At(Audited(m, replied))
      requires replied ==> world.s.disk.journal.Some?
      modifies world, world.path, state`cursors
      ensures Valid() && Reaches(old(world.s), world.s)
      ensures world.s.issued == old(world.s.issued) && world.s.disk.journal == old(world.s.disk.journal)
      ensures r.Ok? ==> At(if replied then Persisted else Polling) && world.path.saved == state.Value()
      ensures r.Ok? ==> m.seqno >= 0 && state.cursors == old(state.cursors)[room := m.seqno]
      ensures r.Err? ==> world.s.life.Down?
    {
      ghost var before := world.s;
      ReachesItself(before);
      var advanced := state.AdvanceCursor(room, m.seqno);
      if advanced.Err? {
        AfterCrash(before, before);
        world.s := DoCrash(before);
        return Err(StateNotSaved);
      }
      var saved := world.path.Save(state);
      if world.path.saved == state.Value() {
        Advance(before, before, Persist);
        world.s := DoPersist(before);
      }
      if saved.Err? {
        AfterCrash(before, world.s);
        world.s := DoCrash(world.s);
        return Err(StateNotSaved);
      }
      r := Ok(());
    }

    method ClearEvidence() returns (r: Result<(), RunError>)
      requires send && At(Persisted) && world.path.saved == state.Value()
      modifies world, world.journal
      ensures Valid() && Reaches(old(world.s), world.s)
      ensures world.s.issued == old(world.s.issued)
      ensures r.Ok? ==> Ready() && world.path.saved == state.Value()
      ensures r.Err? ==> world.s.life.Down?
    {
      ghost var before := world.s;
      ReachesItself(before);
      var cleared := world.journal.Clear();
      if world.journal.stored.None? {
        Advance(before, before, ClearJournal);
        world.s := DoClearJournal(before);
      }
      if cleared.Err? {
        AfterCrash(before, world.s);
        world.s := DoCrash(world.s);
        return Err(UncertainWrite);
      }
      r := Ok(());
    }

    // Audit, then the cursor, then the journal, in that order.
    method PersistProcessedMessage(m: RoomMessage, decision: Decision, outcome: EventOutcome)
      returns (r: Result<(), RunError>)
      requires if send then Served(m, SequenceOf(outcome)) else At(Polling)
      requires m.seqno > state.CursorFor(room) && ByPolicy(m, decision) && Follows(send, decision, outcome)
      modifies world, world.path, world.journal, world.audit, state`cursors
      ensures Valid() && Reaches(old(world.s), world.s)
      ensures r.Ok? ==> Ready() && (send ==> world.path.saved == state.Value())
      ensures r.Ok? ==> state.cursors == old(state.cursors)[room := m.seqno]
      ensures world.s.issued == old(world.s.issued)
      ensures r.Err? && send ==> world.s.life.Down?
      ensures !send ==> world.s == old(world.s) && world.audit.lines == old(world.audit.lines)
    {
      ghost var before := world.s;
      ReachesItself(before);
      if !send {
        var advanced := state.AdvanceCursor(room, m.seqno);
        return if advanced.Ok? then Ok(()) else Err(StateNotSaved);
      }
      r := AppendAuditRecord(m, decision, outcome);
      if r.Err? {
        return;
      }
      ghost var audited := world.s;
      r := SaveCursor(m, IsAnswer(outcome));
      ReachesOn(before, audited, world.s);
      if r.Ok? && IsAnswer(outcome) {
        ghost var saved := world.s;
        r := ClearEvidence();
        ReachesOn(before, saved, world.s);
      }
    }

    // ---- One snapshot ----

    method HandleMessage(m: RoomMessage) returns (r: Result<Event, RunError>)
      requires Ready() && receipts.Valid() && m.seqno > state.CursorFor(room)
      requires send ==> m in RoomOf(world.server.rooms, room)
      modifies world, world.path, world.journal, world.audit, world.server, state, receipts
      ensures Valid() && receipts.Valid() && Reaches(old(world.s), world.s)
      ensures RoomsGrow(old(world.server.rooms), world.server.rooms)
      ensures r.Ok? ==> Ready() && (send ==> world.path.saved == state.Value())
      ensures r.Ok? ==> r.value.MessageHandled? && r.value.m == m && Sound(r.value)
      ensures r.Ok? ==> state.cursors == old(state.cursors)[room := m.seqno]
      ensures r.Ok? ==> state.generations == old(state.generations)
      ensures r.Ok? ==>
                Envelopes(world.s.issued)
                == Envelopes(old(world.s.issued)) + AnswerOf(r.value)
      ensures r.Err? && send ==> world.s.life.Down?
      ensures !send ==> world.s == old(world.s) && world.audit.lines == old(world.audit.lines)
    {
      ghost var before := world.s;
      r := EventForMessage(m);
      if r.Err? {
        return;
      }
      ghost var served := world.s;
      var persisted := PersistProcessedMessage(m, r.value.decision, r.value.outcome);
      ReachesOn(before, served, world.s);
      if persisted.Err? {
        r := Err(persisted.error);
      }
    }

    method SeeGeneration(generation: int) returns (r: Result<bool, RunError>)
      requires Ready()
      modifies world, state`generations
      ensures Valid() && Reaches(old(world.s), world.s)
      ensures r.Ok? ==>
                Ready() && generation >= 0 && state.generations == old(state.generations)[room := generation]
                && (room in old(state.generations) ==> old(state.generations)[room] <= generation)
                && (r.value <==> room in old(state.generations) && old(state.generations)[room] < generation)
      ensures r.Err? && send ==> world.s.life.Down?
      ensures world.s == old(world.s).(life := world.s.life)
      ensures !send ==> world.s == old(world.s)
    {
      ghost var before := world.s;
      ReachesItself(before);
      r := Ok(false);
      var observed := state.ObserveGeneration(room, generation);
      if observed.Err? {
        if send {
          AfterCrash(before, before);
          world.s := DoCrash(before);
        }
        return Err(GenerationFell);
      }
      if send {
        Advance(before, before, Step.SeeGeneration(generation));
        world.s := DoSeeGeneration(before, generation);
      }
      r := Ok(observed.value);
    }

    // The loop over the messages of a snapshot.
    method HandleMessages(snapshot: RoomSnapshot) returns (r: Result<(), RunError>, events: seq<Event>)
      requires Ready() && receipts.Valid() && WellFormed(snapshot)
      requires send ==> AllIn(snapshot.messages, RoomOf(world.server.rooms, room))
      modifies world, world.path, world.journal, world.audit, world.server, state, receipts
      ensures Valid() && receipts.Valid() && Reaches(old(world.s), world.s)
      ensures RoomsGrow(old(world.server.rooms), world.server.rooms)
      ensures r.Ok? ==> Ready() && state.generations == old(state.generations)
      ensures r.Ok? ==>
                Progress(snapshot.messages, old(state.CursorFor(room)), state.CursorFor(room), events,
                         old(world.s.issued), world.s.issued)
      ensures r.Ok? ==> HandledSaved(events, old(world.path.saved), old(state.Value()))
      ensures forall e :: e in events ==> Sound(e)
      ensures r.Err? && send ==> world.s.life.Down?
      ensures !send ==> world.s == old(world.s) && world.audit.lines == old(world.audit.lines)
    {
      events := [];
      ReachesItself(world.s);
      var messages := snapshot.messages;
      var cursor := state.CursorFor(room);
      ghost var from, issued, rooms := cursor, world.s.issued, world.server.rooms;
      assert Envelopes(issued) == Envelopes(issued) + [];
      for i := 0 to |messages|
        invariant Ready() && receipts.Valid() && Reaches(old(world.s), world.s)
        invariant RoomsGrow(rooms, world.server.rooms)
        invariant cursor == state.CursorFor(room) && state.generations == old(state.generations)
        invariant Progress(messages[..i], from, cursor, events, issued, world.s.issued)
        invariant HandledSaved(events, old(world.path.saved), old(state.Value()))
        invariant forall e :: e in events ==> Sound(e)
        invariant !send ==> world.s == old(world.s) && world.audit.lines == old(world.audit.lines)
      {
        var m := messages[i];
        if m.seqno <= cursor {
          ProgressSkips(messages, i, from, cursor, events, issued, world.s.issued);
          continue;
        }
        if send {
          StaysIn(messages, m, RoomOf(rooms, room), RoomOf(world.server.rooms, room));
        }
        ghost var before, beforeRooms := world.s, world.server.rooms;
        var event := HandleMessage(m);
        ReachesOn(old(world.s), before, world.s);
        RoomsGrowOn(rooms, beforeRooms, world.server.rooms);
        if event.Err? {
          return Err(event.error), events;
        }
        ProgressHandles(messages, i, from, cursor, events, issued, before.issued, event.value, world.s.issued);
        cursor := m.seqno;
        events := events + [event.value];
      }
      assert messages[..|messages|] == messages;
      r := Ok(());
    }

    // What the state file holds after some messages were handled.
    ghost predicate HandledSaved(events: seq<Event>, file: StateFile, mem: StateFile)
      reads this, world, world.path, state
    {
      if HandledMessages(events) != [] then send ==> world.path.saved == state.Value()
      else state.Value() == mem && (send ==> world.path.saved == file)
    }

    // A gap can leave no readable record although the tail moved.
    method SkipUnavailable(lastSeq: int) returns (r: Result<(), RunError>)
      requires Ready()
      modifies world, world.path, state`cursors
      ensures Valid() && Reaches(old(world.s), world.s)
      ensures world.s.issued == old(world.s.issued)
      ensures r.Ok? ==> Ready() && (send ==> world.path.saved == state.Value())
      ensures r.Ok? ==> state.CursorFor(room) == lastSeq >= old(state.CursorFor(room))
      ensures r.Err? && send ==> world.s.life.Down?
      ensures !send ==> world.s == old(world.s)
    {
      ghost var before := world.s;
      ReachesItself(before);
      AfterCrash(before, before);
      var advanced := state.AdvanceCursor(room, lastSeq);
      if advanced.Err? {
        if send {
          world.s := DoCrash(before);
        }
        return Err(StateNotSaved);
      }
      if !send {
        return Ok(());
      }
      var saved := world.path.Save(state);
      if world.path.saved == state.Value() {
        Advance(before, before, SkipTo(lastSeq));
        world.s := DoSkipTo(before, lastSeq);
      }
      if saved.Err? {
        AfterCrash(before, world.s);
        world.s := DoCrash(world.s);
        return Err(StateNotSaved);
      }
      r := Ok(());
    }

    method SaveGeneration() returns (r: Result<(), RunError>)
      requires Ready() && send
      modifies world, world.path
      ensures Valid() && Reaches(old(world.s), world.s)
      ensures world.s.issued == old(world.s.issued)
      ensures r.Ok? ==> Ready() && world.path.saved == state.Value()
      ensures r.Err? ==> world.s.life.Down?
    {
      ghost var before := world.s;
      ReachesItself(before);
      var saved := world.path.Save(state);
      if world.path.saved == state.Value() {
        Advance(before, before, Step.SaveGeneration);
        world.s := DoSaveGeneration(before);
      }
      if saved.Err? {
        AfterCrash(before, world.s);
        world.s := DoCrash(world.s);
        return Err(StateNotSaved);
      }
      r := Ok(());
    }

    // One event for each message above the cursor, in order, and for no
    // other; an envelope for exactly those that were answered; and the cursor
    // at the last of them, or at the end of the read if there was none. Any
    // failure ends the process with files some run of the machine leaves.
    method ProcessSnapshot(snapshot: RoomSnapshot) returns (r: Result<seq<Event>, RunError>)
      requires Ready() && receipts.Valid() && WellFormed(snapshot) && (send ==> world.path.saved == state.Value())
      requires send ==> AllIn(snapshot.messages, RoomOf(world.server.rooms, room))
      modifies world, world.path, world.journal, world.audit, world.server, state, receipts
      ensures Valid() && receipts.Valid() && Reaches(old(world.s), world.s)
      ensures RoomsGrow(old(world.server.rooms), world.server.rooms)
      ensures r.Ok? ==> snapshot.room == room && Ready() && (send ==> world.path.saved == state.Value())
      ensures r.Ok? ==> HandledMessages(r.value) == Above(snapshot.messages, old(state.CursorFor(room)))
      ensures r.Ok? ==> state.CursorFor(room) == CursorAfter(snapshot, old(state.CursorFor(room)))
      ensures r.Ok? ==> state.CursorFor(room) >= old(state.CursorFor(room))
      ensures r.Ok? ==>
                state.generations == old(state.generations)[room := snapshot.generation]
                && (room in old(state.generations) ==> old(state.generations)[room] <= snapshot.generation)
      ensures r.Ok? ==> Envelopes(world.s.issued) == Envelopes(old(world.s.issued)) + Postings(r.value)
      ensures r.Ok? ==> forall e :: e in r.value ==> Sound(e)
      ensures r.Err? && send ==> world.s.life.Down?
      ensures !send ==> world.s == old(world.s) && world.audit.lines == old(world.audit.lines)
    {
      ghost var before := world.s;
      ReachesItself(before);
      if snapshot.room != room {
        if send {
          Stop();
        }
        return Err(OtherRoom);
      }
      CursorCovers(snapshot, state.CursorFor(room));
      var begun := Begin(snapshot);
      if begun.Err? {
        return Err(begun.error);
      }
      ghost var seen := world.s;
      r := HandleAndClose(snapshot, begun.value.0, begun.value.1);
      ReachesOn(before, seen, world.s);
    }

    // Before the messages: the generation and the notices, and whether the
    // generation has yet to be saved.
    method Begin(snapshot: RoomSnapshot) returns (r: Result<(seq<Event>, bool), RunError>)
      requires Ready() && (send ==> world.path.saved == state.Value())
      modifies world, state`generations
      ensures Valid() && Reaches(old(world.s), world.s)
      ensures world.s == old(world.s).(life := world.s.life)
      ensures r.Ok? ==> Ready() && (send ==> world.path.saved == state.Value() || r.value.1)
      ensures r.Ok? ==>
                snapshot.generation >= 0 && state.generations == old(state.generations)[room := snapshot.generation]
                && (room in old(state.generations) ==> old(state.generations)[room] <= snapshot.generation)
      ensures r.Ok? ==> forall e :: e in r.value.0 ==> !e.MessageHandled?
      ensures r.Err? && send ==> world.s.life.Down?
      ensures !send ==> world.s == old(world.s)
    {
      var previous := if room in state.generations then Some(state.generations[room]) else None;
      var changed := SeeGeneration(snapshot.generation);
      if changed.Err? {
        return Err(changed.error);
      }
      r := Ok((Notices(snapshot, previous, changed.value), previous.None? || changed.value));
    }

    method HandleAndClose(snapshot: RoomSnapshot, notices: seq<Event>, needsPersist: bool)
      returns (r: Result<seq<Event>, RunError>)
      requires Ready() && receipts.Valid() && WellFormed(snapshot) && (send ==> world.path.saved == state.Value() || needsPersist)
      requires send ==> AllIn(snapshot.messages, RoomOf(world.server.rooms, room))
      requires forall e :: e in notices ==> !e.MessageHandled?
      modifies world, world.path, world.journal, world.audit, world.server, state, receipts
      ensures Valid() && receipts.Valid() && Reaches(old(world.s), world.s)
      ensures RoomsGrow(old(world.server.rooms), world.server.rooms)
      ensures r.Ok? ==> Ready() && (send ==> world.path.saved == state.Value())
      ensures r.Ok? ==> HandledMessages(r.value) == Above(snapshot.messages, old(state.CursorFor(room)))
      ensures r.Ok? ==> state.CursorFor(room) == CursorAfter(snapshot, old(state.CursorFor(room)))
      ensures r.Ok? ==> state.generations == old(state.generations)
      ensures r.Ok? ==> Envelopes(world.s.issued) == Envelopes(old(world.s.issued)) + Postings(r.value)
      ensures r.Ok? ==> forall e :: e in r.value ==> Sound(e)
      ensures r.Err? && send ==> world.s.life.Down?
      ensures !send ==> world.s == old(world.s) && world.audit.lines == old(world.audit.lines)
    {
      ghost var before := world.s;
      var handled, events := HandleMessages(snapshot);
      if handled.Err? {
        return Err(handled.error);
      }
      ghost var done := world.s;
      var closing := Close(snapshot.lastSeq, HandledMessages(events) != [], needsPersist);
      ReachesOn(before, done, world.s);
      if closing.Err? {
        return Err(closing.error);
      }
      Between(notices, events, closing.value);
      ClosedCursor(snapshot, old(state.CursorFor(room)), events, state.CursorFor(room));
      r := Ok(notices + events + closing.value);
    }

    // After the messages: skip what is unavailable, save what is not saved.
    method Close(lastSeq: int, handled: bool, needsPersist: bool) returns (r: Result<seq<Event>, RunError>)
      requires Ready() && (send ==> world.path.saved == state.Value() || (needsPersist && !handled))
      modifies world, world.path, state`cursors
      ensures Valid() && Reaches(old(world.s), world.s)
      ensures world.s.issued == old(world.s.issued)
      ensures r.Ok? ==> Ready() && (send ==> world.path.saved == state.Value())
      ensures r.Ok? ==>
                state.CursorFor(room)
                == if handled then old(state.CursorFor(room)) else Max(old(state.CursorFor(room)), lastSeq)
      ensures r.Ok? ==> forall e :: e in r.value ==> !e.MessageHandled?
      ensures r.Err? && send ==> world.s.life.Down?
      ensures !send ==> world.s == old(world.s)
    {
      var cursor := state.CursorFor(room);
      if !handled && lastSeq > cursor {
        var advanced := SkipUnavailable(lastSeq);
        return if advanced.Ok? then Ok([CursorAdvanced(cursor, lastSeq)]) else Err(advanced.error);
      }
      if send && needsPersist && !handled {
        var saved := SaveGeneration();
        return if saved.Ok? then Ok([]) else Err(saved.error);
      }
      ReachesItself(world.s);
      r := Ok([]);
    }

    // The events that come before any message: a new generation, a gap.
    function Notices(snapshot: RoomSnapshot, previous: Option<nat>, changed: bool): (notices: seq<Event>)
      requires changed ==> previous.Some?
      reads state
      ensures forall e :: e in notices ==> !e.MessageHandled?
    {
      (if changed then [GenerationChanged(previous.value, snapshot.generation)] else [])
      + (if snapshot.firstSeq > 0 && snapshot.firstSeq > state.CursorFor(room) + 1 then
           [RetentionGap(state.CursorFor(room), snapshot.firstSeq)] else [])
    }

    // ---- Starting and polling ----

    // The start-up gate of a sending process: the journal is empty and the
    // audit log is this identity's; then the saved state is what memory holds.
    method Start() returns (r: Result<(), RunError>)
      requires Valid() && world.s.life.Down?
      modifies world, state
      ensures Valid() && Reaches(old(world.s), world.s)
      ensures r.Ok? ==> Ready() && (send ==> world.path.saved == state.Value() && OwnLog(world.audit.hash, world.audit.lines, did))
      ensures world.s == old(world.s).(life := world.s.life)
      ensures r.Err? || !send ==> world.s == old(world.s)
    {
      ghost var before := world.s;
      ReachesItself(before);
      var file := world.path.saved;
      state.cursors, state.nonces, state.generations := file.cursors, file.nonces, file.generations;
      state.capabilityRequests := file.requests;
      if !send {
        return Ok(());
      }
      var empty := world.journal.RequireEmpty();
      if empty.Err? {
        return Err(JournalInUse);
      }
      var summary := Verify(world.audit.hash, world.audit.lines);
      if summary.Err? {
        return Err(AuditFailed(summary.error));
      }
      if summary.value.issuer.Some? && summary.value.issuer.value != did {
        return Err(AuditOfOtherIssuer);
      }
      Advance(before, before, StartLive(room, policy.mode.ByCapability?));
      world.s := DoStartLive(before, room, policy.mode.ByCapability?);
      r := Ok(());
    }

    // Start after the current tail, so that old messages are not answered.
    method BootstrapLatest(snapshot: RoomSnapshot) returns (r: Result<int, RunError>)
      requires Ready() && WellFormed(snapshot) && (send ==> world.path.saved == state.Value())
      modifies world, world.path, state
      ensures Valid() && Reaches(old(world.s), world.s)
      ensures world.s.issued == old(world.s.issued)
      ensures r.Ok? ==> Ready() && (send ==> world.path.saved == state.Value())
      ensures r.Ok? ==> r.value == state.CursorFor(room) == snapshot.lastSeq >= old(state.CursorFor(room))
      ensures r.Err? && send ==> world.s.life.Down?
      ensures !send ==> world.s == old(world.s)
    {
      ghost var before := world.s;
      var changed := SeeGeneration(snapshot.generation);
      if changed.Err? {
        return Err(changed.error);
      }
      ghost var seen := world.s;
      var advanced := SkipUnavailable(snapshot.lastSeq);
      ReachesOn(before, seen, world.s);
      r := if advanced.Ok? then Ok(snapshot.lastSeq) else Err(advanced.error);
    }

    // One read of the room: any well-formed part of it, no answer, or an
    // answer that is no snapshot. The cache buster keeps reads apart.
    method ReadRoom(cacheBuster: nat) returns (r: Result<RoomSnapshot, ReadError>)
      ensures r.Ok? ==>
                WellFormed(r.value)
                && (send ==> AllIn(r.value.messages, RoomOf(world.server.rooms, room)))
      ensures r.Err? && r.error.Unanswered? && r.error.retryAfter.Some? ==> r.error.retryAfter.value >= 0.0
    {
      var snapshot: RoomSnapshot, answered: bool, asked: bool, retryAfter: real := *, *, *, *;
      if !answered {
        return Err(Unanswered(if asked && retryAfter >= 0.0 then Some(retryAfter) else None));
      }
      if WellFormed(snapshot) && (send ==> AllIn(snapshot.messages, RoomOf(world.server.rooms, room))) {
        return Ok(snapshot);
      }
      r := Err(BadResponse);
    }

    // Polling for any number of rounds. A read without an answer is repeated
    // after the wait the server asked for, or else the back-off; anything else
    // that fails ends the process.
    method Poll(rounds: nat, once: bool) returns (r: Result<(), RunError>, history: seq<Round>)
      requires Ready() && receipts.Valid() && (send ==> world.path.saved == state.Value())
      modifies world, world.path, world.journal, world.audit, world.server, state, receipts
      ensures Valid() && receipts.Valid() && Reaches(old(world.s), world.s)
      ensures r.Ok? ==> Ready() && (send ==> world.path.saved == state.Value())
      ensures r.Ok? ==> state.CursorFor(room) >= old(state.CursorFor(room))
      ensures r.Ok? ==> |history| == (if once && rounds > 1 then 1 else rounds)
      ensures InTime(history)
      ensures r.Err? && send ==> world.s.life.Down?
      ensures !send ==> world.audit.lines == old(world.audit.lines) && world.s.disk == old(world.s.disk)
    {
      var cacheBuster, backoff := 1, 1.0;
      history := [];
      ReachesItself(world.s);
      while |history| < rounds
        invariant Ready() && receipts.Valid() && (send ==> world.path.saved == state.Value())
        invariant Reaches(old(world.s), world.s)
        invariant state.CursorFor(room) >= old(state.CursorFor(room))
        invariant !send ==> world.audit.lines == old(world.audit.lines) && world.s.disk == old(world.s.disk)
        invariant |history| <= rounds && (once ==> history == [])
        invariant InTime(history) && cacheBuster == |history| + 1 && backoff == Backoff(history)
        decreases rounds - |history|
      {
        ghost var before := world.s;
        var round := PollRound(history, cacheBuster, backoff, once);
        ReachesOn(old(world.s), before, world.s);
        if round.Err? {
          return Err(round.error), history;
        }
        RoundAdded(history, round.value);
        backoff := if round.value.failure.None? then 1.0 else if backoff * 2.0 < 30.0 then backoff * 2.0 else 30.0;
        history := history + [round.value];
        if once {
          return Ok(()), history;
        }
        cacheBuster := cacheBuster + 1;
      }
      r := Ok(());
    }

    // One round: a poll and, without an answer, the wait after it.
    method PollRound(ghost history: seq<Round>, cacheBuster: nat, backoff: real, once: bool)
      returns (r: Result<Round, RunError>)
      requires Ready() && receipts.Valid() && (send ==> world.path.saved == state.Value())
      requires cacheBuster == |history| + 1 && backoff == Backoff(history)
      modifies world, world.path, world.journal, world.audit, world.server, state, receipts
      ensures Valid() && receipts.Valid() && Reaches(old(world.s), world.s)
      ensures r.Ok? ==> Ready() && (send ==> world.path.saved == state.Value())
      ensures r.Ok? ==> state.CursorFor(room) >= old(state.CursorFor(room))
      ensures r.Ok? ==> RoundInTime(history, r.value) && (once ==> r.value.failure.None?)
      ensures r.Err? && send ==> world.s.life.Down?
      ensures !send ==> world.audit.lines == old(world.audit.lines) && world.s.disk == old(world.s.disk)
    {
      var polled := PollOnce(cacheBuster);
      if polled.Err? {
        return Err(polled.error);
      }
      if polled.value.Processed? {
        return Ok(Round(cacheBuster, None, []));
      }
      if once {
        Stop();
        return Err(NoAnswerFromServer);
      }
      var naps := Wait(Delay(polled.value, backoff));
      r := Ok(Round(cacheBuster, Some(polled.value), naps));
    }

    // Sleep through a delay in pieces of at most half a minute.
    method Wait(delay: real) returns (naps: seq<real>)
      ensures Total(naps) == (if delay > 0.0 then delay else 0.0)
      ensures forall nap :: nap in naps ==> 0.0 < nap <= 30.0
    {
      naps := [];
      var remaining := delay;
      while remaining > 0.0
        invariant remaining + Total(naps) == delay
        invariant if delay > 0.0 then remaining >= 0.0 else naps == []
        invariant forall nap :: nap in naps ==> 0.0 < nap <= 30.0
        decreases if remaining <= 0.0 then 0 else remaining.Floor / 30 + 1
      {
        var nap := if remaining < 30.0 then remaining else 30.0;
        assert (naps + [nap])[..|naps|] == naps;
        naps := naps + [nap];
        remaining := remaining - nap;
      }
    }

    // One read and its snapshot, if the server answers. A checkpoint behind
    // the cursor is refused.
    method PollOnce(cacheBuster: nat) returns (r: Result<ServerReply, RunError>)
      requires Ready() && receipts.Valid() && (send ==> world.path.saved == state.Value())
      modifies world, world.path, world.journal, world.audit, world.server, state, receipts
      ensures Valid() && receipts.Valid() && Reaches(old(world.s), world.s)
      ensures r.Ok? ==> Ready() && (send ==> world.path.saved == state.Value())
      ensures r.Ok? ==> state.CursorFor(room) >= old(state.CursorFor(room))
      ensures r.Err? && send ==> world.s.life.Down?
      ensures !send ==> world.audit.lines == old(world.audit.lines) && world.s.disk == old(world.s.disk)
    {
      ghost var before := world.s;
      world.Elapse();
      ghost var read := world.s;
      var requestedCursor := state.CursorFor(room);
      var snapshot := ReadRoom(cacheBuster);
      if snapshot.Err? && snapshot.error.Unanswered? {
        return Ok(NoReply(snapshot.error.retryAfter));
      }
      if snapshot.Err? || snapshot.value.lastSeq < requestedCursor {
        Stop();
        return Err(if snapshot.Err? then BadSnapshot else CheckpointBehind);
      }
      var events := ProcessSnapshot(snapshot.value);
      ReachesOn(before, read, world.s);
      r := if events.Err? then Err(events.error) else Ok(Processed);
    }

    // The process ends.
    ghost method Stop()
      requires Valid()
      modifies world
      ensures Valid() && world.s == DoCrash(old(world.s))
      ensures forall s :: Reaches(s, old(world.s)) ==> Reaches(s, world.s)
    {
      forall s | Reaches(s, world.s)
        ensures Reaches(s, DoCrash(world.s))
      {
        AfterCrash(s, world.s);
      }
      world.s := DoCrash(world.s);
    }
  }
}
