// What outlives a process: the files, the server, and beside them the state of
// the protocol machine, which every operation advances by steps of its own.
module Deployment {
  import opened Wrappers
  import opened DidKey
  import opened Protocol
  import opened Capabilities
  import opened Audit
  import opened Delivery
  import opened Recovery
  import opened DeliveryProtocol
  import opened Safety

  // ---- Runs, step by step ----

  lemma ReachesItself(s: Sys)
    ensures Reaches(s, s)
  {
    assert Runs(s, [], s);
  }

  lemma {:induction false} RunsThenStep(s: Sys, steps: seq<Step>, t: Sys, step: Step)
    requires Runs(s, steps, t) && Enabled(t, step)
    ensures Runs(s, steps + [step], Apply(t, step))
    decreases steps
  {
    if steps == [] {
      assert Runs(Apply(s, step), [], Apply(s, step));
    } else {
      RunsThenStep(Apply(s, steps[0]), steps[1..], t, step);
      assert (steps + [step])[1..] == steps[1..] + [step];
    }
  }

  lemma Advance(s: Sys, t: Sys, step: Step)
    requires Reaches(s, t) && Enabled(t, step)
    ensures Reaches(s, Apply(t, step))
  {
    var steps :| Runs(s, steps, t);
    RunsThenStep(s, steps, t, step);
  }

  lemma {:induction false} RunsJoin(s: Sys, steps: seq<Step>, t: Sys, more: seq<Step>, u: Sys)
    requires Runs(s, steps, t) && Runs(t, more, u)
    ensures Runs(s, steps + more, u)
    decreases steps
  {
    if steps == [] {
      assert steps + more == more;
    } else {
      RunsJoin(Apply(s, steps[0]), steps[1..], t, more, u);
      assert (steps + more)[1..] == steps[1..] + more;
    }
  }

  lemma ReachesOn(s: Sys, t: Sys, u: Sys)
    requires Reaches(s, t) && Reaches(t, u)
    ensures Reaches(s, u)
  {
    var steps :| Runs(s, steps, t);
    var more :| Runs(t, more, u);
    RunsJoin(s, steps, t, more, u);
  }

  // Whatever an operation reaches from a reachable state is reachable, so all
  // that is proved of reachable states holds after it.
  lemma StaysReachable(s: Sys, t: Sys)
    requires Reachable(s) && Reaches(s, t)
    ensures Reachable(t)
  {
    var s0 :| Init(s0) && Reaches(s0, s);
    ReachesOn(s0, s, t);
  }

  lemma AfterCrash(s: Sys, t: Sys)
    requires Reaches(s, t)
    ensures Reaches(s, DoCrash(t))
  {
    Advance(s, t, Crash);
  }

  // ---- The server and the network ----

  ghost predicate RoomsGrow(rooms: map<string, Room>, rooms': map<string, Room>) {
    forall q {:trigger RoomOf(rooms', q)} :: RoomOf(rooms, q) <= RoomOf(rooms', q)
  }

  lemma RoomsGrowOn(a: map<string, Room>, b: map<string, Room>, c: map<string, Room>)
    requires RoomsGrow(a, b) && RoomsGrow(b, c)
    ensures RoomsGrow(a, c)
  {
    forall q
      ensures RoomOf(a, q) <= RoomOf(c, q)
    {
      assert RoomOf(a, q) <= RoomOf(b, q) <= RoomOf(c, q);
    }
  }

  class Server {
    const kind: ServerKind
    // The identity nobody else can sign for.
    const own: string
    var rooms: map<string, Room>
    var wire: multiset<Issued>

    constructor (kind: ServerKind, own: string, rooms: map<string, Room>)
      ensures this.kind == kind && this.own == own && this.rooms == rooms && wire == multiset{}
    {
      this.kind, this.own, this.rooms, this.wire := kind, own, rooms, multiset{};
    }

    // A request goes out.
    method Send(envelope: Issued)
      modifies this
      ensures wire == old(wire) + multiset{envelope} && rooms == old(rooms)
    {
      wire := wire + multiset{envelope};
    }

    // Requests land or are lost, and other users post, any number of times.
    method Elapse(ghost s: Sys)
      requires s.rooms == rooms && s.wire == wire && s.config.server == kind && s.config.own == own
      modifies this
      ensures Reaches(s, s.(rooms := rooms, wire := wire))
      ensures RoomsGrow(old(rooms), rooms)
    {
      ReachesItself(s);
      var happenings: int := *;
      while happenings > 0
        invariant Reaches(s, s.(rooms := rooms, wire := wire))
        invariant RoomsGrow(old(rooms), rooms)
      {
        Happen(s);
        happenings := happenings - 1;
      }
    }

    // At most one of those.
    method Happen(ghost s: Sys)
      requires s.config.server == kind && s.config.own == own
      requires Reaches(s, s.(rooms := rooms, wire := wire))
      modifies this
      ensures Reaches(s, s.(rooms := rooms, wire := wire))
      ensures RoomsGrow(old(rooms), rooms)
    {
      var envelope: Issued, lost: bool, posted: bool := *, *, *;
      if posted {
        PostByOther(s);
      } else if envelope in wire {
        if lost {
          LoseOne(s, envelope);
        } else if kind.DeliversPromptly? || !NonceTaken(RoomOf(rooms, envelope.room), envelope.record) {
          LandOne(s, envelope);
        }
      }
    }

    method LoseOne(ghost s: Sys, envelope: Issued)
      requires Reaches(s, s.(rooms := rooms, wire := wire)) && envelope in wire
      modifies this`wire
      ensures Reaches(s, s.(rooms := rooms, wire := wire))
    {
      ghost var t := s.(rooms := rooms, wire := wire);
      Advance(s, t, Lose(envelope));
      wire := wire - multiset{envelope};
      assert s.(rooms := rooms, wire := wire) == DoLose(t, envelope);
    }

    method LandOne(ghost s: Sys, envelope: Issued)
      requires s.config.server == kind && envelope in wire
      requires kind.DeliversPromptly? || !NonceTaken(RoomOf(rooms, envelope.room), envelope.record)
      requires Reaches(s, s.(rooms := rooms, wire := wire))
      modifies this
      ensures Reaches(s, s.(rooms := rooms, wire := wire))
      ensures RoomsGrow(old(rooms), rooms)
    {
      ghost var t := s.(rooms := rooms, wire := wire);
      Advance(s, t, Land(envelope));
      rooms := Landed(rooms, envelope);
      wire := if kind.RefusesReplay? then wire else wire - multiset{envelope};
      assert s.(rooms := rooms, wire := wire) == DoLand(t, envelope);
    }

    method PostByOther(ghost s: Sys)
      requires s.config.own == own
      requires Reaches(s, s.(rooms := rooms, wire := wire))
      modifies this`rooms
      ensures Reaches(s, s.(rooms := rooms, wire := wire))
      ensures RoomsGrow(old(rooms), rooms)
    {
      ghost var t := s.(rooms := rooms, wire := wire);
      var room: string, sender: string, text: string, nonce: Option<string> := *, *, *, *;
      if !(sender == own && nonce.Some?) {
        Advance(s, t, Chatter(room, sender, text, nonce));
        rooms := Appended(rooms, room, sender, text, nonce);
        assert s.(rooms := rooms, wire := wire) == DoChatter(t, room, sender, text, nonce);
      }
    }
  }

  // ---- The deployment ----

  predicate NotesAre(notes: seq<AuditNote>, lines: Log) {
    |notes| == |lines| && forall k :: 0 <= k < |notes| ==> notes[k].fields == lines[k].payload.fields
  }

  function Stored(journal: Option<DeliveryRecord>): Option<Payload> {
    if journal.None? then None else Some(ToPayload(journal.value))
  }

  class World {
    const path: StatePath
    const journal: DeliveryJournal
    const audit: SignedAuditLog
    const server: Server
    // The state of the protocol machine.
    ghost var s: Sys

    // The files and the server are those of the machine.
    ghost predicate Linked()
      reads this, path, journal, audit, server
    {
      && s.config.server == server.kind && s.config.own == server.own
      && s.disk.file == path.saved
      && journal.stored == Stored(s.disk.journal)
      && (s.disk.journal.Some? ==> WellFormedRecord(s.disk.journal.value))
      && NotesAre(s.disk.audit, audit.lines)
      && s.rooms == server.rooms && s.wire == server.wire
    }

    constructor (path: StatePath, journal: DeliveryJournal, audit: SignedAuditLog, server: Server, ghost s: Sys)
      ensures this.path == path && this.journal == journal && this.audit == audit && this.server == server
      ensures this.s == s
    {
      this.path, this.journal, this.audit, this.server := path, journal, audit, server;
      this.s := s;
    }

    // The record the journal holds.
    method LoadJournal() returns (r: Option<DeliveryRecord>)
      requires Linked()
      ensures r == s.disk.journal
    {
      if s.disk.journal.Some? {
        RecordRoundTrip(s.disk.journal.value);
      }
      var loaded := journal.Load();
      r := if loaded.Ok? then loaded.value else None;
    }

    // The journal write of an acknowledgement, for the record it holds.
    method AcknowledgeJournal(record: DeliveryRecord, reply: int) returns (r: Result<DeliveryRecord, DeliveryError>)
      requires journal.stored == Stored(Some(record)) && WellFormedRecord(record)
      modifies journal
      ensures r.Ok? ==> r == record.Acknowledge(reply) && journal.stored == Stored(Some(r.value))
      ensures record.Acknowledge(reply).Ok? ==> WellFormedRecord(record.Acknowledge(reply).value)
      ensures r.Err? ==>
                || journal.stored == old(journal.stored)
                || (record.Acknowledge(reply).Ok? && journal.stored == Stored(Some(record.Acknowledge(reply).value)))
    {
      RecordRoundTrip(record);
      r := journal.Acknowledge(reply);
    }

    // One line for the audit log; the notes are the machine's with it. Valid
    // fields are refused by no check, so only the write can fail.
    method AppendLine(did: string, observedAt: int, note: AuditNote)
      returns (r: Result<(), AuditError>, ghost written: bool)
      requires KeyFromDid(did).Ok? && forall w :: IsSha256(audit.hash(w))
      requires NotesAre(s.disk.audit, audit.lines) && OwnLog(audit.hash, audit.lines, did) && ValidateFields(note.fields).Ok?
      modifies audit
      ensures OwnLog(audit.hash, audit.lines, did)
      ensures r.Ok? ==> written
      ensures r.Err? ==> r.error.AppendFailed?
      ensures NotesAre(if written then s.disk.audit + [note] else s.disk.audit, audit.lines)
    {
      ghost var lines := audit.lines;
      var appended := audit.Append(did, did, observedAt, note.fields);
      written := audit.lines != lines;
      r := if appended.Ok? then Ok(()) else Err(appended.error);
    }

    // Time passes outside the process.
    method Elapse()
      requires Linked()
      modifies this, server
      ensures Linked() && Reaches(old(s), s)
      ensures s == old(s).(rooms := server.rooms, wire := server.wire)
      ensures RoomsGrow(old(server.rooms), server.rooms)
    {
      server.Elapse(s);
      s := s.(rooms := server.rooms, wire := server.wire);
    }
  }
}
