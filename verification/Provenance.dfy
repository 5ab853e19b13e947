// Where the identity's records in a room come from, over every run.
module Provenance {
  import opened Wrappers
  import opened Protocol
  import opened Delivery
  import opened Recovery
  import opened DeliveryProtocol
  import opened Safety

  // The record carries an envelope prepared for this room.
  predicate IsEnvelope(issued: seq<Issued>, name: string, m: RoomMessage) {
    exists i :: 0 <= i < |issued| && issued[i].room == name && issued[i].record.Matches(m)
  }

  // The room grew from `base`, and what the identity signed since is prepared
  // envelopes.
  predicate Accounted(own: string, name: string, base: Room, room: Room, issued: seq<Issued>) {
    && base <= room
    && forall k :: |base| <= k < |room| && AgentSigned(own, room[k]) ==> IsEnvelope(issued, name, room[k])
  }

  ghost predicate AllAccounted(base: map<string, Room>, s: Sys) {
    forall q {:trigger RoomOf(s.rooms, q)} ::
      Accounted(s.config.own, q, RoomOf(base, q), RoomOf(s.rooms, q), s.issued)
  }

  lemma MoreEnvelopes(own: string, name: string, base: Room, room: Room, issued: seq<Issued>, issued': seq<Issued>)
    requires Accounted(own, name, base, room, issued) && issued <= issued'
    ensures Accounted(own, name, base, room, issued')
  {
    forall k | |base| <= k < |room| && AgentSigned(own, room[k])
      ensures IsEnvelope(issued', name, room[k])
    {
      var i :| 0 <= i < |issued| && issued[i].room == name && issued[i].record.Matches(room[k]);
      assert issued'[i] == issued[i];
    }
  }

  lemma OneMoreRecord(own: string, name: string, base: Room, room: Room, issued: seq<Issued>, m: RoomMessage)
    requires Accounted(own, name, base, room, issued)
    requires AgentSigned(own, m) ==> IsEnvelope(issued, name, m)
    ensures Accounted(own, name, base, room + [m], issued)
  {
    assert forall k :: 0 <= k < |room| ==> (room + [m])[k] == room[k];
  }

  // All other steps add no record and keep the prepared envelopes.
  predicate NoRecordAdded(s: Sys, s': Sys) {
    s'.rooms == s.rooms && s'.config == s.config && s.issued <= s'.issued
  }

  lemma LiveAddsNoRecord(s: Sys, step: Step)
    requires Enabled(s, step) && IsLiveStep(step)
    ensures NoRecordAdded(s, Apply(s, step))
  {
  }

  lemma RecoveryAddsNoRecord(s: Sys, step: Step)
    requires Enabled(s, step) && IsRecoveryStep(step)
    ensures NoRecordAdded(s, Apply(s, step))
  {
  }

  lemma RecordAdded(base: map<string, Room>, s: Sys, s': Sys, name: string, m: RoomMessage)
    requires AllAccounted(base, s) && s' == s.(rooms := s'.rooms, wire := s'.wire)
    requires Grown(s.rooms, s'.rooms, name, m)
    requires AgentSigned(s.config.own, m) ==> IsEnvelope(s.issued, name, m)
    ensures AllAccounted(base, s')
  {
    forall q {:trigger RoomOf(s'.rooms, q)}
      ensures Accounted(s.config.own, q, RoomOf(base, q), RoomOf(s'.rooms, q), s.issued)
    {
      assert Accounted(s.config.own, q, RoomOf(base, q), RoomOf(s.rooms, q), s.issued);
      if q == name {
        OneMoreRecord(s.config.own, q, RoomOf(base, q), RoomOf(s.rooms, q), s.issued, m);
      }
    }
  }

  lemma LandedIsAccounted(base: map<string, Room>, s: Sys, envelope: Issued)
    requires WireOk(s) && AllAccounted(base, s) && CanLand(s, envelope)
    ensures AllAccounted(base, DoLand(s, envelope))
  {
    assert envelope in s.issued;
    RecordAdded(base, s, DoLand(s, envelope), envelope.room, LandedRecord(s.rooms, envelope));
  }

  lemma ChatterIsAccounted(
      base: map<string, Room>, s: Sys, room: string, sender: string, text: string, nonce: Option<string>)
    requires AllAccounted(base, s) && CanChatter(s, room, sender, text, nonce)
    ensures AllAccounted(base, DoChatter(s, room, sender, text, nonce))
  {
    RecordAdded(base, s, DoChatter(s, room, sender, text, nonce), room,
                RoomMessage(|RoomOf(s.rooms, room)| + 1, sender, text, nonce));
  }

  lemma StepKeepsAccount(base: map<string, Room>, s: Sys, step: Step)
    requires Inv(s) && AllAccounted(base, s) && Enabled(s, step)
    ensures AllAccounted(base, Apply(s, step))
  {
    if IsLiveStep(step) {
      LiveAddsNoRecord(s, step);
      SameRooms(base, s, Apply(s, step));
    } else if IsRecoveryStep(step) {
      RecoveryAddsNoRecord(s, step);
      SameRooms(base, s, Apply(s, step));
    } else {
      OutsideKeepsAccount(base, s, step);
    }
  }

  lemma OutsideKeepsAccount(base: map<string, Room>, s: Sys, step: Step)
    requires WireOk(s) && AllAccounted(base, s) && Enabled(s, step) && IsOutsideStep(step)
    ensures AllAccounted(base, Apply(s, step))
  {
    match step
    case Land(envelope) => LandedIsAccounted(base, s, envelope);
    case Chatter(room, sender, text, nonce) => ChatterIsAccounted(base, s, room, sender, text, nonce);
    case Crash => SameRooms(base, s, DoCrash(s));
    case Lose(envelope) => SameRooms(base, s, DoLose(s, envelope));
  }

  lemma SameRooms(base: map<string, Room>, s: Sys, s': Sys)
    requires AllAccounted(base, s) && NoRecordAdded(s, s')
    ensures AllAccounted(base, s')
  {
    forall q {:trigger RoomOf(s'.rooms, q)}
      ensures Accounted(s'.config.own, q, RoomOf(base, q), RoomOf(s'.rooms, q), s'.issued)
    {
      assert Accounted(s.config.own, q, RoomOf(base, q), RoomOf(s.rooms, q), s.issued);
      MoreEnvelopes(s.config.own, q, RoomOf(base, q), RoomOf(s.rooms, q), s.issued, s'.issued);
    }
  }

  lemma {:induction false} RunKeepsAccount(base: map<string, Room>, s: Sys, steps: seq<Step>, t: Sys)
    requires Inv(s) && AllAccounted(base, s) && Runs(s, steps, t)
    ensures AllAccounted(base, t)
    decreases steps
  {
    if steps != [] {
      StepKeeps(s, steps[0]);
      StepKeepsAccount(base, s, steps[0]);
      RunKeepsAccount(base, Apply(s, steps[0]), steps[1..], t);
    }
  }

  lemma RunIsAccounted(s0: Sys, s: Sys)
    requires Init(s0) && Reaches(s0, s)
    ensures AllAccounted(s0.rooms, s)
  {
    var steps :| Runs(s0, steps, s);
    InitHolds(s0);
    RunKeepsAccount(s0.rooms, s0, steps, s);
  }

  // Every record of the identity in a room was there at the start of the run
  // or is the answer to an input.
  lemma EveryRecordIsAccounted(s0: Sys, s: Sys, name: string, k: nat)
    requires Init(s0) && Reaches(s0, s)
    requires k < |RoomOf(s.rooms, name)| && AgentSigned(s.config.own, RoomOf(s.rooms, name)[k])
    ensures RoomOf(s0.rooms, name) <= RoomOf(s.rooms, name)
    ensures k < |RoomOf(s0.rooms, name)| || exists input :: Replies(s, name, k, input)
  {
    RunIsAccounted(s0, s);
    assert Accounted(s.config.own, name, RoomOf(s0.rooms, name), RoomOf(s.rooms, name), s.issued);
    if k >= |RoomOf(s0.rooms, name)| {
      var i :| 0 <= i < |s.issued| && s.issued[i].room == name && s.issued[i].record.Matches(RoomOf(s.rooms, name)[k]);
      assert Replies(s, name, k, s.issued[i].record.inputSequence);
    }
  }

  // So any two records the identity signed in a room since the start answer
  // inputs, and no input twice.
  lemma RecordsAnswerDifferentInputs(s0: Sys, s: Sys, name: string, j: nat, k: nat)
    requires Init(s0) && Reaches(s0, s) && |RoomOf(s0.rooms, name)| <= j < k < |RoomOf(s.rooms, name)|
    requires AgentSigned(s.config.own, RoomOf(s.rooms, name)[j]) && AgentSigned(s.config.own, RoomOf(s.rooms, name)[k])
    ensures exists a, b :: a != b && Replies(s, name, j, a) && Replies(s, name, k, b)
  {
    EveryRecordIsAccounted(s0, s, name, j);
    EveryRecordIsAccounted(s0, s, name, k);
    var a :| Replies(s, name, j, a);
    var b :| Replies(s, name, k, b);
    assert Reachable(s);
    if a == b {
      AtMostOneReply(s, name, j, k, a);
    }
  }
}
