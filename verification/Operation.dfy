// The whole deployment at work: one process after another, live or recovering,
// each started on what the last one left on disk.
module Operation {
  import opened Wrappers
  import opened DidKey
  import opened Messages
  import opened PullRequest
  import opened State
  import Quota
  import opened Capabilities
  import opened Policy
  import opened Audit
  import opened Receipt
  import opened Delivery
  import opened DeliveryProtocol
  import opened Safety
  import opened Deployment
  import opened Responder
  import opened RecoveryCommand

  // What stays the same over the processes: the identity, the URL splitter,
  // the JSON text of a receipt.
  datatype Setup = Setup(own: string, split: string -> UrlParts, render: SignedReceipt -> string)

  // A live process from its start to its end, whatever ends it.
  method RunLive(world: World, setup: Setup, room: string, mode: SenderMode, rounds: nat, once: bool)
    requires world.Linked() && world.s.life.Down? && IsRoom(room)
    requires world.s.config.own == setup.own && KeyFromDid(setup.own).Ok?
    requires forall w :: IsSha256(world.audit.hash(w))
    modifies world, world.path, world.journal, world.audit, world.server
    ensures world.Linked() && world.s.life.Down? && Reaches(old(world.s), world.s)
  {
    ghost var before := world.s;
    var state := new AgentState(world.path.saved);
    var limiter := new CapabilityRateLimiter(state, world.path, true);
    var policy := new CommandPolicy(setup.own, mode, setup.split, limiter);
    var receipts := new ContributionReceiptService(setup.own, setup.own, 60.0, setup.render);
    var responder := new SafeResponder(room, true, policy, receipts, world);
    var started := responder.Start();
    if started.Ok? {
      ghost var ready := world.s;
      var polled, history := responder.Poll(rounds, once);
      ReachesOn(before, ready, world.s);
    }
    ghost var ended := world.s;
    AfterCrash(before, ended);
    responder.Stop();
  }

  // One recovery command on what the last process left.
  method RunRecovery(world: World, setup: Setup, room: string, apply: bool, confirmRetry: bool)
    requires world.Linked() && world.s.life.Down? && Reachable(world.s)
    requires world.server.kind.DeliversPromptly? ==> world.server.wire == multiset{}
    modifies world, world.path, world.journal, world.server
    ensures world.Linked() && world.s.life.Down? && Reaches(old(world.s), world.s)
  {
    var state := new AgentState(world.path.saved);
    var report := RecoverDelivery(room, setup.own, world, state, apply, confirmRetry);
  }

  // A deployment from its first day, through any number of processes: rooms,
  // sender modes, flags and everything outside are arbitrary each time.
  // However it went, no room holds two replies to one input.
  method Operate(file: StateFile, setup: Setup, kind: ServerKind, hash: EntryHash, processes: nat)
    returns (world: World)
    requires KeyFromDid(setup.own).Ok? && Quota.Ordered(file.requests) && forall w :: IsSha256(hash(w))
    ensures fresh(world) && world.Linked() && Reachable(world.s)
    ensures forall name, j, k, input :: Replies(world.s, name, j, input) && Replies(world.s, name, k, input) ==> j == k
  {
    var path := new StatePath(file);
    var journal := new DeliveryJournal(None);
    var audit := new SignedAuditLog(hash, []);
    var server := new Server(kind, setup.own, map[]);
    FreshDeployment(Config(setup.own, kind), file);
    world := new World(path, journal, audit, server, FreshSys(Config(setup.own, kind), file));
    for process := 0 to processes
      invariant fresh(world) && fresh(world.path) && fresh(world.journal) && fresh(world.audit) && fresh(world.server)
      invariant world.Linked() && world.s.life.Down? && Reachable(world.s)
      invariant world.s.config.own == setup.own && world.audit.hash == hash
    {
      ghost var before := world.s;
      var recovering: bool, room: string, mode: SenderMode, once: bool, rounds: int := *, *, *, *, *;
      var apply: bool, confirmRetry: bool := *, *;
      world.Elapse();
      ghost var elapsed := world.s;
      if recovering {
        if kind.RefusesReplay? || world.server.wire == multiset{} {
          StaysReachable(before, elapsed);
          RunRecovery(world, setup, room, apply, confirmRetry);
          ReachesOn(before, elapsed, world.s);
        }
      } else if IsRoom(room) && rounds >= 0 {
        RunLive(world, setup, room, mode, rounds, once);
        ReachesOn(before, elapsed, world.s);
      }
      StaysReachable(before, world.s);
      SameConfig(before, world.s);
    }
    forall name, j: nat, k: nat, input | Replies(world.s, name, j, input) && Replies(world.s, name, k, input)
      ensures j == k
    {
      AtMostOneReply(world.s, name, j, k, input);
    }
  }

  lemma SameConfig(s: Sys, t: Sys)
    requires Reaches(s, t)
    ensures t.config == s.config
  {
    var steps :| Runs(s, steps, t);
    RunKeepsConfig(s, steps, t);
  }

  lemma {:induction false} RunKeepsConfig(s: Sys, steps: seq<Step>, t: Sys)
    requires Runs(s, steps, t)
    ensures t.config == s.config
    decreases steps
  {
    if steps != [] {
      RunKeepsConfig(Apply(s, steps[0]), steps[1..], t);
    }
  }
}
