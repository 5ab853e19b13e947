// The command policy: which room messages are answered, and at whose expense.
module Policy {
  import opened Wrappers
  import opened Messages
  import opened Protocol
  import opened State
  import opened Quota
  import opened PullRequest
  import opened Capabilities

  datatype Action = Ignore | Reply | Receipt

  datatype Decision = Decision(action: Action, reason: string, reply: Option<string>, target: Option<PullRequestRef>)

  function Ignored(reason: string): Decision {
    Decision(Ignore, reason, None, None)
  }

  // Which signed senders are heard: the legacy flags or the capability file.
  datatype SenderMode = Legacy(allowedDids: set<string>, allowAnySigned: bool) | ByCapability

  type Grants = map<string, CapabilityGrant>

  // A decision that stands, or one that stands if the limiter grants capacity.
  datatype Verdict = Final(decision: Decision) | Metered(decision: Decision, limit: nat)

  function ReplyTo(command: string): Option<string> {
    if command == "/ping" then Some("pong")
    else if command == "/help" then
      Some("Commands: /ping, /status, /about, /help, /pr <public GitHub PR URL>")
    else if command == "/status" then
      Some("Technocore Safe Agent is online. It reads public GitHub PR metadata "
           + "only and executes no room-supplied tools.")
    else if command == "/about" then
      Some("Keychain-backed Technocore responder. Signed commands only; "
           + "fixed GitHub PR reads only; no shell, file, general URL, "
           + "or arbitrary prompt execution.")
    else None
  }

  function CommandName(text: string): Option<string> {
    if ReplyTo(text).Some? then Some(text)
    else if text == "/pr" || "/pr " <= text then Some("/pr")
    else None
  }

  // The pull request a /pr text names, split by the URL splitter.
  function RequestedPull(text: string, split: string -> UrlParts): Option<PullRequestRef> {
    var url := if "/pr " <= text then text[|"/pr "|..] else text;
    if Strip(url) != url then None
    else
      match ParsePullRequest(split(url))
      case Ok(ref) => Some(ref)
      case Err(_) => None
  }

  function ParsedCommand(name: string, text: string, split: string -> UrlParts): Decision {
    match ReplyTo(name)
    case Some(reply) => Decision(Reply, "allowed_command", Some(reply), None)
    case None =>
      match RequestedPull(text, split)
      case None => Ignored("invalid_pull_request_url")
      case Some(ref) => Decision(Receipt, "allowed_public_pull_request", None, Some(ref))
  }

  function AuthorizedSender(own: string, mode: SenderMode, grants: Grants, m: RoomMessage)
    : Result<Option<CapabilityGrant>, Decision>
  {
    if m.sender == own then Err(Ignored("own_message"))
    else if !m.IsSigned() then Err(Ignored("unsigned_sender"))
    else
      match mode
      case Legacy(allowedDids, allowAnySigned) =>
        if !allowAnySigned && m.sender !in allowedDids then Err(Ignored("sender_not_allowlisted")) else Ok(None)
      case ByCapability =>
        if m.sender !in grants then Err(Ignored("principal_not_granted"))
        else if !grants[m.sender].enabled then Err(Ignored("principal_revoked"))
        else Ok(Some(grants[m.sender]))
  }

  function Judged(own: string, mode: SenderMode, grants: Grants, split: string -> UrlParts, m: RoomMessage): Verdict {
    match AuthorizedSender(own, mode, grants, m)
    case Err(denial) => Final(denial)
    case Ok(grant) =>
      match CommandName(m.text)
      case None => Final(Ignored("unsupported_command"))
      case Some(name) =>
        if grant.Some? && name !in grant.value.commands then Final(Ignored("command_not_granted"))
        else
          var decision := ParsedCommand(name, m.text, split);
          if decision.action.Ignore? then Final(decision)
          else if grant.Some? && decision.target.Some?
                  && !grant.value.AllowsRepository(decision.target.value.FullName()) then
            Final(Ignored("repository_not_granted"))
          else if grant.Some? then Metered(decision, grant.value.maxRequestsPerHour)
          else Final(decision)
  }

  // The decision once capacity is known.
  function Resolved(verdict: Verdict, allowed: bool): Decision {
    match verdict
    case Final(decision) => decision
    case Metered(decision, _) => if allowed then decision else Ignored("rate_limited")
  }

  class CommandPolicy {
    const ownDid: string
    const mode: SenderMode
    const split: string -> UrlParts
    const limiter: CapabilityRateLimiter

    constructor (ownDid: string, mode: SenderMode, split: string -> UrlParts, limiter: CapabilityRateLimiter)
      ensures this.ownDid == ownDid && this.mode == mode && this.split == split && this.limiter == limiter
    {
      this.ownDid, this.mode, this.split, this.limiter := ownDid, mode, split, limiter;
    }

    // `file` is the capability file as read for this decision.
    method Decide(m: RoomMessage, file: Result<Grants, CapabilityError>, clock: Reading)
      returns (r: Result<Decision, CapabilityError>)
      modifies limiter.state, limiter.path
      ensures r.Ok? ==> mode.Legacy? || m.sender == ownDid || !m.IsSigned() || file.Ok?
      ensures r.Ok? ==>
                match Judged(ownDid, mode, if file.Ok? then file.value else map[], split, m)
                case Final(decision) =>
                  r.value == decision && limiter.state.Value() == old(limiter.state.Value())
                  && limiter.path.saved == old(limiter.path.saved)
                case Metered(decision, limit) =>
                  clock.Finite? && clock.seconds >= 0.0
                  && var a := Attempt(m.sender, clock.seconds.Floor, limit);
                     if !Allowed(old(limiter.state.capabilityRequests), a) then
                       r.value == Ignored("rate_limited") && limiter.state.Value() == old(limiter.state.Value())
                       && limiter.path.saved == old(limiter.path.saved)
                     else if !limiter.consume then
                       r.value == decision && limiter.state.Value() == old(limiter.state.Value())
                       && limiter.path.saved == old(limiter.path.saved)
                     else
                       r.value == decision
                       && limiter.state.Value() == old(limiter.state.Value()).(
                         requests := Reserved(old(limiter.state.capabilityRequests), a.did, a.now, WINDOW))
                       && limiter.path.saved == limiter.state.Value()
      ensures r.Ok? ==>
                var verdict := Judged(ownDid, mode, if file.Ok? then file.value else map[], split, m);
                r.value == Resolved(verdict, clock.Finite? && clock.seconds >= 0.0 && verdict.Metered?
                                             && Allowed(old(limiter.state.capabilityRequests),
                                                        Attempt(m.sender, clock.seconds.Floor, verdict.limit)))
      ensures !limiter.consume ==>
                limiter.state.Value() == old(limiter.state.Value()) && limiter.path.saved == old(limiter.path.saved)
      ensures r.Err? ==>
                || limiter.path.saved == old(limiter.path.saved)
                || (file.Ok? && mode.ByCapability?
                    && var verdict := Judged(ownDid, mode, file.value, split, m);
                       verdict.Metered? && clock.Finite? && clock.seconds >= 0.0
                       && var a := Attempt(m.sender, clock.seconds.Floor, verdict.limit);
                          Allowed(old(limiter.state.capabilityRequests), a)
                          && limiter.path.saved == old(limiter.state.Value()).(
                            requests := Reserved(old(limiter.state.capabilityRequests), a.did, a.now, WINDOW)))
    {
      if m.sender != ownDid && m.IsSigned() && mode.ByCapability? && file.Err? {
        return Err(file.error);
      }
      var grants: Grants := if file.Ok? then file.value else map[];
      var authorized := AuthorizedSender(ownDid, mode, grants, m);
      if authorized.Err? {
        return Ok(authorized.error);
      }
      var grant := authorized.value;
      var name := CommandName(m.text);
      if name.None? {
        return Ok(Ignored("unsupported_command"));
      }
      if grant.Some? && name.value !in grant.value.commands {
        return Ok(Ignored("command_not_granted"));
      }
      var decision := ParsedCommand(name.value, m.text, split);
      if decision.action.Ignore? {
        return Ok(decision);
      }
      if grant.Some? && decision.target.Some? && !grant.value.AllowsRepository(decision.target.value.FullName()) {
        return Ok(Ignored("repository_not_granted"));
      }
      if grant.Some? {
        var allowed := limiter.Allow(m.sender, grant.value.maxRequestsPerHour, clock);
        if allowed.Err? {
          return Err(allowed.error);
        }
        if !allowed.value {
          return Ok(Ignored("rate_limited"));
        }
      }
      r := Ok(decision);
    }
  }

  // ---- Properties of the verdict ----

  // Under the capability file, work is authorized exactly for a signed third
  // party with an enabled grant for the command and, for /pr, a canonical pull
  // request inside its repository scopes.
  predicate Entitled(own: string, grants: Grants, split: string -> UrlParts, m: RoomMessage) {
    && m.sender != own && m.IsSigned()
    && m.sender in grants && grants[m.sender].enabled
    && var grant := grants[m.sender];
       || (ReplyTo(m.text).Some? && m.text in grant.commands)
       || ((m.text == "/pr" || "/pr " <= m.text) && "/pr" in grant.commands
           && RequestedPull(m.text, split).Some?
           && grant.AllowsRepository(RequestedPull(m.text, split).value.FullName()))
  }

  // Capacity is asked for exactly when work is authorized, and never for a
  // message that is ignored.
  lemma MeteredExactlyWhenEntitled(own: string, grants: Grants, split: string -> UrlParts, m: RoomMessage)
    ensures Judged(own, ByCapability, grants, split, m).Metered? <==> Entitled(own, grants, split, m)
    ensures var verdict := Judged(own, ByCapability, grants, split, m);
            verdict.Metered? <==> !verdict.decision.action.Ignore?
  {
    if "/pr " <= m.text || m.text == "/pr" {
      assert m.text[..3] == "/pr";
      assert ReplyTo(m.text).None? by {
        assert m.text[1] == 'p' && m.text[2] == 'r';
      }
    }
    assert ReplyTo("/pr").None?;
  }

  // A signed third party the capability file knows and has not revoked.
  predicate Granted(own: string, grants: Grants, m: RoomMessage) {
    m.sender != own && m.IsSigned() && m.sender in grants && grants[m.sender].enabled
  }

  // Why a request is ignored: each reason stands for one row of the documented
  // table, so no two causes share one and none is reported for another.
  lemma ReasonsTellCauses(own: string, grants: Grants, split: string -> UrlParts, m: RoomMessage, allowed: bool)
    ensures var reason := Resolved(Judged(own, ByCapability, grants, split, m), allowed).reason;
            var asked, name := Granted(own, grants, m), CommandName(m.text);
            && (reason == "own_message" <==> m.sender == own)
            && (reason == "unsigned_sender" <==> m.sender != own && !m.IsSigned())
            && (reason == "principal_not_granted" <==> m.sender != own && m.IsSigned() && m.sender !in grants)
            && (reason == "principal_revoked" <==>
                  m.sender != own && m.IsSigned() && m.sender in grants && !grants[m.sender].enabled)
            && (reason == "unsupported_command" <==> asked && name.None?)
            && (reason == "command_not_granted" <==>
                  asked && name.Some? && name.value !in grants[m.sender].commands)
            && (reason == "invalid_pull_request_url" <==>
                  asked && name == Some("/pr") && "/pr" in grants[m.sender].commands
                  && RequestedPull(m.text, split).None?)
            && (reason == "repository_not_granted" <==>
                  asked && name == Some("/pr") && "/pr" in grants[m.sender].commands
                  && RequestedPull(m.text, split).Some?
                  && !grants[m.sender].AllowsRepository(RequestedPull(m.text, split).value.FullName()))
            && (reason == "rate_limited" <==> Entitled(own, grants, split, m) && !allowed)
  {
    assert ReplyTo("/pr").None?;
    assert ReplyTo(m.text).None? && CommandName(m.text).Some? ==> CommandName(m.text) == Some("/pr");
    MeteredExactlyWhenEntitled(own, grants, split, m);
    DifferentReasons();
  }

  lemma DifferentReasons()
    ensures |"principal_not_granted"| == 21 && |"principal_revoked"| == 17 && |"unsupported_command"| == 19
    ensures "command_not_granted" != "unsupported_command"
    ensures |"command_not_granted"| == 19 && |"invalid_pull_request_url"| == 24 && |"repository_not_granted"| == 22
    ensures |"allowed_command"| == 15 && |"allowed_public_pull_request"| == 27
    ensures |"rate_limited"| == 12
    ensures |"own_message"| == 11 && |"unsigned_sender"| == 15 && "unsigned_sender" != "allowed_command"
  {
    assert "command_not_granted"[0] != "unsupported_command"[0];
    assert "unsigned_sender"[0] != "allowed_command"[0];
  }

  // The limit asked for is the principal's own.
  lemma MeteredLimit(own: string, mode: SenderMode, grants: Grants, split: string -> UrlParts, m: RoomMessage)
    requires Judged(own, mode, grants, split, m).Metered?
    ensures mode.ByCapability? && m.sender in grants
    ensures Judged(own, mode, grants, split, m).limit == grants[m.sender].maxRequestsPerHour
  {
  }

  // In every mode, only a signed third party is ever answered.
  lemma OnlySignedThirdPartiesAreAnswered(
      own: string, mode: SenderMode, grants: Grants, split: string -> UrlParts, m: RoomMessage)
    ensures !Judged(own, mode, grants, split, m).decision.action.Ignore? ==> m.IsSigned() && m.sender != own
  {
  }
}
