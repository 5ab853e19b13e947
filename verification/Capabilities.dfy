// Capability grants for signed principals and the persistent rate limiter.
module Capabilities {
  import opened Wrappers
  import opened DidKey
  import opened State
  import opened Quota
  import opened PullRequest

  datatype CapabilityError = UnknownPrincipal | LimitOutOfRange | InvalidClock | NotSaved | PolicyUnreadable

  const MAX_REQUESTS_PER_HOUR := 1000

  datatype CapabilityGrant = CapabilityGrant(
    enabled: bool, commands: set<string>, repositories: seq<string>, maxRequestsPerHour: nat)
  {
    // Each scope is an exact owner/repository or owner/*, in lower case.
    predicate AllowsRepository(fullName: string) {
      var candidate := Lower(fullName);
      exists k :: 0 <= k < |repositories| && ScopeMatches(repositories[k], candidate)
    }
  }

  function LowerChar(c: char): char {
    if 'A' <= c <= 'Z' then (c as int + 32) as char else c
  }

  // casefold of ASCII text
  function Lower(text: string): (lower: string)
    ensures |lower| == |text| && forall k :: 0 <= k < |text| ==> lower[k] == LowerChar(text[k])
  {
    seq(|text|, k requires 0 <= k < |text| => LowerChar(text[k]))
  }

  predicate ScopeMatches(scope: string, candidate: string) {
    if EndsWith(scope, "/*") then
      scope[..|scope| - 1] <= candidate && |Split(candidate)| == 2
    else candidate == scope
  }

  // One repository entry of a grant. The two patterns exclude surrounding
  // whitespace and further slashes.
  function RepositoryScope(value: string): Option<string> {
    var parts := Split(value);
    if |parts| != 2 || !IsOwner(parts[0]) then None
    else if parts[1] != "*" && !IsRepository(parts[1]) then None
    else Some(Lower(parts[0] + "/" + parts[1]))
  }

  // The scopes a parsed grant can hold.
  ghost predicate IsScope(scope: string) {
    exists value :: RepositoryScope(value) == Some(scope)
  }

  // A reference is in scope exactly when its own name or the wildcard of its
  // own owner is listed; a longer or shorter owner never matches.
  lemma AllowsExactlyOwnScopes(grant: CapabilityGrant, ref: PullRequestRef)
    requires ref.Valid() && forall k :: 0 <= k < |grant.repositories| ==> IsScope(grant.repositories[k])
    ensures grant.AllowsRepository(ref.FullName())
            <==> Lower(ref.FullName()) in grant.repositories || Lower(ref.owner + "/*") in grant.repositories
  {
    forall k | 0 <= k < |grant.repositories|
      ensures ScopeMatches(grant.repositories[k], Lower(ref.FullName()))
              <==> grant.repositories[k] == Lower(ref.FullName()) || grant.repositories[k] == Lower(ref.owner + "/*")
    {
      ScopeMatchesExactly(grant.repositories[k], ref);
    }
  }

  lemma ScopeMatchesExactly(scope: string, ref: PullRequestRef)
    requires ref.Valid() && IsScope(scope)
    ensures ScopeMatches(scope, Lower(ref.FullName()))
            <==> scope == Lower(ref.FullName()) || scope == Lower(ref.owner + "/*")
  {
    var value :| RepositoryScope(value) == Some(scope);
    var owner, repository := Split(value)[0], Split(value)[1];
    LowerName(owner, repository);
    LowerName(ref.owner, ref.repository);
    LowerName(ref.owner, "*");
    assert ref.owner + "/*" == ref.owner + "/" + "*";
    var o, r, o', r' := Lower(owner), Lower(repository), Lower(ref.owner), Lower(ref.repository);
    MatchesParts(o, r, o', r');
    SlashIsInjective(o, r, o', r');
    SlashIsInjective(o, r, o', "*");
  }

  // Lower-case names: what a scope and a candidate look like.
  predicate IsLowerName(name: string) {
    name != "" && '/' !in name && (name == "*" || name[|name| - 1] != '*')
  }

  lemma LowerName(owner: string, repository: string)
    requires IsOwner(owner) && (repository == "*" || IsRepository(repository))
    ensures Lower(owner + "/" + repository) == Lower(owner) + "/" + Lower(repository)
    ensures '/' !in Lower(owner) && IsLowerName(Lower(repository))
    ensures Lower(repository) == "*" <==> repository == "*"
  {
    if repository != "*" {
      assert Lower(repository)[|repository| - 1] != '*';
    }
  }

  lemma MatchesParts(owner: string, repository: string, owner': string, repository': string)
    requires '/' !in owner && '/' !in owner' && IsLowerName(repository) && IsLowerName(repository')
    requires repository' != "*"
    ensures ScopeMatches(owner + "/" + repository, owner' + "/" + repository')
            <==> owner == owner' && (repository == "*" || repository == repository')
  {
    var scope, candidate := owner + "/" + repository, owner' + "/" + repository';
    SlashIsInjective(owner, repository, owner', repository');
    if repository == "*" {
      assert scope[|scope| - 2..] == "/*";
      assert scope[..|scope| - 1] == owner + "/";
      SplitFirst(owner', repository');
      PrefixOwner(owner, owner', repository');
    } else {
      assert scope[|scope| - 1] != '*' && "/*"[1] == '*';
      assert |scope| >= 2 ==> scope[|scope| - 2..][1] == scope[|scope| - 1];
    }
  }

  lemma PrefixOwner(owner: string, owner': string, rest: string)
    requires '/' !in owner && '/' !in owner'
    ensures owner + "/" <= owner' + "/" + rest <==> owner == owner'
  {
    var text := owner' + "/" + rest;
    if owner + "/" <= text {
      var tail := text[|owner| + 1..];
      assert text == owner + "/" + tail;
      SameFirst(owner, tail, owner', rest);
    }
  }

  // ---- The rate limiter ----

  // The state file on disk. A write is atomic; one that reports an error may
  // or may not have replaced the file.
  class StatePath {
    var saved: StateFile

    constructor (file: StateFile)
      ensures saved == file
    {
      saved := file;
    }

    method Save(state: AgentState) returns (r: Result<(), StateError>)
      modifies this
      ensures saved == state.Value() || (r.Err? && saved == old(saved))
    {
      if * {
        return Err(WriteFailed);
      }
      saved := state.Value();
      r := Ok(());
      if * {
        r := Err(WriteFailed);
      }
    }
  }

  // A reading of the wall clock in seconds.
  datatype Reading = Finite(seconds: real) | NotFinite

  class CapabilityRateLimiter {
    const state: AgentState
    const path: StatePath
    const consume: bool

    constructor (state: AgentState, path: StatePath, consume: bool)
      ensures this.state == state && this.path == path && this.consume == consume
    {
      this.state, this.path, this.consume := state, path, consume;
    }

    // True reserves one request of `did`, on disk, before anything else
    // happens; false changes nothing.
    method Allow(did: string, limit: int, clock: Reading) returns (r: Result<bool, CapabilityError>)
      modifies state, path
      ensures r.Ok? ==> IsDid(did) && 1 <= limit <= MAX_REQUESTS_PER_HOUR && clock.Finite? && clock.seconds >= 0.0
      ensures r.Ok? ==>
                r.value == Allowed(old(state.capabilityRequests), Attempt(did, clock.seconds.Floor, limit))
      ensures r == Ok(true) && consume ==>
                state.Value() == old(state.Value()).(
                  requests := Reserved(old(state.capabilityRequests), did, clock.seconds.Floor, WINDOW))
                && path.saved == state.Value()
      ensures r == Ok(false) || !consume ==> state.Value() == old(state.Value())
      ensures r == Ok(false) || !consume ==> path.saved == old(path.saved)
      ensures r.Err? ==>
                || path.saved == old(path.saved)
                || (IsDid(did) && 1 <= limit <= MAX_REQUESTS_PER_HOUR && clock.Finite? && clock.seconds >= 0.0
                    && Allowed(old(state.capabilityRequests), Attempt(did, clock.seconds.Floor, limit))
                    && path.saved == old(state.Value()).(
                      requests := Reserved(old(state.capabilityRequests), did, clock.seconds.Floor, WINDOW)))
    {
      if !IsDid(did) {
        return Err(UnknownPrincipal);
      }
      if !(1 <= limit <= MAX_REQUESTS_PER_HOUR) {
        return Err(LimitOutOfRange);
      }
      if clock.NotFinite? || clock.seconds < 0.0 {
        return Err(InvalidClock);
      }
      var now: nat := clock.seconds.Floor;
      var count := state.CapabilityRequestCount(did, now, WINDOW);
      if count >= limit {
        return Ok(false);
      }
      if consume {
        state.ReserveCapabilityRequest(did, now, WINDOW);
        var saved := path.Save(state);
        if saved.Err? {
          return Err(NotSaved);
        }
      }
      r := Ok(true);
    }
  }
}
