// The persistent agent state: cursors, nonce marks, room generations and the
// rolling-hour reservations of every principal.
module State {
  import opened Wrappers
  import opened DidKey
  import opened Messages

  datatype StateError =
    | NegativeInteger | CursorBackwards | GenerationBackwards | NonceTooLarge | EmptyPrincipal
    | NonPositiveWindow | InvalidRoomKey | InvalidPrincipal | TooManyPrincipals | HistoryInvalid | WriteFailed

  type Requests = map<string, seq<nat>>

  // The value of the state: what one save writes and one load reads back.
  datatype StateFile = StateFile(
    cursors: map<string, nat>, nonces: map<string, nat>, generations: map<string, nat>, requests: Requests)
  {
    function Cursor(room: string): nat {
      if room in cursors then cursors[room] else 0
    }

    function NonceMark(room: string): nat {
      if room in nonces then nonces[room] else 0
    }
  }

  function Max(a: int, b: int): int {
    if a >= b then a else b
  }

  // ---- What the request methods compute ----

  function After(timestamps: seq<nat>, cutoff: int): (kept: seq<nat>)
    ensures |kept| <= |timestamps|
  {
    if timestamps == [] then []
    else
      var rest := After(timestamps[1..], cutoff);
      if timestamps[0] > cutoff then [timestamps[0]] + rest else rest
  }

  function History(requests: Requests, did: string): seq<nat> {
    if did in requests then requests[did] else []
  }

  function EffectiveNow(timestamps: seq<nat>, now: nat): nat {
    if timestamps == [] then now else Max(now, timestamps[|timestamps| - 1])
  }

  function RequestCount(requests: Requests, did: string, now: nat, window: nat): nat {
    var existing := History(requests, did);
    |After(existing, EffectiveNow(existing, now) - window)|
  }

  function Pruned(requests: Requests, cutoff: int): Requests {
    map did | did in requests && After(requests[did], cutoff) != [] :: After(requests[did], cutoff)
  }

  function Reserved(requests: Requests, did: string, now: nat, window: nat): Requests {
    var retained := Pruned(requests, now - window);
    var existing := History(retained, did);
    var effective := EffectiveNow(existing, now);
    retained[did := After(existing, effective - window) + [effective]]
  }

  function NextNonce(mark: nat, clock: nat): nat {
    Max(clock, mark + 1)
  }

  // ---- The mutable state object ----

  class AgentState {
    var cursors: map<string, nat>
    var nonces: map<string, nat>
    var generations: map<string, nat>
    var capabilityRequests: Requests

    function Value(): StateFile
      reads this
    {
      StateFile(cursors, nonces, generations, capabilityRequests)
    }

    constructor (file: StateFile)
      ensures Value() == file
    {
      cursors, nonces := file.cursors, file.nonces;
      generations, capabilityRequests := file.generations, file.requests;
    }

    function CursorFor(room: string): nat
      reads this
    {
      if room in cursors then cursors[room] else 0
    }

    method AdvanceCursor(room: string, sequence: int) returns (r: Result<(), StateError>)
      modifies this`cursors
      ensures r.Ok? <==> sequence >= old(Value().Cursor(room))
      ensures Value() == if r.Ok? then old(Value()).(cursors := old(cursors)[room := sequence]) else old(Value())
    {
      if sequence < 0 {
        return Err(NegativeInteger);
      }
      if sequence < CursorFor(room) {
        return Err(CursorBackwards);
      }
      cursors := cursors[room := sequence];
      r := Ok(());
    }

    method ObserveGeneration(room: string, generation: int) returns (r: Result<bool, StateError>)
      modifies this`generations
      ensures r.Ok? <==> generation >= 0 && (room in old(generations) ==> old(generations)[room] <= generation)
      ensures Value() == if r.Ok? then old(Value()).(generations := old(generations)[room := generation])
                         else old(Value())
      ensures r.Ok? ==> (r.value <==> room in old(generations) && old(generations)[room] < generation)
    {
      if generation < 0 {
        return Err(NegativeInteger);
      }
      var previous := if room in generations then Some(generations[room]) else None;
      if previous.Some? && generation < previous.value {
        return Err(GenerationBackwards);
      }
      generations := generations[room := generation];
      r := Ok(previous.Some? && generation > previous.value);
    }

    method NextNonceFor(room: string, clock: int) returns (r: Result<nat, StateError>)
      modifies this`nonces
      ensures r.Ok? <==> clock >= 0 && NextNonce(old(Value().NonceMark(room)), clock) <= MAX_NONCE
      ensures r.Ok? ==> r.value == NextNonce(old(Value().NonceMark(room)), clock)
      ensures Value() == if r.Ok? then old(Value()).(nonces := old(nonces)[room := r.value]) else old(Value())
    {
      if clock < 0 {
        return Err(NegativeInteger);
      }
      var selected: nat := Max(clock, (if room in nonces then nonces[room] else 0) + 1);
      if selected > MAX_NONCE {
        return Err(NonceTooLarge);
      }
      nonces := nonces[room := selected];
      r := Ok(selected);
    }

    method ObserveNonce(room: string, nonce: nat)
      modifies this`nonces
      ensures Value() == old(Value()).(nonces := old(nonces)[room := Max(old(Value().NonceMark(room)), nonce)])
    {
      nonces := nonces[room := Max(if room in nonces then nonces[room] else 0, nonce)];
    }

    method CapabilityRequestCount(did: string, now: nat, window: nat) returns (count: nat)
      ensures count == RequestCount(capabilityRequests, did, now, window)
    {
      var existing := if did in capabilityRequests then capabilityRequests[did] else [];
      var effectiveNow := Max(now, if existing != [] then existing[|existing| - 1] else now);
      var cutoff := effectiveNow - window;
      count := 0;
      for i := 0 to |existing|
        invariant count + |After(existing[i..], cutoff)| == |After(existing, cutoff)|
      {
        assert existing[i..][1..] == existing[i + 1..];
        if existing[i] > cutoff {
          count := count + 1;
        }
      }
    }

    method ReserveCapabilityRequest(did: string, now: nat, window: nat)
      modifies this`capabilityRequests
      ensures Value() == old(Value()).(requests := Reserved(old(capabilityRequests), did, now, window))
    {
      PruneCapabilityRequests(now, window);
      var existing := if did in capabilityRequests then capabilityRequests[did] else [];
      var effectiveNow: nat := Max(now, if existing != [] then existing[|existing| - 1] else now);
      var cutoff := effectiveNow - window;
      existing := After(existing, cutoff);
      existing := existing + [effectiveNow];
      capabilityRequests := capabilityRequests[did := existing];
    }

    method PruneCapabilityRequests(now: nat, window: nat)
      modifies this`capabilityRequests
      ensures capabilityRequests == Pruned(old(capabilityRequests), now - window)
    {
      var cutoff := now - window;
      var retained: Requests := map[];
      var remaining := capabilityRequests.Keys;
      while remaining != {}
        invariant remaining <= capabilityRequests.Keys
        invariant forall did :: did in retained <==>
                                did in Pruned(capabilityRequests, cutoff) && did !in remaining
        invariant forall did :: did in retained ==> retained[did] == Pruned(capabilityRequests, cutoff)[did]
        decreases |remaining|
      {
        var did :| did in remaining;
        var current := After(capabilityRequests[did], cutoff);
        if current != [] {
          retained := retained[did := current];
        }
        remaining := remaining - {did};
      }
      assert retained == Pruned(capabilityRequests, cutoff);
      capabilityRequests := retained;
    }
  }

  // ---- Saving and loading ----

  datatype StatePayload = StatePayload(
    cursors: map<string, int>, nonces: map<string, int>,
    generations: Option<map<string, int>>, requests: Option<map<string, seq<int>>>)

  function Saved(file: StateFile): StatePayload {
    StatePayload(
      file.cursors, file.nonces,
      if file.generations == map[] then None else Some(file.generations),
      if file.requests == map[] then None else Some(file.requests))
  }

  predicate IsOrdered(timestamps: seq<int>) {
    forall j, k :: 0 <= j < k < |timestamps| ==> timestamps[j] <= timestamps[k]
  }

  const MAX_PRINCIPALS := 128
  const MAX_HISTORY := 1000

  function CheckedMap(values: map<string, int>): Result<map<string, nat>, StateError> {
    if exists key :: key in values && key == "" then Err(InvalidRoomKey)
    else if exists key :: key in values && values[key] < 0 then Err(NegativeInteger)
    else Ok(map key | key in values && values[key] >= 0 :: values[key] as nat)
  }

  predicate ValidHistory(timestamps: seq<int>) {
    |timestamps| <= MAX_HISTORY && IsOrdered(timestamps) && forall t :: t in timestamps ==> t >= 0
  }

  function Naturals(timestamps: seq<int>): (naturals: seq<nat>)
    requires forall t :: t in timestamps ==> t >= 0
    ensures |naturals| == |timestamps| && forall k :: 0 <= k < |naturals| ==> naturals[k] == timestamps[k]
  {
    var naturals := seq<nat>(|timestamps|, k requires 0 <= k < |timestamps| => Max(timestamps[k], 0));
    assert forall k :: 0 <= k < |naturals| ==> timestamps[k] in timestamps;
    naturals
  }

  function CheckedRequests(values: map<string, seq<int>>): Result<Requests, StateError> {
    if |values| > MAX_PRINCIPALS then Err(TooManyPrincipals)
    else if exists did :: did in values && !IsDid(did) then Err(InvalidPrincipal)
    else if exists did :: did in values && !ValidHistory(values[did]) then Err(HistoryInvalid)
    else Ok(map did | did in values && ValidHistory(values[did]) :: Naturals(values[did]))
  }

  function Loaded(payload: StatePayload): Result<StateFile, StateError> {
    match (CheckedMap(payload.cursors), CheckedMap(payload.nonces),
           CheckedMap(if payload.generations.None? then map[] else payload.generations.value),
           CheckedRequests(if payload.requests.None? then map[] else payload.requests.value))
    case (Ok(cursors), Ok(nonces), Ok(generations), Ok(requests)) =>
      Ok(StateFile(cursors, nonces, generations, requests))
    case (Err(e), _, _, _) => Err(e)
    case (_, Err(e), _, _) => Err(e)
    case (_, _, Err(e), _) => Err(e)
    case (_, _, _, Err(e)) => Err(e)
  }

  // The reservation histories a restart can read back.
  predicate LoadableRequests(requests: Requests) {
    && |requests| <= MAX_PRINCIPALS
    && forall did :: did in requests ==> IsDid(did) && |requests[did]| <= MAX_HISTORY && IsOrdered(requests[did])
  }

  predicate Loadable(file: StateFile) {
    && "" !in file.cursors && "" !in file.nonces && "" !in file.generations
    && LoadableRequests(file.requests)
  }

  // Loading what was saved restores the state exactly when it is loadable.
  lemma LoadAfterSave(file: StateFile)
    ensures Loaded(Saved(file)) == Ok(file) <==> Loadable(file)
    ensures Loaded(Saved(file)).Err? <==> !Loadable(file)
  {
    CheckedMapKeeps(file.cursors);
    CheckedMapKeeps(file.nonces);
    CheckedMapKeeps(file.generations);
    CheckedRequestsKeeps(file.requests);
  }

  lemma CheckedMapKeeps(values: map<string, nat>)
    ensures if "" in values then CheckedMap(values).Err? else CheckedMap(values) == Ok(values)
  {
    if "" !in values {
      var loaded := CheckedMap(values).value;
      assert loaded.Keys == values.Keys;
      assert loaded == values;
    }
  }

  lemma CheckedRequestsKeeps(requests: Requests)
    ensures if LoadableRequests(requests) then CheckedRequests(requests) == Ok(requests)
            else CheckedRequests(requests).Err?
  {
    var values: map<string, seq<int>> := requests;
    if LoadableRequests(requests) {
      forall did | did in values
        ensures ValidHistory(values[did]) && Naturals(values[did]) == requests[did]
      {
      }
      var loaded := CheckedRequests(values).value;
      assert loaded.Keys == requests.Keys;
      assert loaded == requests;
    }
  }
}
