// Offline verification of a work receipt and its countersignatures.
module WorkReceipt {
  import opened Wrappers
  import opened Numerals
  import opened DidKey
  import opened Messages
  import opened PullRequest
  import Receipt

  datatype WorkError =
    | UnexpectedWrapper | DigestMismatch | InvalidSigner | SignatureMismatch | UnsupportedSchema
    | InvalidField | InvalidCommand | InvalidCountersignatures | OwnCountersignature | DuplicateCountersigner
    | OtherReceipt | OtherExecution | Predates

  const WORK_RECEIPT_SCHEMA := "work-receipt-v1"
  const WORK_RECEIPT_ENVELOPE_SCHEMA := "work-receipt-envelope-v1"
  const WORK_COUNTERSIGNATURE_SCHEMA := "work-receipt-countersignature-v1"

  const MAX_COMMAND_ARGUMENTS := 64
  const MAX_COMMAND_ARGUMENT_BYTES := 4096
  const MAX_COMMAND_BYTES := 16 * 1024
  const MAX_OUTPUT_BYTES := 16 * 1024 * 1024
  const MAX_COUNTERSIGNATURES := 16

  // What was run and what came of it: the part countersigners attest.
  datatype ExecutionClaim = ExecutionClaim(
    repository: string, commit: string, command: seq<string>, timeoutMs: int, result: string, exitCode: Option<int>,
    stdoutDigest: Digest<string>, stdoutBytes: int, stderrDigest: Digest<string>, stderrBytes: int)

  datatype WorkPayload = WorkPayload(
    schema: string, issuer: string, claim: ExecutionClaim, startedAt: string, completedAt: string, durationMs: int)

  datatype CounterPayload = CounterPayload(
    schema: string, verifier: string, receiptDigest: Digest<WorkPayload>, executionDigest: Digest<ExecutionClaim>,
    observedAt: string)

  // Malformed stands for a value without exactly the three fields.
  datatype Wrapper<T> = Malformed | Wrapper(payload: T, payloadDigest: Digest<T>, signature: Signature<T>)

  // None stands for a value that is not a list.
  datatype WorkEnvelope = WorkEnvelope(
    schema: string, receipt: Wrapper<WorkPayload>, countersignatures: Option<seq<Wrapper<CounterPayload>>>)

  datatype WorkSummary = WorkSummary(payload: WorkPayload, countersignatures: nat)

  // ---- Commands ----

  // Bytes of one character in UTF-8.
  function Utf8Size(c: char): nat {
    if c as int < 0x80 then 1 else if c as int < 0x800 then 2 else if c as int < 0x10000 then 3 else 4
  }

  function Size(text: string): nat {
    if text == "" then 0 else Utf8Size(text[0]) + Size(text[1..])
  }

  function TotalSize(command: seq<string>): nat {
    if command == [] then 0 else TotalSize(command[..|command| - 1]) + Size(command[|command| - 1])
  }

  predicate ValidArgument(argument: string) {
    (0 as char) !in argument && Size(argument) <= MAX_COMMAND_ARGUMENT_BYTES
  }

  predicate ValidCommand(command: seq<string>) {
    && 1 <= |command| <= MAX_COMMAND_ARGUMENTS
    && command[0] != ""
    && (forall k :: 0 <= k < |command| ==> ValidArgument(command[k]))
    && TotalSize(command) <= MAX_COMMAND_BYTES
  }

  lemma SizeZero(text: string)
    ensures Size(text) == 0 <==> text == ""
  {
  }

  lemma {:induction false} LengthWithinSize(text: string)
    ensures |text| <= Size(text)
  {
    if text != "" {
      LengthWithinSize(text[1..]);
    }
  }

  method ValidateCommand(command: seq<string>) returns (r: Result<(), WorkError>)
    ensures r.Ok? <==> ValidCommand(command)
  {
    if command == [] || |command| > MAX_COMMAND_ARGUMENTS {
      return Err(InvalidCommand);
    }
    var total := 0;
    for index := 0 to |command|
      invariant total == TotalSize(command[..index])
      invariant index > 0 ==> command[0] != ""
      invariant forall k :: 0 <= k < index ==> ValidArgument(command[k])
    {
      var argument := command[index];
      if (0 as char) in argument {
        return Err(InvalidCommand);
      }
      var size := Size(argument);
      SizeZero(argument);
      if size > MAX_COMMAND_ARGUMENT_BYTES || (index == 0 && size == 0) {
        return Err(InvalidCommand);
      }
      assert command[..index + 1][..index] == command[..index];
      total := total + size;
    }
    assert command[..|command|] == command;
    if total > MAX_COMMAND_BYTES {
      return Err(InvalidCommand);
    }
    r := Ok(());
  }

  // ---- Payloads ----

  // Order of timestamps of the fixed form is order of their digits.
  function Moment(timestamp: string): nat
    requires Receipt.IsTimestamp(timestamp)
  {
    NumberOf(timestamp[..4] + timestamp[5..7] + timestamp[8..10] + timestamp[11..13] + timestamp[14..16]
             + timestamp[17..19])
  }

  predicate ValidResult(result: string, exitCode: Option<int>) {
    || (result == "passed" && exitCode == Some(0))
    || (result == "failed" && exitCode.Some? && exitCode.value != 0 && -255 <= exitCode.value <= 255)
    || (result == "timed_out" && exitCode.None?)
  }

  predicate ValidClaim(c: ExecutionClaim) {
    && |Split(c.repository)| == 2 && IsOwner(Split(c.repository)[0]) && IsRepository(Split(c.repository)[1])
    && Receipt.IsSha(c.commit)
    && 0 < c.timeoutMs <= 3_600_000
    && ValidResult(c.result, c.exitCode)
    && 0 <= c.stdoutBytes <= MAX_OUTPUT_BYTES && 0 <= c.stderrBytes <= MAX_OUTPUT_BYTES
  }

  predicate ValidWork(p: WorkPayload) {
    && p.schema == WORK_RECEIPT_SCHEMA && IsDid(p.issuer)
    && ValidClaim(p.claim) && ValidCommand(p.claim.command)
    && Receipt.IsTimestamp(p.startedAt) && Receipt.IsTimestamp(p.completedAt)
    && Moment(p.startedAt) <= Moment(p.completedAt)
    && 0 <= p.durationMs <= 3_700_000
  }

  // An accepted payload says in three ways what came of the work, and they
  // agree; and its command fits an argument vector of bounded size.
  method ValidateWorkPayload(p: WorkPayload) returns (r: Result<(), WorkError>)
    ensures r.Ok? <==> ValidWork(p)
    ensures r.Ok? ==>
              && (p.claim.result == "passed" <==> p.claim.exitCode == Some(0))
              && (p.claim.result == "timed_out" <==> p.claim.exitCode.None?)
              && (p.claim.result == "failed" <==> p.claim.exitCode.Some? && p.claim.exitCode.value != 0)
    ensures r.Ok? ==> forall k :: 0 <= k < |p.claim.command| ==> |p.claim.command[k]| <= MAX_COMMAND_ARGUMENT_BYTES
  {
    assert |"passed"| == 6 && |"failed"| == 6 && |"timed_out"| == 9 && "passed"[0] != "failed"[0];
    forall k | 0 <= k < |p.claim.command|
      ensures |p.claim.command[k]| <= Size(p.claim.command[k])
    {
      LengthWithinSize(p.claim.command[k]);
    }
    if p.schema != WORK_RECEIPT_SCHEMA {
      return Err(UnsupportedSchema);
    }
    if !IsDid(p.issuer) {
      return Err(InvalidSigner);
    }
    r := ValidateCommand(p.claim.command);
    if r.Err? {
      return;
    }
    if !ValidClaim(p.claim) || !Receipt.IsTimestamp(p.startedAt) || !Receipt.IsTimestamp(p.completedAt) {
      return Err(InvalidField);
    }
    if Moment(p.completedAt) < Moment(p.startedAt) || !(0 <= p.durationMs <= 3_700_000) {
      return Err(InvalidField);
    }
  }

  predicate ValidCounter(p: CounterPayload) {
    p.schema == WORK_COUNTERSIGNATURE_SCHEMA && IsDid(p.verifier) && Receipt.IsTimestamp(p.observedAt)
  }

  // ---- Signed wrappers ----

  function VerifySignedWrapper<T(==)>(w: Wrapper<T>, signer: T -> string): Result<T, WorkError> {
    match w
    case Malformed => Err(UnexpectedWrapper)
    case Wrapper(payload, payloadDigest, signature) =>
      if payloadDigest != Sha256(payload) then Err(DigestMismatch)
      else if !IsDid(signer(payload)) then Err(InvalidSigner)
      else if !Verifies(signer(payload), payload, signature) then Err(SignatureMismatch)
      else Ok(payload)
  }

  function Issuer(p: WorkPayload): string {
    p.issuer
  }

  function Verifier(p: CounterPayload): string {
    p.verifier
  }

  // ---- What an accepted envelope is ----

  predicate ReceiptOk(w: Wrapper<WorkPayload>) {
    VerifySignedWrapper(w, Issuer).Ok? && ValidWork(w.payload)
  }

  // One countersignature, on its own: signed by someone else, of this payload
  // and this execution, and not before the work was complete.
  predicate CounterOk(w: Wrapper<CounterPayload>, work: WorkPayload)
    requires Receipt.IsTimestamp(work.completedAt)
  {
    && VerifySignedWrapper(w, Verifier).Ok? && ValidCounter(w.payload)
    && w.payload.verifier != work.issuer
    && w.payload.receiptDigest == Sha256(work) && w.payload.executionDigest == Sha256(work.claim)
    && Moment(w.payload.observedAt) >= Moment(work.completedAt)
  }

  // The set form of the duplicate check: no two have the same signer.
  predicate DistinctVerifiers(counters: seq<Wrapper<CounterPayload>>) {
    forall j, k :: 0 <= j < k < |counters| && counters[j].Wrapper? && counters[k].Wrapper? ==>
                     counters[j].payload.verifier != counters[k].payload.verifier
  }

  predicate CountersOk(counters: seq<Wrapper<CounterPayload>>, work: WorkPayload)
    requires Receipt.IsTimestamp(work.completedAt)
  {
    && |counters| <= MAX_COUNTERSIGNATURES
    && AllCountersOk(counters, work)
  }

  predicate Accepted(envelope: WorkEnvelope) {
    && envelope.schema == WORK_RECEIPT_ENVELOPE_SCHEMA
    && ReceiptOk(envelope.receipt)
    && envelope.countersignatures.Some?
    && CountersOk(envelope.countersignatures.value, envelope.receipt.payload)
  }

  // The verification loop accepts exactly these envelopes.
  method VerifyWorkReceipt(envelope: WorkEnvelope) returns (r: Result<WorkSummary, WorkError>)
    ensures r.Ok? <==> Accepted(envelope)
    ensures r.Ok? ==> r.value == WorkSummary(envelope.receipt.payload, |envelope.countersignatures.value|)
  {
    if envelope.schema != WORK_RECEIPT_ENVELOPE_SCHEMA {
      return Err(UnsupportedSchema);
    }
    var signed := VerifySignedWrapper(envelope.receipt, Issuer);
    if signed.Err? {
      return Err(signed.error);
    }
    var payload := signed.value;
    var valid := ValidateWorkPayload(payload);
    if valid.Err? {
      return Err(valid.error);
    }
    if envelope.countersignatures.None? || |envelope.countersignatures.value| > MAX_COUNTERSIGNATURES {
      return Err(InvalidCountersignatures);
    }
    var counters := envelope.countersignatures.value;
    var bad := FirstBadCounter(counters, payload);
    if bad.Some? {
      return Err(bad.value);
    }
    r := Ok(WorkSummary(payload, |counters|));
  }

  // The loop over the countersignatures, growing the set of their signers.
  method FirstBadCounter(counters: seq<Wrapper<CounterPayload>>, payload: WorkPayload) returns (r: Option<WorkError>)
    requires Receipt.IsTimestamp(payload.completedAt)
    ensures r.None? <==> AllCountersOk(counters, payload)
  {
    var verifiers: set<string> := {};
    for i := 0 to |counters|
      invariant AllCountersOk(counters[..i], payload)
      invariant verifiers == Verifiers(counters[..i])
    {
      CountersGrow(counters[..i], counters[i], payload);
      assert counters[..i + 1] == counters[..i] + [counters[i]];
      var checked := VerifyCounter(counters[i], payload, verifiers);
      if checked.Err? {
        CountersShrink(counters, payload, i + 1);
        return Some(checked.error);
      }
      verifiers := verifiers + {counters[i].payload.verifier};
    }
    assert counters[..|counters|] == counters;
    r := None;
  }

  predicate AllCountersOk(counters: seq<Wrapper<CounterPayload>>, work: WorkPayload)
    requires Receipt.IsTimestamp(work.completedAt)
  {
    (forall k :: 0 <= k < |counters| ==> CounterOk(counters[k], work)) && DistinctVerifiers(counters)
  }

  function Verifiers(counters: seq<Wrapper<CounterPayload>>): set<string> {
    set w | w in counters && w.Wrapper? :: w.payload.verifier
  }

  lemma CountersShrink(counters: seq<Wrapper<CounterPayload>>, work: WorkPayload, n: nat)
    requires Receipt.IsTimestamp(work.completedAt) && n <= |counters|
    ensures AllCountersOk(counters, work) ==> AllCountersOk(counters[..n], work)
  {
  }

  lemma CountersGrow(counters: seq<Wrapper<CounterPayload>>, w: Wrapper<CounterPayload>, work: WorkPayload)
    requires Receipt.IsTimestamp(work.completedAt) && AllCountersOk(counters, work)
    ensures AllCountersOk(counters + [w], work) <==> CounterOk(w, work) && w.payload.verifier !in Verifiers(counters)
    ensures w.Wrapper? ==> Verifiers(counters + [w]) == Verifiers(counters) + {w.payload.verifier}
  {
    var longer := counters + [w];
    assert longer[|counters|] == w;
    assert forall k :: 0 <= k < |counters| ==> longer[k] == counters[k];
    if w.Wrapper? {
      DistinctGrow(counters, w);
    }
  }

  lemma DistinctGrow(counters: seq<Wrapper<CounterPayload>>, w: Wrapper<CounterPayload>)
    requires w.Wrapper? && DistinctVerifiers(counters)
    ensures DistinctVerifiers(counters + [w]) <==> w.payload.verifier !in Verifiers(counters)
    ensures Verifiers(counters + [w]) == Verifiers(counters) + {w.payload.verifier}
  {
    var longer := counters + [w];
    assert longer[|counters|] == w;
    assert forall k :: 0 <= k < |counters| ==> longer[k] == counters[k];
  }

  function VerifyCounter(w: Wrapper<CounterPayload>, work: WorkPayload, verifiers: set<string>)
    : (r: Result<(), WorkError>)
    requires Receipt.IsTimestamp(work.completedAt)
    ensures r.Ok? <==> CounterOk(w, work) && w.payload.verifier !in verifiers
  {
    match VerifySignedWrapper(w, Verifier)
    case Err(e) => Err(e)
    case Ok(counter) =>
      if !ValidCounter(counter) then Err(InvalidField)
      else if counter.verifier == work.issuer then Err(OwnCountersignature)
      else if counter.verifier in verifiers then Err(DuplicateCountersigner)
      else if counter.receiptDigest != Sha256(work) then Err(OtherReceipt)
      else if counter.executionDigest != Sha256(work.claim) then Err(OtherExecution)
      else if Moment(counter.observedAt) < Moment(work.completedAt) then Err(Predates)
      else Ok(())
  }

  // ---- Closure properties ----

  function WithCounters(envelope: WorkEnvelope, counters: seq<Wrapper<CounterPayload>>): WorkEnvelope {
    envelope.(countersignatures := Some(counters))
  }

  // At most sixteen different signers, none the issuer, and each signature is
  // over a statement that names this very payload and execution.
  lemma AcceptedCountersAreBound(envelope: WorkEnvelope, j: nat, k: nat)
    requires Accepted(envelope) && j < |envelope.countersignatures.value| && k < |envelope.countersignatures.value|
    ensures |envelope.countersignatures.value| <= 16
    ensures var work, a, b := envelope.receipt.payload,
                              envelope.countersignatures.value[j], envelope.countersignatures.value[k];
            && a.Wrapper? && b.Wrapper?
            && (a.payload.verifier == b.payload.verifier <==> j == k)
            && a.payload.verifier != work.issuer
            && a.signature == Ed25519(a.payload.verifier, a.payload)
            && a.payload.receiptDigest == Sha256(work) && a.payload.executionDigest == Sha256(work.claim)
            && envelope.receipt.signature == Ed25519(work.issuer, work)
  {
    assert CounterOk(envelope.countersignatures.value[j], envelope.receipt.payload);
    assert CounterOk(envelope.countersignatures.value[k], envelope.receipt.payload);
  }

  // Reordering countersignatures and leaving some out keeps acceptance.
  lemma SelectionIsAccepted(envelope: WorkEnvelope, counters: seq<Wrapper<CounterPayload>>)
    requires Accepted(envelope) && multiset(counters) <= multiset(envelope.countersignatures.value)
    ensures Accepted(WithCounters(envelope, counters))
  {
    var all := envelope.countersignatures.value;
    SelectionSize(counters, all);
    forall k | 0 <= k < |counters|
      ensures CounterOk(counters[k], envelope.receipt.payload)
    {
      assert counters[k] in multiset(counters);
      assert counters[k] in all;
    }
    forall j, k | 0 <= j < k < |counters|
      ensures counters[j].payload.verifier != counters[k].payload.verifier
    {
      TwoPlaces(counters, all, j, k);
    }
  }

  lemma SelectionSize<T>(part: seq<T>, all: seq<T>)
    requires multiset(part) <= multiset(all)
    ensures |part| <= |all|
  {
    var rest := multiset(all) - multiset(part);
    assert multiset(all) == multiset(part) + rest;
    assert |multiset(all)| == |multiset(part)| + |rest|;
  }

  lemma PlaceOf<T>(all: seq<T>, x: T) returns (a: nat)
    requires x in multiset(all)
    ensures a < |all| && all[a] == x
  {
    assert x in all;
    a :| 0 <= a < |all| && all[a] == x;
  }

  lemma WithoutOne<T>(s: seq<T>, k: nat)
    requires k < |s|
    ensures multiset(s[..k] + s[k + 1..]) == multiset(s) - multiset{s[k]}
  {
    assert s == s[..k] + [s[k]] + s[k + 1..];
  }

  // Two entries of a selection come from two places.
  lemma TwoPlaces<T>(part: seq<T>, all: seq<T>, j: nat, k: nat)
    requires multiset(part) <= multiset(all) && j < k < |part|
    ensures exists a, b :: 0 <= a < |all| && 0 <= b < |all| && a != b && all[a] == part[j] && all[b] == part[k]
  {
    assert part[j] in multiset(part);
    var a := PlaceOf(all, part[j]);
    var rest, others := part[..j] + part[j + 1..], all[..a] + all[a + 1..];
    WithoutOne(part, j);
    WithoutOne(all, a);
    assert rest[k - 1] == part[k];
    assert part[k] in multiset(rest);
    assert multiset(rest) <= multiset(others);
    var c := PlaceOf(others, part[k]);
    var b := if c < a then c else c + 1;
    assert all[b] == part[k];
  }

  // One more countersignature is accepted exactly when the envelope was, it is
  // valid, its signer is new, and there is room for it.
  lemma AppendedIsAcceptedIff(envelope: WorkEnvelope, w: Wrapper<CounterPayload>)
    requires envelope.countersignatures.Some?
    ensures var counters := envelope.countersignatures.value;
            Accepted(WithCounters(envelope, counters + [w]))
            <==> Accepted(envelope) && |counters| < 16 && CounterOk(w, envelope.receipt.payload)
                 && w.payload.verifier !in Verifiers(counters)
  {
    if ReceiptOk(envelope.receipt) {
      var counters, work := envelope.countersignatures.value, envelope.receipt.payload;
      assert (counters + [w])[..|counters|] == counters;
      CountersShrink(counters + [w], work, |counters|);
      if AllCountersOk(counters, work) {
        CountersGrow(counters, w, work);
      }
    }
  }
}
