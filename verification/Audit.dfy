// The signed, hash-chained audit log of the agent's decisions.
module Audit {
  import opened Wrappers
  import opened DidKey
  import opened Messages
  import opened Policy

  datatype AuditError =
    | IssuerMismatch | OtherIssuer | InvalidSequence | InvalidIssuer | InvalidHash | InvalidSender | InvalidReason
    | InvalidResponse | InconsistentOutcome | NotContiguous | ChainBroken | IssuerChanges
    | PayloadHashMismatch | SignatureMismatch | AppendFailed

  datatype Outcome = NothingSent | Sent | ReceiptFailed | SentReceipt

  // What the responder hands to the log for one handled message.
  datatype AuditFields = AuditFields(
    inputSequence: int, senderFingerprint: Option<Digest<string>>, senderAuthenticated: bool,
    decision: Action, reason: string, outcome: Outcome,
    receiptDigest: Option<Digest<string>>, responseSequence: Option<int>)

  datatype AuditPayload = AuditPayload(
    auditSequence: int, issuer: string, observedAt: int, fields: AuditFields, previousEntry: string)

  datatype AuditWrapper = AuditWrapper(
    payload: AuditPayload, payloadDigest: Digest<AuditPayload>, signature: Signature<AuditPayload>)

  datatype AuditSummary = AuditSummary(entries: nat, issuer: Option<string>, head: string)

  // The digest of a whole record, any function into digest texts.
  type EntryHash = AuditWrapper -> string

  predicate IsSha256(text: string) {
    |text| == 64 && forall k :: 0 <= k < 64 ==> '0' <= text[k] <= '9' || 'a' <= text[k] <= 'f'
  }

  const GENESIS: string := seq(64, k => '0')

  // TOKEN_PATTERN
  predicate IsToken(text: string) {
    && 1 <= |text| <= 64 && 'a' <= text[0] <= 'z'
    && forall k :: 0 <= k < |text| ==> 'a' <= text[k] <= 'z' || '0' <= text[k] <= '9' || text[k] == '_'
  }

  // ---- Field validators ----

  predicate ValidOutcome(decision: Action, outcome: Outcome, receipt: Option<Digest<string>>, response: Option<int>) {
    || (decision.Ignore? && outcome.NothingSent? && receipt.None? && response.None?)
    || (decision.Reply? && outcome.Sent? && receipt.None? && response.Some?)
    || (decision.Receipt? && outcome.ReceiptFailed? && receipt.None? && response.None?)
    || (decision.Receipt? && outcome.SentReceipt? && receipt.Some? && response.Some?)
  }

  function ValidateFields(f: AuditFields): Result<(), AuditError> {
    if f.inputSequence <= 0 then Err(InvalidSequence)
    else if f.senderAuthenticated != f.senderFingerprint.Some? then Err(InvalidSender)
    else if !IsToken(f.reason) then Err(InvalidReason)
    else if f.responseSequence.Some? && f.responseSequence.value <= 0 then Err(InvalidResponse)
    else if !ValidOutcome(f.decision, f.outcome, f.receiptDigest, f.responseSequence) then Err(InconsistentOutcome)
    else Ok(())
  }

  function ValidatePayload(p: AuditPayload): Result<(), AuditError> {
    if p.auditSequence <= 0 then Err(InvalidSequence)
    else if !IsDid(p.issuer) then Err(InvalidIssuer)
    else if !IsSha256(p.previousEntry) then Err(InvalidHash)
    else ValidateFields(p.fields)
  }

  // ---- What a verified log is ----

  type Log = seq<AuditWrapper>

  function Head(hash: EntryHash, log: Log): string {
    if log == [] then GENESIS else hash(log[|log| - 1])
  }

  predicate VerifiedEntry(hash: EntryHash, log: Log, k: nat)
    requires k < |log|
  {
    var w := log[k];
    && ValidatePayload(w.payload).Ok?
    && w.payload.auditSequence == k + 1
    && w.payload.previousEntry == Head(hash, log[..k])
    && w.payload.issuer == log[0].payload.issuer
    && w.payloadDigest == Sha256(w.payload)
    && Verifies(w.payload.issuer, w.payload, w.signature)
  }

  predicate Verified(hash: EntryHash, log: Log) {
    forall k :: 0 <= k < |log| ==> VerifiedEntry(hash, log, k)
  }

  // The log verifies and is this issuer's.
  predicate OwnLog(hash: EntryHash, log: Log, issuer: string) {
    Verified(hash, log) && (log != [] ==> log[0].payload.issuer == issuer)
  }

  function VerifyLine(hash: EntryHash, w: AuditWrapper, sequence: int, previous: string, issuer: Option<string>)
    : Result<(string, string), AuditError>
  {
    match ValidatePayload(w.payload)
    case Err(e) => Err(e)
    case Ok(_) =>
      if w.payload.auditSequence != sequence then Err(NotContiguous)
      else if w.payload.previousEntry != previous then Err(ChainBroken)
      else if issuer.Some? && w.payload.issuer != issuer.value then Err(IssuerChanges)
      else if w.payloadDigest != Sha256(w.payload) then Err(PayloadHashMismatch)
      else if !Verifies(w.payload.issuer, w.payload, w.signature) then Err(SignatureMismatch)
      else Ok((w.payload.issuer, hash(w)))
  }

  // The verification loop accepts exactly the verified logs.
  method Verify(hash: EntryHash, log: Log) returns (r: Result<AuditSummary, AuditError>)
    ensures r.Ok? <==> Verified(hash, log)
    ensures r.Ok? ==>
              r.value == AuditSummary(|log|, if log == [] then None else Some(log[0].payload.issuer), Head(hash, log))
  {
    var previous := GENESIS;
    var issuer: Option<string> := None;
    for i := 0 to |log|
      invariant forall k :: 0 <= k < i ==> VerifiedEntry(hash, log, k)
      invariant previous == Head(hash, log[..i])
      invariant issuer == if i == 0 then None else Some(log[0].payload.issuer)
    {
      var line := VerifyLine(hash, log[i], i + 1, previous, issuer);
      if line.Err? {
        assert !VerifiedEntry(hash, log, i);
        return Err(line.error);
      }
      issuer, previous := Some(line.value.0), line.value.1;
    }
    assert log[..|log|] == log;
    r := Ok(AuditSummary(|log|, issuer, previous));
  }

  // ---- Chain integrity ----

  lemma PrefixesAreVerified(hash: EntryHash, log: Log, n: nat)
    requires Verified(hash, log) && n <= |log|
    ensures Verified(hash, log[..n])
  {
    forall k | 0 <= k < n
      ensures VerifiedEntry(hash, log[..n], k)
    {
      assert VerifiedEntry(hash, log, k);
      assert log[..n][..k] == log[..k];
    }
  }

  lemma ExtendedLogIsVerified(hash: EntryHash, log: Log, w: AuditWrapper)
    requires Verified(hash, log)
    requires VerifyLine(hash, w, |log| + 1, Head(hash, log),
                        if log == [] then None else Some(log[0].payload.issuer)).Ok?
    ensures Verified(hash, log + [w])
    ensures Head(hash, log + [w]) == hash(w)
  {
    var longer := log + [w];
    forall k | 0 <= k < |longer|
      ensures VerifiedEntry(hash, longer, k)
    {
      assert longer[..k] == log[..k];
      assert log[..|log|] == log;
      if k < |log| {
        assert VerifiedEntry(hash, log, k);
      }
    }
  }

  // The two ways a hash function can fail on given logs.
  ghost predicate HashFails(hash: EntryHash, a: Log, b: Log) {
    || (exists i, j :: 0 <= i < |a| && 0 <= j < |b| && a[i] != b[j] && hash(a[i]) == hash(b[j]))
    || (exists i :: 0 <= i < |a| && hash(a[i]) == GENESIS)
    || (exists j :: 0 <= j < |b| && hash(b[j]) == GENESIS)
  }

  // Two verified logs with one head are the same log, record by record, unless
  // they exhibit a collision (or a record hashing to the genesis value). So no
  // edit, insertion, deletion or reordering keeps the head.
  lemma {:induction false} HeadDeterminesLog(hash: EntryHash, a: Log, b: Log)
    requires Verified(hash, a) && Verified(hash, b) && Head(hash, a) == Head(hash, b)
    ensures a == b || HashFails(hash, a, b)
    decreases |a|
  {
    if a != [] && b != [] {
      var m, n := |a| - 1, |b| - 1;
      if a[m] == b[n] {
        PrefixesAreVerified(hash, a, m);
        PrefixesAreVerified(hash, b, n);
        assert VerifiedEntry(hash, a, m) && VerifiedEntry(hash, b, n);
        HeadDeterminesLog(hash, a[..m], b[..n]);
        assert a == a[..m] + [a[m]] && b == b[..n] + [b[n]];
        if a[..m] != b[..n] {
          FailureInPrefix(hash, a, b, m, n);
        }
      }
    }
  }

  lemma FailureInPrefix(hash: EntryHash, a: Log, b: Log, m: nat, n: nat)
    requires m <= |a| && n <= |b| && HashFails(hash, a[..m], b[..n])
    ensures HashFails(hash, a, b)
  {
    if i, j :| 0 <= i < m && 0 <= j < n && a[..m][i] != b[..n][j] && hash(a[..m][i]) == hash(b[..n][j]) {
      assert a[i] != b[j] && hash(a[i]) == hash(b[j]);
    } else if i :| 0 <= i < m && hash(a[..m][i]) == GENESIS {
      assert hash(a[i]) == GENESIS;
    } else {
      var j :| 0 <= j < n && hash(b[..n][j]) == GENESIS;
      assert hash(b[j]) == GENESIS;
    }
  }

  // ---- The log file ----

  class SignedAuditLog {
    const hash: EntryHash
    var lines: Log

    constructor (hash: EntryHash, lines: Log)
      ensures this.hash == hash && this.lines == lines
    {
      this.hash, this.lines := hash, lines;
    }

    // `keyDid` is the DID derived from the private key. An append that
    // reports an error may still have written its line.
    method Append(issuer: string, keyDid: string, observedAt: int, fields: AuditFields)
      returns (r: Result<string, AuditError>)
      requires KeyFromDid(keyDid).Ok? && forall w :: IsSha256(hash(w))
      modifies this
      ensures r.Ok? ==>
                && issuer == keyDid && Verified(hash, old(lines))
                && |lines| == |old(lines)| + 1 && lines[..|old(lines)|] == old(lines)
                && Verified(hash, lines) && Head(hash, lines) == r.value && ValidateFields(fields).Ok?
                && lines[|old(lines)|].payload
                   == AuditPayload(|old(lines)| + 1, issuer, observedAt, fields, Head(hash, old(lines)))
      ensures r.Err? ==>
                || r.error.AppendFailed? || issuer != keyDid || !Verified(hash, old(lines))
                || (old(lines) != [] && old(lines)[0].payload.issuer != issuer) || ValidateFields(fields).Err?
      ensures lines != old(lines) ==>
                Verified(hash, old(lines)) && lines != [] && lines[0].payload.issuer == issuer
                && (old(lines) != [] ==> old(lines)[0].payload.issuer == issuer)
      ensures r.Err? ==>
                || lines == old(lines)
                || (Verified(hash, lines) && ValidateFields(fields).Ok? && |lines| == |old(lines)| + 1
                    && lines[..|old(lines)|] == old(lines) && lines[|old(lines)|].payload.fields == fields)
    {
      if issuer != keyDid {
        return Err(IssuerMismatch);
      }
      var summary := Verify(hash, lines);
      if summary.Err? {
        return Err(summary.error);
      }
      if summary.value.issuer.Some? && summary.value.issuer.value != issuer {
        return Err(OtherIssuer);
      }
      var payload := AuditPayload(summary.value.entries + 1, issuer, observedAt, fields, summary.value.head);
      var valid := ValidatePayload(payload);
      if valid.Err? {
        return Err(valid.error);
      }
      if * {
        return Err(AppendFailed);
      }
      var wrapper := AuditWrapper(payload, Sha256(payload), Ed25519(issuer, payload));
      ExtendedLogIsVerified(hash, lines, wrapper);
      lines := lines + [wrapper];
      r := Ok(hash(wrapper));
      if * {
        r := Err(AppendFailed);
      }
    }
  }
}
