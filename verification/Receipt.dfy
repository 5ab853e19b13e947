// Evidence about a public pull request, folded from three GitHub responses,
// and the signed receipt that states it.
module Receipt {
  import opened Wrappers
  import opened Numerals
  import opened DidKey
  import opened Messages
  import opened PullRequest
  import Capabilities

  // One member of a decoded JSON object; Compound stands for numbers that are
  // not integers, lists and objects.
  datatype Value = Absent | Nothing | Flag(flag: bool) | Count(count: int) | Name(name: string) | Compound

  datatype RawRun = NotARun | RawRun(headSha: Value, status: Value, conclusion: Value)

  datatype RawChecks = RawChecks(total: Value, runs: Option<seq<RawRun>>)

  // Of the list of statuses only the length is used.
  datatype RawStatuses = RawStatuses(sha: Value, state: Value, total: Value, statuses: Option<nat>)

  datatype RawRepository = RawRepository(private: Value, fullName: Value)

  datatype RawBase = RawBase(repository: Option<RawRepository>, sha: Value)

  // `htmlUrl` is the web address, split; None if it is not exact text.
  datatype RawPull = RawPull(
    number: Value, base: Option<RawBase>, htmlUrl: Option<UrlParts>, author: Option<Value>, state: Value,
    merged: Value, draft: Value, head: Option<Value>, mergeSha: Value, updatedAt: Value)

  datatype ReceiptError =
    | InvalidResponse | PrivateRepository | InvalidUrl | InvalidReceipt | IssuerMismatch | CooldownActive(retryAfter: real)
    | ReceiptTooLarge

  datatype Ci = Failure | Partial | NoSignals | CiPending | Success

  datatype CheckSummary = CheckSummary(observed: nat, total: nat, complete: bool, hasFailure: bool, hasPending: bool)

  datatype StatusSummary = StatusSummary(observed: nat, total: nat, complete: bool, state: string)

  datatype PullDetails = PullDetails(
    repository: string, number: nat, url: UrlParts, author: string, state: string, merged: bool, draft: bool,
    headSha: string, baseSha: string, mergeSha: Option<string>, updatedAt: string)

  datatype Evidence = Evidence(
    details: PullDetails, ci: Ci, complete: bool,
    checksObserved: nat, checksTotal: nat, statusesObserved: nat, statusesTotal: nat)

  // ---- Text patterns ----

  predicate IsSha(text: string) {
    |text| == 40 && forall k :: 0 <= k < 40 ==> '0' <= text[k] <= '9' || 'a' <= text[k] <= 'f'
  }

  predicate IsLogin(text: string) {
    && 1 <= |text| <= 100
    && IsAlphanumeric(text[0]) && IsAlphanumeric(text[|text| - 1])
    && forall k :: 0 <= k < |text| ==> IsAlphanumeric(text[k]) || text[k] == '-'
  }

  // AUTHOR_PATTERN
  predicate IsAuthor(text: string) {
    IsLogin(text) || (EndsWith(text, "[bot]") && IsLogin(text[..|text| - 5]))
  }

  predicate IsDigits(text: string) {
    forall k :: 0 <= k < |text| ==> '0' <= text[k] <= '9'
  }

  function DaysIn(year: nat, month: nat): nat {
    if month in {4, 6, 9, 11} then 30
    else if month != 2 then 31
    else if year % 4 == 0 && (year % 100 != 0 || year % 400 == 0) then 29
    else 28
  }

  // TIMESTAMP_PATTERN, naming a day and a time that exist
  predicate IsTimestamp(text: string) {
    && |text| == 20
    && IsDigits(text[..4]) && text[4] == '-' && IsDigits(text[5..7]) && text[7] == '-' && IsDigits(text[8..10])
    && text[10] == 'T' && IsDigits(text[11..13]) && text[13] == ':' && IsDigits(text[14..16]) && text[16] == ':'
    && IsDigits(text[17..19]) && text[19] == 'Z'
    && NumberOf(text[..4]) >= 1 && 1 <= NumberOf(text[5..7]) <= 12
    && 1 <= NumberOf(text[8..10]) <= DaysIn(NumberOf(text[..4]), NumberOf(text[5..7]))
    && NumberOf(text[11..13]) < 24 && NumberOf(text[14..16]) < 60 && NumberOf(text[17..19]) < 60
  }

  function RequireCount(value: Value): Result<nat, ReceiptError> {
    if value.Count? && value.count >= 0 then Ok(value.count) else Err(InvalidResponse)
  }

  function RequireSha(value: Value): Result<string, ReceiptError> {
    if value.Name? && IsSha(value.name) then Ok(value.name) else Err(InvalidResponse)
  }

  // ---- Check runs ----

  const CHECK_STATUSES: set<string> := {"queued", "in_progress", "requested", "waiting", "pending", "completed"}

  const CHECK_FAILURES: set<string> :=
    {"action_required", "cancelled", "failure", "stale", "startup_failure", "timed_out"}

  const CHECK_NON_FAILURES: set<string> := {"neutral", "skipped", "success"}

  const COMBINED_STATUS_STATES: set<string> := {"error", "failure", "pending", "success"}

  predicate IsName(value: Value, names: set<string>) {
    value.Name? && value.name in names
  }

  predicate Completed(run: RawRun) {
    run.RawRun? && run.status == Name("completed")
  }

  predicate Failing(run: RawRun) {
    Completed(run) && IsName(run.conclusion, CHECK_FAILURES)
  }

  predicate Passing(run: RawRun) {
    Completed(run) && IsName(run.conclusion, CHECK_NON_FAILURES)
  }

  // A check run that is reported for this commit and is understood.
  predicate Understood(run: RawRun, sha: string) {
    && run.RawRun? && RequireSha(run.headSha) == Ok(sha)
    && IsName(run.status, CHECK_STATUSES)
    && (Completed(run) ==> Failing(run) || Passing(run))
  }

  function Checked(payload: RawChecks, sha: string): Result<CheckSummary, ReceiptError> {
    match (RequireCount(payload.total), payload.runs)
    case (Ok(total), Some(runs)) =>
      if |runs| > total || |runs| > 100 || exists k :: 0 <= k < |runs| && !Understood(runs[k], sha) then
        Err(InvalidResponse)
      else
        Ok(CheckSummary(
             |runs|, total, |runs| == total,
             exists k :: 0 <= k < |runs| && Failing(runs[k]),
             exists k :: 0 <= k < |runs| && !Completed(runs[k])))
    case _ => Err(InvalidResponse)
  }

  method ParseChecks(payload: RawChecks, expectedSha: string) returns (r: Result<CheckSummary, ReceiptError>)
    ensures r == Checked(payload, expectedSha)
  {
    var total := RequireCount(payload.total);
    if total.Err? || payload.runs.None? {
      return Err(InvalidResponse);
    }
    var runs := payload.runs.value;
    if |runs| > total.value || |runs| > 100 {
      return Err(InvalidResponse);
    }
    var hasFailure, hasPending := false, false;
    for i := 0 to |runs|
      invariant forall k :: 0 <= k < i ==> Understood(runs[k], expectedSha)
      invariant hasFailure <==> exists k :: 0 <= k < i && Failing(runs[k])
      invariant hasPending <==> exists k :: 0 <= k < i && !Completed(runs[k])
    {
      var run := runs[i];
      if run.NotARun? {
        return Err(InvalidResponse);
      }
      if RequireSha(run.headSha) != Ok(expectedSha) {
        return Err(InvalidResponse);
      }
      if !IsName(run.status, CHECK_STATUSES) {
        return Err(InvalidResponse);
      }
      if run.status != Name("completed") {
        hasPending := true;
        continue;
      }
      if IsName(run.conclusion, CHECK_FAILURES) {
        hasFailure := true;
      } else if !IsName(run.conclusion, CHECK_NON_FAILURES) {
        return Err(InvalidResponse);
      }
    }
    r := Ok(CheckSummary(|runs|, total.value, |runs| == total.value, hasFailure, hasPending));
  }

  function ParseStatuses(payload: RawStatuses, expectedSha: string): Result<StatusSummary, ReceiptError> {
    if RequireSha(payload.sha) != Ok(expectedSha) then Err(InvalidResponse)
    else if !IsName(payload.state, COMBINED_STATUS_STATES) then Err(InvalidResponse)
    else
      match (RequireCount(payload.total), payload.statuses)
      case (Ok(total), Some(observed)) =>
        if observed > total || observed > 100 then Err(InvalidResponse)
        else Ok(StatusSummary(observed, total, observed == total, payload.state.name))
      case _ => Err(InvalidResponse)
  }

  // ---- The pull request ----

  function ParseRepository(value: Value): Result<string, ReceiptError> {
    if !value.Name? || |Split(value.name)| != 2 then Err(InvalidResponse)
    else if !IsOwner(Split(value.name)[0]) || !IsRepository(Split(value.name)[1]) then Err(InvalidResponse)
    else Ok(value.name)
  }

  function CanonicalUrl(repository: string, number: nat): UrlParts
    requires |Split(repository)| == 2
  {
    PullRequestRef(Split(repository)[0], Split(repository)[1], number).Url()
  }

  function ParseUrl(url: Option<UrlParts>): Result<PullRequestRef, ReceiptError> {
    if url.None? then Err(InvalidUrl)
    else match ParsePullRequest(url.value)
      case Ok(ref) => Ok(ref)
      case Err(_) => Err(InvalidUrl)
  }

  function ParsePull(payload: RawPull, reference: PullRequestRef): Result<PullDetails, ReceiptError> {
    match RequireCount(payload.number)
    case Err(e) => Err(e)
    case Ok(number) =>
      if number != reference.number || number == 0 then Err(InvalidResponse)
      else if payload.base.None? || payload.base.value.repository.None? then Err(InvalidResponse)
      else if payload.base.value.repository.value.private != Flag(false) then Err(PrivateRepository)
      else
        match ParseRepository(payload.base.value.repository.value.fullName)
        case Err(e) => Err(e)
        case Ok(repository) =>
          if Capabilities.Lower(repository) != Capabilities.Lower(reference.FullName()) then Err(InvalidResponse)
          else
            match (ParseUrl(Some(CanonicalUrl(repository, number))), ParseUrl(payload.htmlUrl))
            case (Err(e), _) => Err(e)
            case (_, Err(e)) => Err(e)
            case (Ok(canonical), Ok(html)) =>
              if Capabilities.Lower(html.FullName()) != Capabilities.Lower(canonical.FullName())
                 || html.number != number then Err(InvalidResponse)
              else ParseFacts(payload, repository, number, canonical.Url())
  }

  function ParseFacts(payload: RawPull, repository: string, number: nat, url: UrlParts)
    : Result<PullDetails, ReceiptError>
    requires payload.base.Some?
  {
    if payload.author.None? || !payload.author.value.Name? || !IsAuthor(payload.author.value.name) then
      Err(InvalidResponse)
    else if !IsName(payload.state, {"open", "closed"}) then Err(InvalidResponse)
    else if !payload.merged.Flag? || !payload.draft.Flag? || payload.head.None? then Err(InvalidResponse)
    else
      var claimsMerge := payload.merged.flag && !payload.mergeSha.Absent? && !payload.mergeSha.Nothing?;
      match (RequireSha(payload.head.value), RequireSha(payload.base.value.sha), RequireSha(payload.mergeSha))
      case (Err(e), _, _) => Err(e)
      case (_, Err(e), _) => Err(e)
      case (Ok(headSha), Ok(baseSha), mergeSha) =>
        if claimsMerge && mergeSha.Err? then Err(mergeSha.error)
        else if !payload.updatedAt.Name? || !IsTimestamp(payload.updatedAt.name) then Err(InvalidResponse)
        else
          Ok(PullDetails(
               repository, number, url, payload.author.value.name, payload.state.name, payload.merged.flag,
               payload.draft.flag, headSha, baseSha, if claimsMerge then Some(mergeSha.value) else None,
               payload.updatedAt.name))
  }

  // ---- The CI summary ----

  function Classified(checks: CheckSummary, statuses: StatusSummary): Ci {
    if checks.hasFailure || statuses.state in {"error", "failure"} then Failure
    else if !(checks.complete && statuses.complete) then Partial
    else if checks.total + statuses.total == 0 then NoSignals
    else if checks.hasPending || statuses.state == "pending" then CiPending
    else Success
  }

  function EvidenceOf(details: PullDetails, checks: CheckSummary, statuses: StatusSummary): Evidence {
    Evidence(details, Classified(checks, statuses), checks.complete && statuses.complete,
             checks.observed, checks.total, statuses.observed, statuses.total)
  }

  // The three responses, each an object or the error its request ended in.
  datatype Responses = Responses(
    pull: Result<RawPull, ReceiptError>, checks: Result<RawChecks, ReceiptError>,
    statuses: Result<RawStatuses, ReceiptError>)

  function Inspected(reference: PullRequestRef, responses: Responses): Result<Evidence, ReceiptError> {
    match responses.pull
    case Err(e) => Err(e)
    case Ok(pull) =>
      match ParsePull(pull, reference)
      case Err(e) => Err(e)
      case Ok(details) =>
        match responses.checks
        case Err(e) => Err(e)
        case Ok(rawChecks) =>
          match Checked(rawChecks, details.headSha)
          case Err(e) => Err(e)
          case Ok(checks) =>
            match responses.statuses
            case Err(e) => Err(e)
            case Ok(rawStatuses) =>
              match ParseStatuses(rawStatuses, details.headSha)
              case Err(e) => Err(e)
              case Ok(statuses) => Ok(EvidenceOf(details, checks, statuses))
  }

  // Read off the raw responses, what each CI state means.
  ghost predicate CiIsTrue(ci: Ci, checks: RawChecks, statuses: RawStatuses, sha: string) {
    checks.runs.Some? && statuses.statuses.Some?
    && var runs := checks.runs.value;
       var failed := (exists k :: 0 <= k < |runs| && Failing(runs[k])) || IsName(statuses.state, {"error", "failure"});
       var whole := checks.total == Count(|runs|) && statuses.total == Count(statuses.statuses.value);
       && (ci.Success? <==> AllGreen(checks, statuses, sha))
       && (ci.Failure? <==> failed)
       && (ci.Partial? <==> !failed && !whole)
       && (ci.NoSignals? <==> !failed && whole && |runs| + statuses.statuses.value == 0)
  }

  // The evidence is about the asked pull request, and its CI state is what the
  // raw responses say.
  method Inspect(reference: PullRequestRef, responses: Responses) returns (r: Result<Evidence, ReceiptError>)
    ensures r == Inspected(reference, responses)
    ensures r.Ok? ==>
              && responses.checks.Ok? && responses.statuses.Ok?
              && CiIsTrue(r.value.ci, responses.checks.value, responses.statuses.value, r.value.details.headSha)
              && r.value.details.number == reference.number
              && Capabilities.Lower(r.value.details.repository) == Capabilities.Lower(reference.FullName())
  {
    if responses.pull.Err? {
      return Err(responses.pull.error);
    }
    var details := ParsePull(responses.pull.value, reference);
    if details.Err? {
      return Err(details.error);
    }
    if responses.checks.Err? {
      return Err(responses.checks.error);
    }
    var checks := ParseChecks(responses.checks.value, details.value.headSha);
    if checks.Err? {
      return Err(checks.error);
    }
    if responses.statuses.Err? {
      return Err(responses.statuses.error);
    }
    var statuses := ParseStatuses(responses.statuses.value, details.value.headSha);
    if statuses.Err? {
      return Err(statuses.error);
    }
    r := Ok(EvidenceOf(details.value, checks.value, statuses.value));
    PulledIsAsked(responses.pull.value, reference);
    ClassifiedTruly(responses.checks.value, responses.statuses.value, details.value.headSha);
  }

  lemma ClassifiedTruly(checks: RawChecks, statuses: RawStatuses, sha: string)
    requires Checked(checks, sha).Ok? && ParseStatuses(statuses, sha).Ok?
    ensures CiIsTrue(Classified(Checked(checks, sha).value, ParseStatuses(statuses, sha).value), checks, statuses, sha)
  {
    ClassifiedSuccess(checks, statuses, sha);
  }

  // What a successful CI claim must rest on: every record was seen, there is
  // one, every check run of this commit completed and did not fail, and the
  // combined state is success.
  predicate AllGreen(checks: RawChecks, statuses: RawStatuses, sha: string) {
    && checks.runs.Some? && checks.total == Count(|checks.runs.value|)
    && statuses.statuses.Some? && statuses.total == Count(statuses.statuses.value)
    && |checks.runs.value| + statuses.statuses.value > 0
    && (forall k :: 0 <= k < |checks.runs.value| ==>
                      Passing(checks.runs.value[k]) && checks.runs.value[k].headSha == Name(sha))
    && statuses.state == Name("success") && statuses.sha == Name(sha)
  }

  // Success is claimed exactly on such evidence, never on less.
  lemma SuccessIffAllGreen(reference: PullRequestRef, responses: Responses)
    ensures Inspected(reference, responses).Ok? ==>
              var e := Inspected(reference, responses).value;
              e.ci.Success? <==> AllGreen(responses.checks.value, responses.statuses.value, e.details.headSha)
  {
    if Inspected(reference, responses).Ok? {
      InspectedParts(reference, responses);
      ClassifiedSuccess(responses.checks.value, responses.statuses.value,
                        Inspected(reference, responses).value.details.headSha);
    }
  }

  lemma InspectedParts(reference: PullRequestRef, responses: Responses)
    requires Inspected(reference, responses).Ok?
    ensures responses.pull.Ok? && responses.checks.Ok? && responses.statuses.Ok?
    ensures ParsePull(responses.pull.value, reference).Ok?
    ensures var details := ParsePull(responses.pull.value, reference).value;
            && Checked(responses.checks.value, details.headSha).Ok?
            && ParseStatuses(responses.statuses.value, details.headSha).Ok?
            && Inspected(reference, responses).value
               == EvidenceOf(details, Checked(responses.checks.value, details.headSha).value,
                             ParseStatuses(responses.statuses.value, details.headSha).value)
  {
  }

  lemma ClassifiedSuccess(checks: RawChecks, statuses: RawStatuses, sha: string)
    requires Checked(checks, sha).Ok? && ParseStatuses(statuses, sha).Ok?
    ensures Classified(Checked(checks, sha).value, ParseStatuses(statuses, sha).value).Success?
            <==> AllGreen(checks, statuses, sha)
  {
    GreenRuns(checks.runs.value, sha);
  }

  lemma GreenRuns(runs: seq<RawRun>, sha: string)
    requires forall k :: 0 <= k < |runs| ==> Understood(runs[k], sha)
    ensures (forall k :: 0 <= k < |runs| ==> Passing(runs[k]) && runs[k].headSha == Name(sha))
            <==> !(exists k :: 0 <= k < |runs| && Failing(runs[k]))
                 && !(exists k :: 0 <= k < |runs| && !Completed(runs[k]))
  {
    forall k | 0 <= k < |runs|
      ensures Passing(runs[k]) <==> !Failing(runs[k]) && Completed(runs[k])
    {
      assert CHECK_FAILURES !! CHECK_NON_FAILURES;
    }
  }

  // ---- The signed receipt ----

  const RECEIPT_SCHEMA := "technocore-github-pr-receipt-v1"
  const RECEIPT_SOURCE := "github-public-rest"
  const GITHUB_API_VERSION := "2026-03-10"

  datatype ReceiptPayload = ReceiptPayload(
    schema: string, issuer: string, source: string, apiVersion: string,
    repository: string, pullNumber: int, url: UrlParts, author: string, state: string, merged: bool, draft: bool,
    headSha: string, baseSha: string, mergeSha: Option<string>, ci: Ci, ciDataComplete: bool,
    checksObserved: int, checksTotal: int, statusesObserved: int, statusesTotal: int,
    sourceUpdatedAt: string, observedAt: string)

  function PayloadOf(e: Evidence, issuer: string, observedAt: string): ReceiptPayload {
    var d := e.details;
    ReceiptPayload(
      RECEIPT_SCHEMA, issuer, RECEIPT_SOURCE, GITHUB_API_VERSION,
      d.repository, d.number, d.url, d.author, d.state, d.merged, d.draft, d.headSha, d.baseSha, d.mergeSha,
      e.ci, e.complete, e.checksObserved, e.checksTotal, e.statusesObserved, e.statusesTotal,
      d.updatedAt, observedAt)
  }

  function CheckHeader(p: ReceiptPayload): Result<(), ReceiptError> {
    if p.schema != RECEIPT_SCHEMA || p.source != RECEIPT_SOURCE || p.apiVersion != GITHUB_API_VERSION
       || !IsDid(p.issuer) then Err(InvalidReceipt)
    else Ok(())
  }

  function CheckSubject(p: ReceiptPayload): Result<(), ReceiptError> {
    match (ParseRepository(Name(p.repository)), RequireCount(Count(p.pullNumber)), ParseUrl(Some(p.url)))
    case (Ok(repository), Ok(number), Ok(reference)) =>
      if number == 0 || reference.FullName() != repository || reference.number != number then Err(InvalidReceipt)
      else if !IsAuthor(p.author) || p.state !in {"open", "closed"} then Err(InvalidReceipt)
      else Ok(())
    case (Err(e), _, _) => Err(e)
    case (_, Err(e), _) => Err(e)
    case (_, _, Err(e)) => Err(e)
  }

  function CheckCommits(p: ReceiptPayload): Result<(), ReceiptError> {
    if !IsSha(p.headSha) || !IsSha(p.baseSha) then Err(InvalidResponse)
    else if p.mergeSha.Some? && p.merged && !IsSha(p.mergeSha.value) then Err(InvalidResponse)
    else if p.mergeSha.Some? && !p.merged then Err(InvalidReceipt)
    else Ok(())
  }

  function CheckCi(p: ReceiptPayload): Result<(), ReceiptError> {
    var signals := p.checksTotal + p.statusesTotal;
    var countsComplete := p.checksObserved == p.checksTotal && p.statusesObserved == p.statusesTotal;
    if p.checksObserved < 0 || p.checksTotal < 0 || p.statusesObserved < 0 || p.statusesTotal < 0 then
      Err(InvalidResponse)
    else if p.checksObserved > p.checksTotal || p.statusesObserved > p.statusesTotal then Err(InvalidReceipt)
    else if p.ciDataComplete != countsComplete then Err(InvalidReceipt)
    else if p.ci.NoSignals? && signals != 0 then Err(InvalidReceipt)
    else if !p.ci.NoSignals? && signals == 0 then Err(InvalidReceipt)
    else if p.ci.Partial? && countsComplete then Err(InvalidReceipt)
    else if (p.ci.CiPending? || p.ci.Success?) && !countsComplete then Err(InvalidReceipt)
    else Ok(())
  }

  function CheckPayload(p: ReceiptPayload): Result<(), ReceiptError> {
    match (CheckHeader(p), CheckSubject(p), CheckCommits(p), CheckCi(p))
    case (Ok(_), Ok(_), Ok(_), Ok(_)) =>
      if IsTimestamp(p.sourceUpdatedAt) && IsTimestamp(p.observedAt) then Ok(()) else Err(InvalidResponse)
    case (Err(e), _, _, _) => Err(e)
    case (_, Err(e), _, _) => Err(e)
    case (_, _, Err(e), _) => Err(e)
    case (_, _, _, Err(e)) => Err(e)
  }

  datatype SignedReceipt = SignedReceipt(
    payload: ReceiptPayload, payloadDigest: Digest<ReceiptPayload>, signature: Signature<ReceiptPayload>)

  // `keyDid` is the DID of the signing key, `observedAt` the formatted clock.
  function BuildSignedReceipt(e: Evidence, issuer: string, keyDid: string, observedAt: string)
    : Result<SignedReceipt, ReceiptError>
  {
    if !IsDid(issuer) || keyDid != issuer then Err(IssuerMismatch)
    else
      var payload := PayloadOf(e, issuer, observedAt);
      match CheckPayload(payload)
      case Err(error) => Err(error)
      case Ok(_) => Ok(SignedReceipt(payload, Sha256(payload), Ed25519(keyDid, payload)))
  }

  function VerifySignedReceipt(receipt: SignedReceipt): Result<ReceiptPayload, ReceiptError> {
    match CheckPayload(receipt.payload)
    case Err(e) => Err(e)
    case Ok(_) =>
      if receipt.payloadDigest != Sha256(receipt.payload) then Err(InvalidReceipt)
      else if !Verifies(receipt.payload.issuer, receipt.payload, receipt.signature) then Err(InvalidReceipt)
      else Ok(receipt.payload)
  }

  // ---- When inspected evidence can be stated ----

  lemma CanonicalUrlParses(repository: string, number: nat)
    requires ParseRepository(Name(repository)).Ok?
    requires ParsePullRequest(CanonicalUrl(repository, number)).Ok?
    ensures var ref := ParsePullRequest(CanonicalUrl(repository, number)).value;
            ref.FullName() == repository && ref.number == number
  {
    var parts := Split(repository);
    var named := PullRequestRef(parts[0], parts[1], number);
    var ref := ParsePullRequest(CanonicalUrl(repository, number)).value;
    ParsesExactlyPrintedForms(CanonicalUrl(repository, number), ref);
    JoinOfSplit(repository);
    assert Join(parts[1..]) == parts[1];
    SameUrl(named, ref);
  }

  lemma SameUrl(a: PullRequestRef, b: PullRequestRef)
    requires IsOwner(a.owner) && IsRepository(a.repository) && IsOwner(b.owner) && IsRepository(b.repository)
    requires a.Url() == b.Url()
    ensures a == b
  {
    NoSlashes(a);
    NoSlashes(b);
    SplitOfJoin(a.Segments());
    SplitOfJoin(b.Segments());
    DecimalRoundTrip(a.number);
    DecimalRoundTrip(b.number);
    assert a.Segments()[1] == b.Segments()[1] && a.Segments()[2] == b.Segments()[2]
           && a.Segments()[4] == b.Segments()[4];
  }

  lemma NoSlashes(ref: PullRequestRef)
    requires IsOwner(ref.owner) && IsRepository(ref.repository)
    ensures forall part :: part in ref.Segments() ==> '/' !in part
  {
    DecimalRoundTrip(ref.number);
    assert forall k :: 0 <= k < |ref.Segments()| ==> '/' !in ref.Segments()[k];
  }

  lemma DetailsAreSound(pull: RawPull, reference: PullRequestRef, issuer: string, observedAt: string, e: Evidence)
    requires ParsePull(pull, reference) == Ok(e.details) && IsDid(issuer)
    ensures CheckHeader(PayloadOf(e, issuer, observedAt)).Ok?
    ensures CheckSubject(PayloadOf(e, issuer, observedAt)).Ok?
    ensures CheckCommits(PayloadOf(e, issuer, observedAt)).Ok?
    ensures IsTimestamp(e.details.updatedAt)
  {
    PulledSubject(pull, reference, e.details);
    PulledFacts(pull, e.details);
  }

  lemma PulledFacts(pull: RawPull, d: PullDetails)
    requires pull.base.Some? && ParseFacts(pull, d.repository, d.number, d.url) == Ok(d)
    ensures IsAuthor(d.author) && d.state in {"open", "closed"} && IsSha(d.headSha) && IsSha(d.baseSha)
    ensures d.mergeSha.Some? ==> d.merged && IsSha(d.mergeSha.value)
    ensures IsTimestamp(d.updatedAt)
  {
  }

  lemma PulledSubject(pull: RawPull, reference: PullRequestRef, d: PullDetails)
    requires ParsePull(pull, reference) == Ok(d)
    ensures d.number > 0 && ParseRepository(Name(d.repository)).Ok?
    ensures ParsePullRequest(d.url).Ok?
    ensures ParsePullRequest(d.url).value.FullName() == d.repository && ParsePullRequest(d.url).value.number == d.number
    ensures pull.base.Some? && ParseFacts(pull, d.repository, d.number, d.url) == Ok(d)
  {
    var canonical := ParsePullRequest(CanonicalUrl(d.repository, d.number)).value;
    CanonicalUrlParses(d.repository, d.number);
    ParsesExactlyPrintedForms(CanonicalUrl(d.repository, d.number), canonical);
    ParsesExactlyPrintedForms(canonical.Url(), canonical);
  }

  lemma FailingRunIsCounted(payload: RawChecks, sha: string)
    requires Checked(payload, sha).Ok? && Checked(payload, sha).value.hasFailure
    ensures Checked(payload, sha).value.total > 0
  {
  }

  // Inspected evidence makes a receipt exactly when it is not a failed
  // combined state without a single record behind it.
  lemma ReceiptIssuedIff(reference: PullRequestRef, responses: Responses, issuer: string, observedAt: string)
    ensures Inspected(reference, responses).Ok? && IsDid(issuer) && IsTimestamp(observedAt) ==>
              (BuildSignedReceipt(Inspected(reference, responses).value, issuer, issuer, observedAt).Ok?
               <==> !(IsName(responses.statuses.value.state, {"error", "failure"})
                      && responses.checks.value.total == Count(0) && responses.statuses.value.total == Count(0)))
  {
    if Inspected(reference, responses).Ok? && IsDid(issuer) && IsTimestamp(observedAt) {
      var e := Inspected(reference, responses).value;
      InspectedParts(reference, responses);
      DetailsAreSound(responses.pull.value, reference, issuer, observedAt, e);
      CiStatedIff(responses.checks.value, responses.statuses.value, e, issuer, observedAt);
    }
  }

  lemma CiStatedIff(checks: RawChecks, statuses: RawStatuses, e: Evidence, issuer: string, observedAt: string)
    requires Checked(checks, e.details.headSha).Ok? && ParseStatuses(statuses, e.details.headSha).Ok?
    requires e == EvidenceOf(e.details, Checked(checks, e.details.headSha).value,
                             ParseStatuses(statuses, e.details.headSha).value)
    ensures CheckCi(PayloadOf(e, issuer, observedAt)).Ok?
            <==> !(IsName(statuses.state, {"error", "failure"})
                   && checks.total == Count(0) && statuses.total == Count(0))
  {
    if Checked(checks, e.details.headSha).value.hasFailure {
      FailingRunIsCounted(checks, e.details.headSha);
    }
  }

  // Such a response: the inspection reports a failure, and no receipt can
  // state it.
  lemma FailureWithoutRecords(reference: PullRequestRef, pull: RawPull, issuer: string, observedAt: string)
    requires ParsePull(pull, reference).Ok? && IsDid(issuer) && IsTimestamp(observedAt)
    ensures var sha := ParsePull(pull, reference).value.headSha;
            var responses := Responses(Ok(pull), Ok(RawChecks(Count(0), Some([]))),
                                       Ok(RawStatuses(Name(sha), Name("failure"), Count(0), Some(0))));
            && Inspected(reference, responses).Ok? && Inspected(reference, responses).value.ci.Failure?
            && BuildSignedReceipt(Inspected(reference, responses).value, issuer, issuer, observedAt).Err?
  {
    var sha := ParsePull(pull, reference).value.headSha;
    assert IsSha(sha);
    var responses := Responses(Ok(pull), Ok(RawChecks(Count(0), Some([]))),
                               Ok(RawStatuses(Name(sha), Name("failure"), Count(0), Some(0))));
    assert Inspected(reference, responses).Ok?;
    ReceiptIssuedIff(reference, responses, issuer, observedAt);
  }

  // A built receipt verifies as the payload that was built.
  lemma BuiltReceiptVerifies(e: Evidence, issuer: string, observedAt: string)
    requires KeyFromDid(issuer).Ok?
    requires BuildSignedReceipt(e, issuer, issuer, observedAt).Ok?
    ensures VerifySignedReceipt(BuildSignedReceipt(e, issuer, issuer, observedAt).value)
            == Ok(PayloadOf(e, issuer, observedAt))
  {
  }

  // Whatever verifies does not overstate its own counts, whoever built it.
  lemma VerifiedReceiptIsConsistent(receipt: SignedReceipt)
    requires VerifySignedReceipt(receipt).Ok?
    ensures var p := VerifySignedReceipt(receipt).value;
            && (p.ci.Success? || p.ci.CiPending? ==>
                  p.checksObserved == p.checksTotal && p.statusesObserved == p.statusesTotal
                  && p.checksTotal + p.statusesTotal > 0)
            && (p.ci.Partial? ==> p.checksObserved < p.checksTotal || p.statusesObserved < p.statusesTotal)
            && (p.ci.NoSignals? <==> p.checksTotal == 0 && p.statusesTotal == 0)
            && receipt.signature == Ed25519(p.issuer, p)
  {
  }

  // ---- The issuing service ----

  // No two attempts lie closer together than the interval.
  predicate Apart(attempts: seq<real>, interval: real) {
    forall j, k :: 0 <= j < k < |attempts| ==> attempts[k] - attempts[j] >= interval
  }

  // The receipt is the issuer's, verifies, and is about this pull request.
  predicate StatesPull(receipt: SignedReceipt, reference: PullRequestRef, issuer: string) {
    && VerifySignedReceipt(receipt) == Ok(receipt.payload) && receipt.payload.issuer == issuer
    && receipt.payload.pullNumber == reference.number
    && Capabilities.Lower(receipt.payload.repository) == Capabilities.Lower(reference.FullName())
  }

  lemma PulledIsAsked(pull: RawPull, reference: PullRequestRef)
    requires ParsePull(pull, reference).Ok?
    ensures var d := ParsePull(pull, reference).value;
            d.number == reference.number
            && Capabilities.Lower(d.repository) == Capabilities.Lower(reference.FullName())
  {
  }

  // What is built from the responses to a reference states that reference.
  lemma BuiltReceiptStatesPull(reference: PullRequestRef, responses: Responses, issuer: string, observedAt: string)
    requires KeyFromDid(issuer).Ok? && Inspected(reference, responses).Ok?
    requires BuildSignedReceipt(Inspected(reference, responses).value, issuer, issuer, observedAt).Ok?
    ensures StatesPull(BuildSignedReceipt(Inspected(reference, responses).value, issuer, issuer, observedAt).value,
                       reference, issuer)
  {
    InspectedParts(reference, responses);
    PulledIsAsked(responses.pull.value, reference);
    BuiltReceiptVerifies(Inspected(reference, responses).value, issuer, observedAt);
  }

  const MESSAGE_LIMIT := 4096

  class ContributionReceiptService {
    const issuer: string
    const keyDid: string
    const minInterval: real
    // The JSON text of a receipt.
    const render: SignedReceipt -> string
    var lastAttemptAt: Option<real>
    ghost var attempts: seq<real>

    ghost predicate Valid()
      reads this
    {
      && minInterval >= 0.0 && KeyFromDid(keyDid).Ok?
      && lastAttemptAt == (if attempts == [] then None else Some(attempts[|attempts| - 1]))
      && Apart(attempts, minInterval)
    }

    constructor (issuer: string, keyDid: string, minInterval: real, render: SignedReceipt -> string)
      requires 0.0 <= minInterval <= 3600.0 && KeyFromDid(keyDid).Ok?
      ensures Valid() && attempts == [] && this.issuer == issuer && this.keyDid == keyDid
      ensures this.minInterval == minInterval && this.render == render
    {
      this.issuer, this.keyDid, this.minInterval, this.render := issuer, keyDid, minInterval, render;
      lastAttemptAt, attempts := None, [];
    }

    // `now` is the monotonic clock. GitHub is asked only in an attempt, and a
    // failed attempt delays the next one as a successful one does.
    method Issue(url: Option<UrlParts>, now: real, responses: Responses, observedAt: string)
      returns (r: Result<string, ReceiptError>, ghost receipt: Option<SignedReceipt>)
      requires Valid()
      modifies this
      ensures Valid()
      ensures var due := old(attempts) == [] || now - old(attempts)[|old(attempts)| - 1] >= minInterval;
              attempts == old(attempts) + (if ParseUrl(url).Ok? && due then [now] else [])
      ensures r.Ok? ==>
                && attempts == old(attempts) + [now]
                && receipt.Some? && r.value == render(receipt.value) && |r.value| <= MESSAGE_LIMIT
                && Inspected(ParseUrl(url).value, responses).Ok?
                && receipt.value.payload == PayloadOf(Inspected(ParseUrl(url).value, responses).value, issuer, observedAt)
                && StatesPull(receipt.value, ParseUrl(url).value, issuer)
      ensures ParseUrl(url).Ok? && attempts == old(attempts) ==>
                r.Err? && r.error.CooldownActive? && 0.0 <= r.error.retryAfter <= minInterval
    {
      receipt := None;
      var reference := ParseUrl(url);
      if reference.Err? {
        return Err(reference.error), receipt;
      }
      if lastAttemptAt.Some? {
        var elapsed := now - lastAttemptAt.value;
        if elapsed < minInterval {
          return Err(CooldownActive(minInterval - (if elapsed > 0.0 then elapsed else 0.0))), receipt;
        }
      }
      lastAttemptAt, attempts := Some(now), attempts + [now];
      r, receipt := State(reference.value, responses, observedAt);
    }

    // What an attempt comes to: the evidence, signed and rendered.
    method State(reference: PullRequestRef, responses: Responses, observedAt: string)
      returns (r: Result<string, ReceiptError>, ghost receipt: Option<SignedReceipt>)
      requires KeyFromDid(keyDid).Ok?
      ensures r.Ok? ==>
                && receipt.Some? && r.value == render(receipt.value) && |r.value| <= MESSAGE_LIMIT
                && Inspected(reference, responses).Ok?
                && receipt.value.payload == PayloadOf(Inspected(reference, responses).value, issuer, observedAt)
                && StatesPull(receipt.value, reference, issuer)
    {
      receipt := None;
      var evidence := Inspect(reference, responses);
      if evidence.Err? {
        return Err(evidence.error), receipt;
      }
      var built := BuildSignedReceipt(evidence.value, issuer, keyDid, observedAt);
      if built.Err? {
        return Err(built.error), receipt;
      }
      BuiltReceiptStatesPull(reference, responses, issuer, observedAt);
      receipt := Some(built.value);
      r := Render(built.value);
    }

    // A receipt is verified again before it is rendered.
    method Render(receipt: SignedReceipt) returns (r: Result<string, ReceiptError>)
      ensures r.Ok? <==> VerifySignedReceipt(receipt).Ok? && |render(receipt)| <= MESSAGE_LIMIT
      ensures r.Ok? ==> r.value == render(receipt)
    {
      var verified := VerifySignedReceipt(receipt);
      if verified.Err? {
        return Err(verified.error);
      }
      if |render(receipt)| > MESSAGE_LIMIT {
        return Err(ReceiptTooLarge);
      }
      r := Ok(render(receipt));
    }
  }
}
