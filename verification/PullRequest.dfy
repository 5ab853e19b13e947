// Canonical references to public GitHub pull requests. Splitting a URL into
// its parts is the caller's; this is the check on those parts.
module PullRequest {
  import opened Wrappers
  import opened Numerals

  datatype UrlParts = UrlParts(scheme: string, netloc: string, path: string, query: string, fragment: string)

  datatype UrlError = NotGitHubHttps | NotPullPath | InvalidOwnerOrRepository | NumberOutOfRange

  const MAX_PULL_NUMBER := 2_147_483_647

  predicate IsAlphanumeric(c: char) {
    'a' <= c <= 'z' || 'A' <= c <= 'Z' || '0' <= c <= '9'
  }

  // OWNER_PATTERN
  predicate IsOwner(owner: string) {
    && 1 <= |owner| <= 39
    && IsAlphanumeric(owner[0]) && IsAlphanumeric(owner[|owner| - 1])
    && forall k :: 0 <= k < |owner| ==> IsAlphanumeric(owner[k]) || owner[k] == '-'
  }

  // REPOSITORY_PATTERN without the names Git treats specially
  predicate IsRepository(name: string) {
    && 1 <= |name| <= 100
    && (forall k :: 0 <= k < |name| ==> IsAlphanumeric(name[k]) || name[k] == '_' || name[k] == '.' || name[k] == '-')
    && name != "." && name != ".." && !EndsWith(name, ".git")
  }

  predicate EndsWith(text: string, suffix: string) {
    |suffix| <= |text| && text[|text| - |suffix|..] == suffix
  }

  datatype PullRequestRef = PullRequestRef(owner: string, repository: string, number: nat)
  {
    function FullName(): string {
      owner + "/" + repository
    }

    function Url(): UrlParts {
      UrlParts("https", "github.com", Join(Segments()), "", "")
    }

    function Segments(): seq<string> {
      ["", owner, repository, "pull", Decimal(number)]
    }

    predicate Valid() {
      IsOwner(owner) && IsRepository(repository) && 1 <= number <= MAX_PULL_NUMBER
    }
  }

  // text.split("/")
  function Split(text: string): (parts: seq<string>)
    ensures parts != []
  {
    if '/' !in text then [text]
    else
      var i := FirstSlash(text);
      [text[..i]] + Split(text[i + 1..])
  }

  function FirstSlash(text: string): (i: nat)
    requires '/' in text
    ensures i < |text| && text[i] == '/' && '/' !in text[..i]
  {
    if text[0] == '/' then 0
    else
      assert '/' in text[1..];
      var rest := FirstSlash(text[1..]);
      assert text[..1 + rest] == [text[0]] + text[1..][..rest];
      1 + rest
  }

  // "/".join(parts)
  function Join(parts: seq<string>): string
    requires parts != []
  {
    if |parts| == 1 then parts[0] else parts[0] + "/" + Join(parts[1..])
  }

  lemma {:induction false} JoinOfSplit(text: string)
    ensures Join(Split(text)) == text
    ensures forall part :: part in Split(text) ==> '/' !in part
    decreases |text|
  {
    if '/' in text {
      var i := FirstSlash(text);
      JoinOfSplit(text[i + 1..]);
      assert Split(text)[1..] == Split(text[i + 1..]);
      assert text == text[..i] + "/" + text[i + 1..];
    }
  }

  lemma {:induction false} SplitOfJoin(parts: seq<string>)
    requires parts != [] && forall part :: part in parts ==> '/' !in part
    ensures Split(Join(parts)) == parts
    decreases |parts|
  {
    if |parts| > 1 {
      SplitOfJoin(parts[1..]);
      SplitFirst(parts[0], Join(parts[1..]));
    }
  }

  lemma SplitFirst(first: string, rest: string)
    requires '/' !in first
    ensures Split(first + "/" + rest) == [first] + Split(rest)
  {
    var text := first + "/" + rest;
    assert text[|first|] == '/';
    var i := FirstSlash(text);
    assert text[..i][..] == text[..i];
    assert i == |first| by {
      assert forall k :: 0 <= k < |first| ==> text[k] == first[k] && first[k] in first;
      assert forall k :: 0 <= k < i ==> text[k] in text[..i];
    }
    assert text[..i] == first && text[i + 1..] == rest;
  }

  lemma SameFirst(a: string, b: string, a': string, b': string)
    requires '/' !in a && '/' !in a' && a + "/" + b == a' + "/" + b'
    ensures a == a'
  {
    SplitFirst(a, b);
    SplitFirst(a', b');
    assert ([a] + Split(b))[0] == ([a'] + Split(b'))[0];
  }

  lemma SlashIsInjective(a: string, b: string, a': string, b': string)
    requires '/' !in a && '/' !in a' && '/' !in b && '/' !in b'
    ensures a + "/" + b == a' + "/" + b' <==> a == a' && b == b'
  {
    SplitFirst(a, b);
    SplitFirst(a', b');
    assert Split(b) == [b] && Split(b') == [b'];
    if a + "/" + b == a' + "/" + b' {
      assert [a] + [b] == [a'] + [b'];
      assert ([a] + [b])[0] == a && ([a] + [b])[1] == b;
    }
  }

  predicate IsNumberText(text: string) {
    text != "" && '1' <= text[0] <= '9' && forall k :: 0 <= k < |text| ==> '0' <= text[k] <= '9'
  }

  function ParsePullRequest(url: UrlParts): Result<PullRequestRef, UrlError> {
    if url.scheme != "https" || url.netloc != "github.com" || url.query != "" || url.fragment != "" then
      Err(NotGitHubHttps)
    else FromSegments(Split(url.path))
  }

  // The groups of /OWNER/REPO/pull/NUMBER
  function FromSegments(parts: seq<string>): Result<PullRequestRef, UrlError> {
    if |parts| != 5 || parts[0] != "" || parts[1] == "" || parts[2] == "" || parts[3] != "pull"
       || !IsNumberText(parts[4]) then Err(NotPullPath)
    else if !IsOwner(parts[1]) || !IsRepository(parts[2]) then Err(InvalidOwnerOrRepository)
    else if NumberOf(parts[4]) > MAX_PULL_NUMBER then Err(NumberOutOfRange)
    else Ok(PullRequestRef(parts[1], parts[2], NumberOf(parts[4])))
  }

  // Exactly the printed forms of valid references are accepted, each as the
  // reference it prints.
  lemma ParsesExactlyPrintedForms(url: UrlParts, ref: PullRequestRef)
    ensures ParsePullRequest(url) == Ok(ref) <==> ref.Valid() && url == ref.Url()
  {
    if ParsePullRequest(url) == Ok(ref) {
      AcceptedIsPrinted(url, ref);
    }
    if ref.Valid() && url == ref.Url() {
      PrintedIsAccepted(ref);
    }
  }

  lemma AcceptedIsPrinted(url: UrlParts, ref: PullRequestRef)
    requires ParsePullRequest(url) == Ok(ref)
    ensures ref.Valid() && url == ref.Url()
  {
    var parts := Split(url.path);
    JoinOfSplit(url.path);
    DecimalOfNumber(parts[4]);
    assert parts == ref.Segments();
  }

  lemma PrintedIsAccepted(ref: PullRequestRef)
    requires ref.Valid()
    ensures ParsePullRequest(ref.Url()) == Ok(ref)
  {
    SegmentsParse(ref);
    SplitOfJoin(ref.Segments());
  }

  lemma SegmentsParse(ref: PullRequestRef)
    requires ref.Valid()
    ensures FromSegments(ref.Segments()) == Ok(ref)
    ensures forall part :: part in ref.Segments() ==> '/' !in part
  {
    DecimalRoundTrip(ref.number);
    var parts := ref.Segments();
    assert forall k :: 0 <= k < |parts| ==> '/' !in parts[k];
  }
}
