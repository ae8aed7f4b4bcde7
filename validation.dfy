/**
 * Input validation for the revamp entry points (`app/utils/validation.py`).
 *
 * Both validators collect every problem into an `errors` list and every
 * non-fatal remark into a `warnings` list, without stopping at the first
 * problem; afterwards a non-empty `errors` list is raised as one
 * `ValidationError` whose message joins the errors with "; ".
 */
module Validation {
  import opened Wrappers
  import opened Strings
  import opened UrlParser
  import opened Requests

  /** The dictionary `validate_inputs` returns. */
  datatype Validated = Validated(
    githubUrl: Option<string>,
    hackathonUrl: Option<string>,
    hackathonContext: Option<string>,
    searchTopic: Option<string>,
    searchOrder: string,
    warnings: seq<string>,
    githubRepoName: Option<string>)

  const ValidSearchOrders: seq<string> := ["projects_first", "hackathons_first"]
  /** `str(valid_search_orders)`, as the f-string renders the list. */
  const ValidSearchOrdersText := "['projects_first', 'hackathons_first']"

  /** The errors `validate_inputs` can collect; `Text` is the message appended. */
  datatype InputError =
    | InvalidGithubUrl(url: string)
    | NoRepoName(url: string)
    | InvalidSearchOrder(order: string)
    | InsufficientInput
    | TopicTooShort
  {
    function Text(): string {
      match this
      case InvalidGithubUrl(url) => "Invalid GitHub URL: " + url
      case NoRepoName(url) => "Could not extract repository name from: " + url
      case InvalidSearchOrder(order) =>
        "Invalid search_order: " + order + ". Must be one of: " + ValidSearchOrdersText
      case InsufficientInput => "Must provide at least one of: github_url, hackathon_url, or search_topic"
      case TopicTooShort => "Search topic must be at least 2 characters long"
    }
  }

  /** The warnings `validate_inputs` can collect. */
  datatype InputWarning =
    | NotHackathonUrl(url: string)
    | TopicTooLong
    | ContextTooLong
  {
    function Text(): string {
      match this
      case NotHackathonUrl(url) => "URL may not be a hackathon website: " + url
      case TopicTooLong => "Search topic is very long, consider shortening it"
      case ContextTooLong => "Hackathon context is very long, consider shortening it"
    }
  }

  function ErrorTexts(errors: seq<InputError>): (r: seq<string>)
    ensures |r| == |errors| && forall k :: 0 <= k < |errors| ==> r[k] == errors[k].Text()
  {
    seq(|errors|, k requires 0 <= k < |errors| => errors[k].Text())
  }

  function WarningTexts(warnings: seq<InputWarning>): (r: seq<string>)
    ensures |r| == |warnings| && forall k :: 0 <= k < |warnings| ==> r[k] == warnings[k].Text()
  {
    seq(|warnings|, k requires 0 <= k < |warnings| => warnings[k].Text())
  }

  /** The single exception a non-empty list of messages is raised as. */
  function Raised(prefix: string, messages: seq<string>): Exception {
    Exception(ValidationError, prefix + Join(messages, "; "))
  }

  // ---- What `validate_inputs` collects, one check at a time ----

  function GithubErrors(githubUrl: Option<string>): seq<InputError> {
    if !Truthy(githubUrl) then []
    else
      var url := githubUrl.value;
      if !ValidateGithubUrl(url) then [InvalidGithubUrl(url)]
      else if ExtractGithubRepo(url).None? then [NoRepoName(url)]
      else []
  }

  function OrderErrors(order: string): seq<InputError> {
    if order !in ValidSearchOrders then [InvalidSearchOrder(order)] else []
  }

  function SufficiencyErrors(req: Request): seq<InputError> {
    if !Truthy(req.githubUrl) && !Truthy(req.hackathonUrl) && !Truthy(req.searchTopic)
    then [InsufficientInput] else []
  }

  function TopicErrors(topic: Option<string>): seq<InputError> {
    if Truthy(topic) && |Strip(topic.value)| < 2 then [TopicTooShort] else []
  }

  /** Every error of a request, in the order the checks run. */
  function InputErrors(req: Request): seq<InputError> {
    GithubErrors(req.githubUrl) + OrderErrors(req.searchOrder) + SufficiencyErrors(req)
    + TopicErrors(req.searchTopic)
  }

  function HackathonWarnings(hackathonUrl: Option<string>): seq<InputWarning> {
    if Truthy(hackathonUrl) && !ValidateHackathonUrl(hackathonUrl.value)
    then [NotHackathonUrl(hackathonUrl.value)] else []
  }

  function TopicWarnings(topic: Option<string>): seq<InputWarning> {
    if Truthy(topic) && |topic.value| > 100 then [TopicTooLong] else []
  }

  function ContextWarnings(context: Option<string>): seq<InputWarning> {
    if Truthy(context) && |context.value| > 1000 then [ContextTooLong] else []
  }

  /** Every warning of a request, in the order the checks run. */
  function InputWarnings(req: Request): seq<InputWarning> {
    HackathonWarnings(req.hackathonUrl) + TopicWarnings(req.searchTopic)
    + ContextWarnings(req.hackathonContext)
  }

  /** The outcome of `validate_inputs`: the raised error, or the normalised dictionary. */
  function InputsOutcome(req: Request): Result<Validated, Exception> {
    var errors := InputErrors(req);
    if |errors| > 0 then Failure(Raised("Validation failed: ", ErrorTexts(errors)))
    else
      Success(Validated(req.githubUrl, req.hackathonUrl, req.hackathonContext, req.searchTopic,
        req.searchOrder, WarningTexts(InputWarnings(req)),
        if Truthy(req.githubUrl) then ExtractGithubRepo(req.githubUrl.value) else None))
  }

  /** `validate_inputs`: the checks append to `errors` and `warnings` in source order. */
  method ValidateInputs(req: Request) returns (outcome: Result<Validated, Exception>)
    ensures outcome == InputsOutcome(req)
  {
    var errors: seq<InputError> := [];
    var warnings: seq<InputWarning> := [];
    errors := CheckGithubUrl(errors, req.githubUrl);
    assert errors == GithubErrors(req.githubUrl);
    warnings := CheckHackathonUrl(warnings, req.hackathonUrl);
    assert warnings == HackathonWarnings(req.hackathonUrl);
    errors := CheckSearchOrder(errors, req.searchOrder);
    errors := CheckSufficiency(errors, req);
    errors, warnings := CheckSearchTopic(errors, warnings, req.searchTopic);
    warnings := CheckHackathonContext(warnings, req.hackathonContext);
    assert warnings == InputWarnings(req);
    if |errors| > 0 {
      return Failure(Raised("Validation failed: ", ErrorTexts(errors)));
    }
    var repoName := if Truthy(req.githubUrl) then ExtractGithubRepo(req.githubUrl.value) else None;
    return Success(Validated(req.githubUrl, req.hackathonUrl, req.hackathonContext, req.searchTopic,
      req.searchOrder, WarningTexts(warnings), repoName));
  }

  /** "Validate GitHub URL". */
  method CheckGithubUrl(errors: seq<InputError>, githubUrl: Option<string>) returns (r: seq<InputError>)
    ensures r == errors + GithubErrors(githubUrl)
  {
    r := errors;
    if Truthy(githubUrl) {
      var url := githubUrl.value;
      if !ValidateGithubUrl(url) {
        r := r + [InvalidGithubUrl(url)];
      } else {
        var repoName := ExtractGithubRepo(url);
        if repoName.None? {
          r := r + [NoRepoName(url)];
        }
      }
    }
  }

  /** "Validate hackathon URL": a URL failing the heuristic is only a warning. */
  method CheckHackathonUrl(warnings: seq<InputWarning>, hackathonUrl: Option<string>)
    returns (r: seq<InputWarning>)
    ensures r == warnings + HackathonWarnings(hackathonUrl)
  {
    r := warnings;
    if Truthy(hackathonUrl) {
      if !ValidateHackathonUrl(hackathonUrl.value) {
        r := r + [NotHackathonUrl(hackathonUrl.value)];
      }
    }
  }

  /** "Validate search order". */
  method CheckSearchOrder(errors: seq<InputError>, order: string) returns (r: seq<InputError>)
    ensures r == errors + OrderErrors(order)
  {
    r := errors;
    if order !in ValidSearchOrders {
      r := r + [InvalidSearchOrder(order)];
    }
  }

  /** "Check if we have enough information". */
  method CheckSufficiency(errors: seq<InputError>, req: Request) returns (r: seq<InputError>)
    ensures r == errors + SufficiencyErrors(req)
  {
    r := errors;
    if !Truthy(req.githubUrl) && !Truthy(req.hackathonUrl) && !Truthy(req.searchTopic) {
      r := r + [InsufficientInput];
    }
  }

  /** "Validate search topic": too short is an error, too long only a warning. */
  method CheckSearchTopic(errors: seq<InputError>, warnings: seq<InputWarning>, topic: Option<string>)
    returns (r: seq<InputError>, w: seq<InputWarning>)
    ensures r == errors + TopicErrors(topic)
    ensures w == warnings + TopicWarnings(topic)
  {
    r, w := errors, warnings;
    if Truthy(topic) {
      if |Strip(topic.value)| < 2 {
        r := r + [TopicTooShort];
      }
      if |topic.value| > 100 {
        w := w + [TopicTooLong];
      }
    }
  }

  /** "Validate hackathon context": only ever a warning. */
  method CheckHackathonContext(warnings: seq<InputWarning>, context: Option<string>)
    returns (w: seq<InputWarning>)
    ensures w == warnings + ContextWarnings(context)
  {
    w := warnings;
    if Truthy(context) && |context.value| > 1000 {
      w := w + [ContextTooLong];
    }
  }

  // ---- Properties of `validate_inputs` ----

  /** The joined message of a raised list of messages mentions each of them. */
  lemma RaisedMentions(prefix: string, messages: seq<string>, k: nat)
    requires k < |messages|
    ensures Contains(Raised(prefix, messages).message, messages[k])
  {
    JoinContainsPart(messages, "; ", k);
    ContainsPrepend(prefix, Join(messages, "; "), messages[k]);
  }

  /** A request is accepted exactly when each fatal check passes. */
  lemma AcceptedIff(req: Request)
    ensures InputsOutcome(req).Success? <==>
      (Truthy(req.githubUrl) ==> ValidateGithubUrl(req.githubUrl.value))
      && req.searchOrder in ValidSearchOrders
      && (Truthy(req.githubUrl) || Truthy(req.hackathonUrl) || Truthy(req.searchTopic))
      && (Truthy(req.searchTopic) ==> |Strip(req.searchTopic.value)| >= 2)
  {
    if Truthy(req.githubUrl) && ValidateGithubUrl(req.githubUrl.value) {
      assert GithubErrors(req.githubUrl) == [];
    }
  }

  /** A rejected request raises a `ValidationError` carrying every error, joined in source order. */
  lemma RejectedMessage(req: Request)
    requires InputsOutcome(req).Failure?
    ensures InputsOutcome(req).error.kind == ValidationError
    ensures InputsOutcome(req).error.message == "Validation failed: " + Join(ErrorTexts(InputErrors(req)), "; ")
    ensures |InputErrors(req)| > 0
  {
  }

  /** With no GitHub URL, no hackathon URL and no topic, the request is refused as insufficient. */
  lemma NothingGivenRaises(req: Request)
    requires !Truthy(req.githubUrl) && !Truthy(req.hackathonUrl) && !Truthy(req.searchTopic)
    ensures InputsOutcome(req).Failure?
    ensures InputsOutcome(req).error.kind == ValidationError
    ensures Contains(InputsOutcome(req).error.message, InsufficientInput.Text())
  {
    var errors := InputErrors(req);
    assert errors == OrderErrors(req.searchOrder) + [InsufficientInput];
    var k := |OrderErrors(req.searchOrder)|;
    assert ErrorTexts(errors)[k] == InsufficientInput.Text();
    RaisedMentions("Validation failed: ", ErrorTexts(errors), k);
  }

  /** The GitHub error comes first, then the search-order error, then insufficiency, then the topic. */
  lemma ErrorOrder(req: Request)
    requires Truthy(req.githubUrl) && !ValidateGithubUrl(req.githubUrl.value)
    requires req.searchOrder !in ValidSearchOrders
    requires Truthy(req.searchTopic) && |Strip(req.searchTopic.value)| < 2
    ensures InputErrors(req) ==
      [InvalidGithubUrl(req.githubUrl.value), InvalidSearchOrder(req.searchOrder), TopicTooShort]
  {
    InvalidGithubErrors(req.githubUrl);
    assert SufficiencyErrors(req) == [];
    ErrorsInOrder(req, InvalidGithubUrl(req.githubUrl.value), InvalidSearchOrder(req.searchOrder), TopicTooShort);
  }

  /** Errors from the GitHub, order and topic checks, with no insufficiency error, are listed in that order. */
  lemma ErrorsInOrder(req: Request, g: InputError, o: InputError, t: InputError)
    requires GithubErrors(req.githubUrl) == [g] && OrderErrors(req.searchOrder) == [o]
    requires SufficiencyErrors(req) == [] && TopicErrors(req.searchTopic) == [t]
    ensures InputErrors(req) == [g, o, t]
  {
    assert [g] + [o] + [] + [t] == [g, o, t];
  }

  /** A given GitHub URL that fails validation yields exactly the one invalid-URL error. */
  lemma InvalidGithubErrors(githubUrl: Option<string>)
    requires Truthy(githubUrl) && !ValidateGithubUrl(githubUrl.value)
    ensures GithubErrors(githubUrl) == [InvalidGithubUrl(githubUrl.value)]
  {
  }

  /** A search order outside the two valid ones is always fatal, and is reported in the message. */
  lemma BadOrderRaises(req: Request)
    requires req.searchOrder !in ValidSearchOrders
    ensures InputsOutcome(req).Failure?
    ensures Contains(InputsOutcome(req).error.message, InvalidSearchOrder(req.searchOrder).Text())
  {
    var errors := InputErrors(req);
    var k := |GithubErrors(req.githubUrl)|;
    assert errors[k] == InvalidSearchOrder(req.searchOrder);
    RaisedMentions("Validation failed: ", ErrorTexts(errors), k);
  }

  /**
   * A hackathon URL never causes an error: which non-empty hackathon URL is
   * given makes no difference to the errors, and a URL failing the heuristic
   * only adds the one warning.
   */
  lemma HackathonUrlOnlyWarns(req: Request, other: string)
    requires Truthy(req.hackathonUrl) && other != ""
    ensures InputErrors(req) == InputErrors(req.(hackathonUrl := Some(other)))
    ensures NotHackathonUrl(req.hackathonUrl.value) in InputWarnings(req)
        <==> !ValidateHackathonUrl(req.hackathonUrl.value)
  {
  }

  /** A topic of under two characters after stripping is fatal, and is reported in the message. */
  lemma ShortTopicRaises(req: Request)
    requires Truthy(req.searchTopic) && |Strip(req.searchTopic.value)| < 2
    ensures InputsOutcome(req).Failure?
    ensures Contains(InputsOutcome(req).error.message, TopicTooShort.Text())
  {
    var errors := InputErrors(req);
    var k := |errors| - 1;
    assert errors[k] == TopicTooShort;
    RaisedMentions("Validation failed: ", ErrorTexts(errors), k);
  }

  /**
   * Length limits on the topic (100) and the context (1000) never cause an
   * error: the errors do not depend on the context at all, nor on the topic
   * beyond whether its stripped length is under 2.
   */
  lemma LengthsNeverFatal(req: Request, topic: string, context: Option<string>)
    requires Truthy(req.searchTopic) && topic != ""
    requires (|Strip(topic)| < 2) == (|Strip(req.searchTopic.value)| < 2)
    ensures InputErrors(req) == InputErrors(req.(searchTopic := Some(topic), hackathonContext := context))
  {
  }

  /** A topic longer than 100 characters adds the long-topic warning, and only then. */
  lemma LongTopicWarns(req: Request)
    ensures TopicTooLong in InputWarnings(req) <==> Truthy(req.searchTopic) && |req.searchTopic.value| > 100
  {
  }

  /** A context longer than 1000 characters adds the long-context warning, and only then. */
  lemma LongContextWarns(req: Request)
    ensures ContextTooLong in InputWarnings(req)
        <==> Truthy(req.hackathonContext) && |req.hackathonContext.value| > 1000
  {
  }

  /** The "could not extract" error is never produced: a valid GitHub URL always extracts. */
  lemma NoRepoNameNeverReported(req: Request)
    ensures GithubErrors(req.githubUrl) ==
      if Truthy(req.githubUrl) && !ValidateGithubUrl(req.githubUrl.value)
      then [InvalidGithubUrl(req.githubUrl.value)] else []
  {
  }

  /** An accepted request with a GitHub URL carries an `owner/repo` name for it. */
  lemma AcceptedHasRepoName(req: Request)
    requires InputsOutcome(req).Success? && Truthy(req.githubUrl)
    ensures InputsOutcome(req).value.githubRepoName.Some?
    ensures RepoShape(InputsOutcome(req).value.githubRepoName.value)
  {
    assert GithubErrors(req.githubUrl) == [];
  }

  // ---- `validate_implementation_inputs` ----

  /** The dictionary `validate_implementation_inputs` returns. */
  datatype ImplementationRequest = ImplementationRequest(
    githubUrl: Option<string>,
    implementChanges: bool,
    forkRepo: bool,
    branchName: string)

  datatype ImplementationValidated = ImplementationValidated(
    githubUrl: Option<string>,
    implementChanges: bool,
    forkRepo: bool,
    branchName: string,
    warnings: seq<string>,
    githubRepoName: Option<string>)

  /** The errors `validate_implementation_inputs` can collect. */
  datatype ImplementationError =
    | UrlRequired
    | InvalidImplementationUrl(url: string)
    | InvalidBranch(branch: string)
    | BranchTooLong
    | BranchHyphen
  {
    function Text(): string {
      match this
      case UrlRequired => "github_url is required when implement_changes=True"
      case InvalidImplementationUrl(url) => "Invalid GitHub URL for implementation: " + url
      case InvalidBranch(branch) => "Invalid branch name: " + branch
      case BranchTooLong => "Branch name is too long (max 100 characters)"
      case BranchHyphen => "Branch name cannot start or end with hyphen"
    }
  }

  function ImplementationErrorTexts(errors: seq<ImplementationError>): (r: seq<string>)
    ensures |r| == |errors| && forall k :: 0 <= k < |errors| ==> r[k] == errors[k].Text()
  {
    seq(|errors|, k requires 0 <= k < |errors| => errors[k].Text())
  }

  /** The only warning `validate_implementation_inputs` can collect. */
  const ForkIgnored := "fork_repo=True has no effect when implement_changes=False"
  /** `str(e)` of the `NameError` the unimported `re` module raises. */
  const ReUndefined := "name 're' is not defined"

  function ImplementationUrlErrors(req: ImplementationRequest): seq<ImplementationError> {
    if !req.implementChanges then []
    else if !Truthy(req.githubUrl) then [UrlRequired]
    else if !ValidateGithubUrl(req.githubUrl.value) then [InvalidImplementationUrl(req.githubUrl.value)]
    else []
  }

  function ForkWarnings(req: ImplementationRequest): seq<string> {
    if req.forkRepo && !req.implementChanges then [ForkIgnored] else []
  }

  /** Raise the collected errors, or return the dictionary with the collected warnings. */
  function ImplementationVerdict(req: ImplementationRequest, errors: seq<ImplementationError>,
    warnings: seq<string>): Result<ImplementationValidated, Exception>
  {
    if |errors| > 0 then Failure(Raised("Implementation validation failed: ", ImplementationErrorTexts(errors)))
    else
      Success(ImplementationValidated(req.githubUrl, req.implementChanges, req.forkRepo,
        req.branchName, warnings,
        if Truthy(req.githubUrl) then ExtractGithubRepo(req.githubUrl.value) else None))
  }

  /**
   * The outcome of `validate_implementation_inputs` as written: the branch-name
   * check calls `re.match` without `re` being imported, so every non-empty
   * branch name raises `NameError` before any error is reported.
   */
  function ImplementationOutcome(req: ImplementationRequest): Result<ImplementationValidated, Exception> {
    if req.branchName != "" then Failure(Exception(NameError, ReUndefined))
    else ImplementationVerdict(req, ImplementationUrlErrors(req), ForkWarnings(req))
  }

  method ValidateImplementationInputs(req: ImplementationRequest)
    returns (outcome: Result<ImplementationValidated, Exception>)
    ensures outcome == ImplementationOutcome(req)
  {
    var errors: seq<ImplementationError> := [];
    var warnings: seq<string> := [];
    if req.implementChanges {
      if !Truthy(req.githubUrl) {
        errors := errors + [UrlRequired];
      } else if !ValidateGithubUrl(req.githubUrl.value) {
        errors := errors + [InvalidImplementationUrl(req.githubUrl.value)];
      }
    }
    if req.branchName != "" {
      // `re.match` is the first thing evaluated here, and `re` is unbound.
      return Failure(Exception(NameError, ReUndefined));
    }
    if req.forkRepo && !req.implementChanges {
      warnings := warnings + [ForkIgnored];
    }
    assert errors == ImplementationUrlErrors(req);
    assert warnings == ForkWarnings(req);
    if |errors| > 0 {
      return Failure(Raised("Implementation validation failed: ", ImplementationErrorTexts(errors)));
    }
    var repoName := if Truthy(req.githubUrl) then ExtractGithubRepo(req.githubUrl.value) else None;
    return Success(ImplementationValidated(req.githubUrl, req.implementChanges, req.forkRepo,
      req.branchName, warnings, repoName));
  }

  /** Every non-empty branch name, the default "hackathon-revamp" included, ends in `NameError`. */
  lemma BranchNameRaisesNameError(req: ImplementationRequest)
    requires req.branchName != ""
    ensures ImplementationOutcome(req) == Failure(Exception(NameError, ReUndefined))
    ensures ImplementationOutcome(req.(branchName := "hackathon-revamp")).error.kind == NameError
  {
  }

  /** With an empty branch name, implementing without a GitHub URL is fatal. */
  lemma ImplementWithoutUrlRaises(req: ImplementationRequest)
    requires req.branchName == "" && req.implementChanges && !Truthy(req.githubUrl)
    ensures ImplementationOutcome(req) == Failure(Raised("Implementation validation failed: ", [UrlRequired.Text()]))
  {
  }

  /** With an empty branch name, forking without implementing is accepted with exactly one warning. */
  lemma ForkWithoutImplementWarns(req: ImplementationRequest)
    requires req.branchName == "" && req.forkRepo && !req.implementChanges
    ensures ImplementationOutcome(req).Success?
    ensures ImplementationOutcome(req).value.warnings == [ForkIgnored]
  {
  }

  /** An accepted implementation request that asks for changes names a valid, extractable repository. */
  lemma ImplementationAcceptedHasRepo(req: ImplementationRequest)
    requires ImplementationOutcome(req).Success? && req.implementChanges
    ensures Truthy(req.githubUrl) && ValidateGithubUrl(req.githubUrl.value)
    ensures ImplementationOutcome(req).value.githubRepoName.Some?
  {
  }

  // ---- The branch-name rules the code evidently intends (lines 116-123) ----

  predicate BranchChar(c: char) {
    ('a' <= c <= 'z') || ('A' <= c <= 'Z') || ('0' <= c <= '9') || c == '.' || c == '_' || c == '/' || c == '-'
  }

  predicate AllBranchChars(s: string) {
    forall i :: 0 <= i < |s| ==> BranchChar(s[i])
  }

  /** `re.match(r'^[a-zA-Z0-9._/-]+$', s)`; `$` also matches before a final newline. */
  predicate BranchPatternMatches(s: string) {
    (|s| > 0 && AllBranchChars(s))
    || (|s| > 1 && s[|s| - 1] == '\n' && AllBranchChars(s[..|s| - 1]))
  }

  function BranchErrors(branch: string): seq<ImplementationError> {
    if branch == "" then []
    else
      (if !BranchPatternMatches(branch) then [InvalidBranch(branch)] else [])
      + (if |branch| > 100 then [BranchTooLong] else [])
      + (if branch[0] == '-' || branch[|branch| - 1] == '-' then [BranchHyphen] else [])
  }

  /** `validate_implementation_inputs` with `re` imported. */
  function ImplementationOutcomeIntended(req: ImplementationRequest)
    : Result<ImplementationValidated, Exception>
  {
    ImplementationVerdict(req, ImplementationUrlErrors(req) + BranchErrors(req.branchName), ForkWarnings(req))
  }

  /** The two definitions agree whenever the branch-name check is skipped. */
  lemma IntendedAgreesWithoutBranch(req: ImplementationRequest)
    requires req.branchName == ""
    ensures ImplementationOutcomeIntended(req) == ImplementationOutcome(req)
  {
    assert ImplementationUrlErrors(req) + BranchErrors(req.branchName) == ImplementationUrlErrors(req);
  }

  /**
   * Under the intended rules a branch name is accepted exactly when it matches
   * the pattern, has at most 100 characters and neither starts nor ends with a
   * hyphen; the default name is accepted.
   */
  lemma IntendedBranchRules(branch: string)
    requires branch != ""
    ensures BranchErrors(branch) == [] <==>
      BranchPatternMatches(branch) && |branch| <= 100 && branch[0] != '-' && branch[|branch| - 1] != '-'
    ensures BranchErrors("hackathon-revamp") == []
  {
    var d := "hackathon-revamp";
    assert AllBranchChars(d) by {
      forall i | 0 <= i < |d| ensures BranchChar(d[i]) {
        assert d[i] in "hackathon-revamp";
      }
    }
  }

  /** Under the intended rules, a branch that starts with a hyphen is refused and the message says so. */
  lemma IntendedRefusesHyphen(req: ImplementationRequest)
    requires req.branchName != "" && req.branchName[0] == '-'
    ensures ImplementationOutcomeIntended(req).Failure?
    ensures Contains(ImplementationOutcomeIntended(req).error.message, BranchHyphen.Text())
  {
    var errors := ImplementationUrlErrors(req) + BranchErrors(req.branchName);
    var k := |errors| - 1;
    assert errors[k] == BranchHyphen;
    RaisedMentions("Implementation validation failed: ", ImplementationErrorTexts(errors), k);
  }
}
