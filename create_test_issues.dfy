/** The decision procedure of the create-test-issues action (`run()` in index.js).
    The run is triggered by a project card event. It checks that the card is an
    issue card, looks the issue up, and accepts it only if it is closed and sits on
    the validation project. It then resolves the ids of the target project, the
    assignees, the labels and the repository, and builds the single `createIssue`
    request.

    Every remote lookup is answered by an oracle (`Remote`). The run is modelled
    twice. `Workflow` is the specification function. `Run` is the step-by-step
    method with the two accumulating loops, and it is proved equal to `Workflow`.
    The lemmas at the end state what the JavaScript as written does, including
    the branches that behave differently from how they read. */
module CreateTestIssues {
  import opened JsStrings

  datatype Option<T> = None | Some(value: T)

  /** A non-empty id string returned by the API (the empty string would be falsy). */
  type Token = s: string | |s| > 0 witness "0"

  /** What a getter returns. Fault is an exception from the getter: the
      TypeError that reading a field of a null intermediate object of the
      response raises, and also a failed request or an unparsable reply, which
      the model records as the same TypeError. Falsy is a null, undefined or
      empty value at the requested field. Found is a truthy value. */
  datatype Reply<T> = Fault | Falsy | Found(value: T)

  /** A node of `issue.projectCards.nodes`. `number` is the node's own top-level
      field, which the eligibility test reads. `project` is `project { number }`,
      the only field the issue query fetches. */
  datatype CardNode = CardNode(number: Option<int>, project: Option<int>)

  /** The `issue` object of the issue query (its unused `id` is not modelled). */
  datatype IssueData = IssueData(state: string, title: string, nodes: seq<CardNode>)

  /** One remote lookup with the variables it sends. A project number or issue
      number is the string handed to `parseInt`. `name` is None when the
      `repository` input has no `/`, so that `split('/')[1]` is undefined. */
  datatype Lookup =
    | IssueLookup(owner: string, name: Option<string>, number: string)
    | ProjectLookup(owner: string, name: Option<string>, number: string)
    | UserLookup(login: string)
    | LabelLookup(owner: string, name: Option<string>, labelName: string)
    | RepositoryLookup(owner: string, name: Option<string>)

  /** The oracle for the remote service. `issue` answers the issue query
      (getIssueData). `id` answers the id lookups (getProjectId, getAssigneeId,
      getLabelId and getRepositoryId). */
  datatype Remote = Remote(issue: Lookup -> Reply<IssueData>, id: Lookup -> Reply<Token>)

  /** The action inputs as `core.getInput` returns them. `validationProject` is
      `parseInt(validationProject)` already applied, with None for NaN. */
  datatype Inputs = Inputs(
    repository: string,
    targetProject: string,
    validationProject: Option<int>,
    newIssueSuffix: string,
    assignees: string,
    labels: string)

  /** What the body of the `try` can throw. The thrown strings keep the parts
      they interpolate. The label loop throws "Invalid assignee" too. */
  datatype Thrown =
    | TypeError
    | AssigneesMissing
    | LabelsMissing
    | IssueNotFound(issueNumber: string)
    | TargetProjectNotFound
    | InvalidAssignee(name: string)

  /** The early `return`s of the `try` block. */
  datatype SkipReason = NotIssueCard | NotClosed | NotOnValidationProject

  /** The `createIssueInput` record of the createIssue mutation. A None
      `repositoryId` stands for the falsy value that was never checked. */
  datatype CreateIssueInput = CreateIssueInput(
    assigneeIds: seq<Token>,
    body: string,
    clientMutationId: Option<string>,
    labelIds: seq<Token>,
    milestoneId: Option<string>,
    projectIds: seq<Token>,
    repositoryId: Option<Token>,
    title: string)

  /** How a run ends. Failed is the `catch`: `core.setFailed(error.message)`,
      where `error.message` is undefined for a thrown string and the
      TypeError's text otherwise; the model keeps the thrown value. Skipped is
      an early `return`. Created means the mutation was sent with this input. */
  datatype Outcome =
    | Failed(thrown: Thrown)
    | Skipped(reason: SkipReason)
    | Created(request: CreateIssueInput)

  /** The outcome of a run together with the lookups it issued, in order. */
  datatype Execution = Execution(outcome: Outcome, calls: seq<Lookup>)

  /** The result of evaluating a JavaScript expression that may throw. */
  datatype Eval<T> = Returns(value: T) | Throws(thrown: Thrown)

  // ---------------------------------------------------------------------------
  // The two string helpers

  /** isIssueCard: `contentUrl.split('/').find(x => x === 'issues').length`.
      find yields "issues" (length 6) when some segment equals it. Otherwise it
      yields undefined, and reading `.length` throws. A card without a content
      URL throws already at `split`. */
  function IsIssueCard(contentUrl: Option<string>): (r: Eval<nat>)
    ensures r == if contentUrl.Some? && HasSegment(contentUrl.value, "issues", '/')
                 then Returns(6) else Throws(TypeError)
  {
    if contentUrl.None? then Throws(TypeError)
    else
      SplitSegments(contentUrl.value, '/', "issues");
      if "issues" in Split(contentUrl.value, '/') then Returns(|"issues"|) else Throws(TypeError)
  }

  /** getIssueNumber: the last element of `contentUrl.split('/')`. */
  function GetIssueNumber(contentUrl: string): (n: string)
    ensures FinalSegment(contentUrl, '/', n)
  {
    LastPartIsFinalSegment(contentUrl, '/');
    Last(Split(contentUrl, '/'))
  }

  // ---------------------------------------------------------------------------
  // The parts of run() that are single expressions

  datatype Parsed = Parsed(
    owner: string,
    name: Option<string>,
    assignees: seq<string>,
    labels: seq<string>,
    issueNumber: string)

  datatype Step<T> = Continue(value: T) | Stop(outcome: Outcome)

  /** `owner` and `name` are `repository.split('/')[0]` and `[1]`, described
      without split: `owner` is the text before the first `/` (all of it when
      there is none), and `name`, present exactly when there is a `/`, is the
      text from there up to the next `/` or the end. */
  ghost predicate RepositoryPath(repository: string, owner: string, name: Option<string>)
  {
    && '/' !in owner
    && (name.None? <==> '/' !in repository)
    && (name.None? ==> owner == repository)
    && (name.Some? ==>
          var path := owner + "/" + name.value;
          && '/' !in name.value
          && path <= repository
          && (|path| == |repository| || repository[|path|] == '/'))
  }

  lemma RepositoryParts(repository: string)
    ensures var parts := Split(repository, '/');
            RepositoryPath(repository, parts[0], if |parts| > 1 then Some(parts[1]) else None)
  {
    var parts := Split(repository, '/');
    SplitFirstParts(repository, '/');
    SplitPartsHaveNoSeparator(repository, '/');
    if '/' in repository {
      SecondPart(repository, '/');
    } else {
      assert repository[..FirstIndex(repository, '/')] == repository;
    }
  }

  /** The synchronous start of the `try` block, up to the first request:
      the issue-card test, input parsing, the two "missing" checks and the
      issue number. */
  function Prelude(contentUrl: Option<string>, inputs: Inputs): (r: Step<Parsed>)
    ensures r.Stop? <==> IsIssueCard(contentUrl).Throws?
    ensures r.Stop? ==> r.outcome == Failed(TypeError)
    ensures r.Continue? ==>
              && contentUrl.Some?
              && FinalSegment(contentUrl.value, '/', r.value.issueNumber)
              && |r.value.assignees| >= 1 && Join(r.value.assignees, ',') == inputs.assignees
              && (forall a :: a in r.value.assignees ==> ',' !in a)
              && |r.value.labels| >= 1 && Join(r.value.labels, ',') == inputs.labels
              && (forall l :: l in r.value.labels ==> ',' !in l)
              && RepositoryPath(inputs.repository, r.value.owner, r.value.name)
  {
    match IsIssueCard(contentUrl)
    case Throws(e) => Stop(Failed(e))
    case Returns(n) =>
      if n == 0 then Stop(Skipped(NotIssueCard))
      else
        var repositoryParts := Split(inputs.repository, '/');
        var assigneesInput := Split(inputs.assignees, ',');
        var labelsInput := Split(inputs.labels, ',');
        if |assigneesInput| == 0 then Stop(Failed(AssigneesMissing))
        else if |labelsInput| == 0 then Stop(Failed(LabelsMissing))
        else
          SplitJoin(inputs.assignees, ',');
          SplitJoin(inputs.labels, ',');
          SplitPartsHaveNoSeparator(inputs.assignees, ',');
          SplitPartsHaveNoSeparator(inputs.labels, ',');
          RepositoryParts(inputs.repository);
          Continue(Parsed(
            repositoryParts[0],
            if |repositoryParts| > 1 then Some(repositoryParts[1]) else None,
            assigneesInput,
            labelsInput,
            GetIssueNumber(contentUrl.value)))
  }

  /** `x.number == parseInt(validationProject)`. An undefined `number` and NaN
      are loosely equal to no number. */
  predicate CardMatches(node: CardNode, validationProject: Option<int>)
  {
    node.number.Some? && validationProject.Some? && node.number.value == validationProject.value
  }

  /** `nodes.find(x => x.number == parseInt(validationProject))`. */
  function FindCard(nodes: seq<CardNode>, validationProject: Option<int>): (r: Option<CardNode>)
    ensures r.Some? <==> exists j :: 0 <= j < |nodes| && CardMatches(nodes[j], validationProject)
    ensures r.Some? ==> r.value in nodes && CardMatches(r.value, validationProject)
    ensures r.Some? ==> exists j :: 0 <= j < |nodes| && nodes[j] == r.value
                                   && forall i :: 0 <= i < j ==> !CardMatches(nodes[i], validationProject)
  {
    if nodes == [] then None
    else if CardMatches(nodes[0], validationProject) then Some(nodes[0])
    else FindCard(nodes[1..], validationProject)
  }

  /** `issueData.state.toLowerCase() != 'closed'` negated. */
  predicate IsClosed(issue: IssueData)
  {
    ToLowerCase(issue.state) == "closed"
  }

  /** The membership test negated: `!nodes.length || !nodes.find(...)`. */
  predicate OnValidationProject(issue: IssueData, validationProject: Option<int>)
  {
    |issue.nodes| != 0 && FindCard(issue.nodes, validationProject).Some?
  }

  function NewIssueTitle(title: string, suffix: string): string
  {
    title + " " + suffix
  }

  function NewIssueBody(issueNumber: string): string
  {
    "A new issue has been completed, #" + issueNumber + ". Please test it."
  }

  /** The `createIssueInput` object literal of createIssue. */
  function CreateIssueRequest(assigneeIds: seq<Token>, labelIds: seq<Token>, repositoryId: Option<Token>,
                              projectId: Token, title: string, body: string): CreateIssueInput
  {
    CreateIssueInput(assigneeIds, body, None, labelIds, None, [projectId], repositoryId, title)
  }

  // ---------------------------------------------------------------------------
  // Id resolution (the assignee and label loops)

  function UserLookups(assignees: seq<string>): (keys: seq<Lookup>)
    ensures |keys| == |assignees|
    ensures forall k :: 0 <= k < |assignees| ==> keys[k] == UserLookup(assignees[k])
  {
    seq(|assignees|, k requires 0 <= k < |assignees| => UserLookup(assignees[k]))
  }

  function LabelLookups(owner: string, name: Option<string>, labels: seq<string>): (keys: seq<Lookup>)
    ensures |keys| == |labels|
    ensures forall k :: 0 <= k < |labels| ==> keys[k] == LabelLookup(owner, name, labels[k])
  {
    seq(|labels|, k requires 0 <= k < |labels| => LabelLookup(owner, name, labels[k]))
  }

  /** The name a loop interpolates into its "Invalid assignee" message. */
  function Subject(key: Lookup): string
  {
    match key
    case UserLookup(login) => login
    case LabelLookup(_, _, labelName) => labelName
    case _ => ""
  }

  /** What a loop throws for an id reply that is not truthy. */
  function Rejection(reply: Reply<Token>, key: Lookup): Thrown
  {
    if reply.Fault? then TypeError else InvalidAssignee(Subject(key))
  }

  ghost predicate AllFound(remote: Remote, keys: seq<Lookup>)
  {
    forall j :: 0 <= j < |keys| ==> remote.id(keys[j]).Found?
  }

  datatype Resolution = Resolved(ids: seq<Token>) | Aborted(at: nat, thrown: Thrown)

  /** A loop that looks up `keys` in order, pushes each truthy id and throws at
      the first reply that is not truthy. */
  function Resolve(remote: Remote, keys: seq<Lookup>): (r: Resolution)
    ensures r.Resolved? <==> AllFound(remote, keys)
    ensures r.Resolved? ==>
              && |r.ids| == |keys|
              && forall j :: 0 <= j < |keys| ==> remote.id(keys[j]) == Found(r.ids[j])
    ensures r.Aborted? ==>
              && r.at < |keys|
              && AllFound(remote, keys[..r.at])
              && !remote.id(keys[r.at]).Found?
              && r.thrown == Rejection(remote.id(keys[r.at]), keys[r.at])
    decreases |keys|
  {
    if keys == [] then Resolved([])
    else
      var n := |keys| - 1;
      assert forall j :: 0 <= j < n ==> keys[..n][j] == keys[j];
      match Resolve(remote, keys[..n])
      case Aborted(k, e) =>
        assert keys[..n][..k] == keys[..k];
        Aborted(k, e)
      case Resolved(ids) =>
        match remote.id(keys[n])
        case Found(id) => Resolved(ids + [id])
        case _ => Aborted(n, Rejection(remote.id(keys[n]), keys[n]))
  }

  /** A loop stops exactly at the first key whose reply is not truthy. */
  lemma ResolveStopsAtFirstFailure(remote: Remote, keys: seq<Lookup>, k: nat)
    requires k < |keys| && AllFound(remote, keys[..k]) && !remote.id(keys[k]).Found?
    ensures Resolve(remote, keys) == Aborted(k, Rejection(remote.id(keys[k]), keys[k]))
  {
  }

  // ---------------------------------------------------------------------------
  // The specification of run() and its imperative model

  /** The lookups of a complete run, in the order they are issued. */
  function PlannedLookups(p: Parsed, inputs: Inputs): seq<Lookup>
  {
    [IssueLookup(p.owner, p.name, p.issueNumber), ProjectLookup(p.owner, p.name, inputs.targetProject)]
    + UserLookups(p.assignees)
    + LabelLookups(p.owner, p.name, p.labels)
    + [RepositoryLookup(p.owner, p.name)]
  }

  /** run(): what the try block does, with the catch turning a throw into Failed. */
  function Workflow(contentUrl: Option<string>, inputs: Inputs, remote: Remote): Execution
  {
    match Prelude(contentUrl, inputs)
    case Stop(o) => Execution(o, [])
    case Continue(p) => FromIssueLookup(p, inputs, remote)
  }

  /** The issue lookup and the eligibility test. */
  function FromIssueLookup(p: Parsed, inputs: Inputs, remote: Remote): Execution
  {
    var issueKey := IssueLookup(p.owner, p.name, p.issueNumber);
    match remote.issue(issueKey)
    case Fault => Execution(Failed(TypeError), [issueKey])
    case Falsy => Execution(Failed(IssueNotFound(p.issueNumber)), [issueKey])
    case Found(issue) =>
      if !IsClosed(issue) then Execution(Skipped(NotClosed), [issueKey])
      else if !OnValidationProject(issue, inputs.validationProject) then
        Execution(Skipped(NotOnValidationProject), [issueKey])
      else FromProjectLookup(p, inputs, remote, NewIssueTitle(issue.title, inputs.newIssueSuffix))
  }

  /** The target project lookup, once the issue is eligible. */
  function FromProjectLookup(p: Parsed, inputs: Inputs, remote: Remote, title: string): Execution
  {
    var issueKey := IssueLookup(p.owner, p.name, p.issueNumber);
    var projectKey := ProjectLookup(p.owner, p.name, inputs.targetProject);
    match remote.id(projectKey)
    case Fault => Execution(Failed(TypeError), [issueKey, projectKey])
    case Falsy => Execution(Failed(TargetProjectNotFound), [issueKey, projectKey])
    case Found(projectId) => FromAssigneeLookups(p, inputs, remote, title, projectId)
  }

  /** The lookups one of run()'s two loops sends: all of `keys` when every id
      resolves, otherwise those up to and including the first that does not. */
  function Issued(keys: seq<Lookup>, r: Resolution): seq<Lookup>
    requires r.Aborted? ==> r.at < |keys|
  {
    if r.Resolved? then keys else keys[..r.at + 1]
  }

  /** The assignee and label loops, the repository lookup and the request. */
  function FromAssigneeLookups(p: Parsed, inputs: Inputs, remote: Remote, title: string, projectId: Token): Execution
  {
    var before := [IssueLookup(p.owner, p.name, p.issueNumber), ProjectLookup(p.owner, p.name, inputs.targetProject)];
    var users := UserLookups(p.assignees);
    var labels := LabelLookups(p.owner, p.name, p.labels);
    var assigneeIds := Resolve(remote, users);
    if assigneeIds.Aborted? then Execution(Failed(assigneeIds.thrown), before + Issued(users, assigneeIds))
    else
      var labelIds := Resolve(remote, labels);
      if labelIds.Aborted? then Execution(Failed(labelIds.thrown), before + users + Issued(labels, labelIds))
      else
        var repositoryKey := RepositoryLookup(p.owner, p.name);
        var calls := before + users + labels + [repositoryKey];
        var body := NewIssueBody(p.issueNumber);
        match remote.id(repositoryKey)
        case Fault => Execution(Failed(TypeError), calls)
        case Falsy =>
          Execution(Created(CreateIssueRequest(assigneeIds.ids, labelIds.ids, None, projectId, title, body)), calls)
        case Found(repositoryId) =>
          Execution(Created(CreateIssueRequest(assigneeIds.ids, labelIds.ids, Some(repositoryId), projectId, title, body)), calls)
  }

  /** The body shared by run()'s assignee and label loops: look each key up in
      order, push the truthy ids, and throw at the first reply that is not truthy. */
  method LookUpIds(remote: Remote, keys: seq<Lookup>) returns (r: Resolution, issued: seq<Lookup>)
    ensures r == Resolve(remote, keys)
    ensures issued == Issued(keys, r)
  {
    var ids: seq<Token> := [];
    issued := [];
    var i := 0;
    while i < |keys|
      invariant 0 <= i <= |keys|
      invariant Resolve(remote, keys[..i]) == Resolved(ids)
      invariant issued == keys[..i]
    {
      var key := keys[i];
      assert keys[..i + 1] == keys[..i] + [key];
      issued := issued + [key];
      var reply := remote.id(key);
      if !reply.Found? {
        ResolveStopsAtFirstFailure(remote, keys, i);
        if reply.Fault? {
          r := Aborted(i, TypeError);
        } else {
          r := Aborted(i, InvalidAssignee(Subject(key)));
        }
        return;
      }
      assert keys[..i + 1][..i] == keys[..i];
      ids := ids + [reply.value];
      i := i + 1;
    }
    assert keys[..i] == keys;
    r := Resolved(ids);
  }

  /** run() step by step. `calls` records each request in the order it is sent. */
  method Run(contentUrl: Option<string>, inputs: Inputs, remote: Remote)
    returns (outcome: Outcome, calls: seq<Lookup>)
    ensures Execution(outcome, calls) == Workflow(contentUrl, inputs, remote)
  {
    calls := [];
    var prelude := Prelude(contentUrl, inputs);
    if prelude.Stop? {
      outcome := prelude.outcome;
      return;
    }
    var p := prelude.value;
    assert Workflow(contentUrl, inputs, remote) == FromIssueLookup(p, inputs, remote);

    var issueKey := IssueLookup(p.owner, p.name, p.issueNumber);
    calls := calls + [issueKey];
    var issueReply := remote.issue(issueKey);
    if issueReply.Fault? {
      outcome := Failed(TypeError);
      return;
    }
    if issueReply.Falsy? {
      outcome := Failed(IssueNotFound(p.issueNumber));
      return;
    }
    var issue := issueReply.value;
    if !IsClosed(issue) {
      outcome := Skipped(NotClosed);
      return;
    }
    if |issue.nodes| == 0 || FindCard(issue.nodes, inputs.validationProject).None? {
      outcome := Skipped(NotOnValidationProject);
      return;
    }
    var newIssueTitle := NewIssueTitle(issue.title, inputs.newIssueSuffix);
    assert Workflow(contentUrl, inputs, remote) == FromProjectLookup(p, inputs, remote, newIssueTitle);

    var projectKey := ProjectLookup(p.owner, p.name, inputs.targetProject);
    calls := calls + [projectKey];
    assert calls == [issueKey, projectKey];
    var projectReply := remote.id(projectKey);
    if projectReply.Fault? {
      outcome := Failed(TypeError);
      return;
    }
    if projectReply.Falsy? {
      outcome := Failed(TargetProjectNotFound);
      return;
    }
    var targetProjectId := projectReply.value;
    assert Workflow(contentUrl, inputs, remote) == FromAssigneeLookups(p, inputs, remote, newIssueTitle, targetProjectId);
    outcome, calls := LookUpIdsAndCreate(p, inputs, remote, newIssueTitle, targetProjectId);
  }

  /** The rest of run() once the target project is known: the assignee loop,
      the label loop, the repository lookup and the request. `calls` starts
      with the issue and target project lookups already sent. */
  method LookUpIdsAndCreate(p: Parsed, inputs: Inputs, remote: Remote, newIssueTitle: string, targetProjectId: Token)
    returns (outcome: Outcome, calls: seq<Lookup>)
    ensures Execution(outcome, calls) == FromAssigneeLookups(p, inputs, remote, newIssueTitle, targetProjectId)
  {
    calls := [IssueLookup(p.owner, p.name, p.issueNumber), ProjectLookup(p.owner, p.name, inputs.targetProject)];
    var users := UserLookups(p.assignees);
    var assigneeIds, issuedUsers := LookUpIds(remote, users);
    calls := calls + issuedUsers;
    if assigneeIds.Aborted? {
      outcome := Failed(assigneeIds.thrown);
      return;
    }

    var labels := LabelLookups(p.owner, p.name, p.labels);
    var labelIds, issuedLabels := LookUpIds(remote, labels);
    calls := calls + issuedLabels;
    if labelIds.Aborted? {
      outcome := Failed(labelIds.thrown);
      return;
    }

    var repositoryKey := RepositoryLookup(p.owner, p.name);
    calls := calls + [repositoryKey];
    var repositoryReply := remote.id(repositoryKey);
    if repositoryReply.Fault? {
      outcome := Failed(TypeError);
      return;
    }
    var repositoryId := if repositoryReply.Found? then Some(repositoryReply.value) else None;
    var body := NewIssueBody(p.issueNumber);
    outcome := Created(CreateIssueRequest(assigneeIds.ids, labelIds.ids, repositoryId, targetProjectId,
      newIssueTitle, body));
  }

  lemma TakeOfAppend<T>(a: seq<T>, b: seq<T>, n: nat)
    requires n <= |b|
    ensures (a + b)[..|a| + n] == a + b[..n]
  {
  }

  lemma TakeBeforeEnd<T>(a: seq<T>, b: seq<T>, n: nat)
    requires n <= |a|
    ensures (a + b)[..n] == a[..n]
  {
  }

  // ---------------------------------------------------------------------------
  // What the JavaScript as written does

  /** getIssueNumber returns what follows the last `/`: `".../issues/42"` gives
      `"42"`, and a trailing slash gives `""`. */
  lemma IssueNumberAfterLastSlash(prefix: string, n: string)
    requires '/' !in n
    ensures GetIssueNumber(prefix + "/" + n) == n
  {
    var url := prefix + "/" + n;
    FinalSegmentAfter(prefix, '/', n);
    FinalSegmentUnique(url, '/', GetIssueNumber(url), n);
  }

  /** The eligibility test, in terms independent of its code: the state is
      "closed" in any ASCII casing, and some node's own `number` is the
      validation project number. */
  ghost predicate Eligible(issue: IssueData, validationProject: Option<int>)
  {
    && EqualsIgnoringCase(issue.state, "closed")
    && exists j :: 0 <= j < |issue.nodes| && CardMatches(issue.nodes[j], validationProject)
  }

  lemma EligibleIff(issue: IssueData, validationProject: Option<int>)
    ensures IsClosed(issue) && OnValidationProject(issue, validationProject) <==> Eligible(issue, validationProject)
  {
    LowerCaseMatches(issue.state, "closed");
  }

  /** The outcomes that the dead branches of run() would produce. */
  predicate DeadOutcome(o: Outcome)
  {
    o == Skipped(NotIssueCard) || o == Failed(AssigneesMissing) || o == Failed(LabelsMissing)
  }

  lemma AssigneeStageOutcome(p: Parsed, inputs: Inputs, remote: Remote, title: string, projectId: Token)
    ensures !DeadOutcome(FromAssigneeLookups(p, inputs, remote, title, projectId).outcome)
  {
  }

  lemma ProjectStageOutcome(p: Parsed, inputs: Inputs, remote: Remote, title: string)
    ensures !DeadOutcome(FromProjectLookup(p, inputs, remote, title).outcome)
  {
    var projectReply := remote.id(ProjectLookup(p.owner, p.name, inputs.targetProject));
    if projectReply.Found? {
      AssigneeStageOutcome(p, inputs, remote, title, projectReply.value);
    }
  }

  lemma IssueStageOutcome(p: Parsed, inputs: Inputs, remote: Remote)
    ensures !DeadOutcome(FromIssueLookup(p, inputs, remote).outcome)
  {
    var issueReply := remote.issue(IssueLookup(p.owner, p.name, p.issueNumber));
    if issueReply.Found? {
      ProjectStageOutcome(p, inputs, remote, NewIssueTitle(issueReply.value.title, inputs.newIssueSuffix));
    }
  }

  /** An issue that fails either eligibility check ends the run with the
      matching early return, not an exception, after the issue lookup alone. */
  lemma IneligibleSkips(contentUrl: Option<string>, inputs: Inputs, remote: Remote, p: Parsed)
    requires Prelude(contentUrl, inputs) == Continue(p)
    requires remote.issue(IssueLookup(p.owner, p.name, p.issueNumber)).Found?
    requires !Eligible(remote.issue(IssueLookup(p.owner, p.name, p.issueNumber)).value, inputs.validationProject)
    ensures var issue := remote.issue(IssueLookup(p.owner, p.name, p.issueNumber)).value;
            Workflow(contentUrl, inputs, remote)
              == Execution(if EqualsIgnoringCase(issue.state, "closed") then Skipped(NotOnValidationProject)
                           else Skipped(NotClosed),
                           [IssueLookup(p.owner, p.name, p.issueNumber)])
  {
    IssueStageIneligible(p, inputs, remote);
  }

  lemma IssueStageIneligible(p: Parsed, inputs: Inputs, remote: Remote)
    requires remote.issue(IssueLookup(p.owner, p.name, p.issueNumber)).Found?
    requires !Eligible(remote.issue(IssueLookup(p.owner, p.name, p.issueNumber)).value, inputs.validationProject)
    ensures var issue := remote.issue(IssueLookup(p.owner, p.name, p.issueNumber)).value;
            FromIssueLookup(p, inputs, remote)
              == Execution(if EqualsIgnoringCase(issue.state, "closed") then Skipped(NotOnValidationProject)
                           else Skipped(NotClosed),
                           [IssueLookup(p.owner, p.name, p.issueNumber)])
  {
    var issue := remote.issue(IssueLookup(p.owner, p.name, p.issueNumber)).value;
    EligibleIff(issue, inputs.validationProject);
    LowerCaseMatches(issue.state, "closed");
  }

  /** The card is not an issue card. That covers a card without a content URL
      and one whose URL has no segment equal to `issues`. Such a run throws a
      TypeError before sending any request. An issue card always sends at least
      the issue lookup. So the "Not an issue card" skip is never reached. */
  lemma NonIssueCardFails(contentUrl: Option<string>, inputs: Inputs, remote: Remote)
    ensures var e := Workflow(contentUrl, inputs, remote);
            && e.outcome != Skipped(NotIssueCard)
            && (e.calls == [] <==> !(contentUrl.Some? && HasSegment(contentUrl.value, "issues", '/')))
            && (!(contentUrl.Some? && HasSegment(contentUrl.value, "issues", '/')) ==> e.outcome == Failed(TypeError))
  {
    var prelude := Prelude(contentUrl, inputs);
    if prelude.Continue? {
      IssueStageOutcome(prelude.value, inputs, remote);
      IssueStageOrder(prelude.value, inputs, remote);
    }
  }

  /** Splitting on `,` always gives at least one entry, so "Assignees missing"
      and "Labels missing" are never thrown. */
  lemma MissingInputsNeverThrown(contentUrl: Option<string>, inputs: Inputs, remote: Remote)
    ensures Workflow(contentUrl, inputs, remote).outcome != Failed(AssigneesMissing)
    ensures Workflow(contentUrl, inputs, remote).outcome != Failed(LabelsMissing)
  {
    var prelude := Prelude(contentUrl, inputs);
    if prelude.Continue? {
      IssueStageOutcome(prelude.value, inputs, remote);
    }
  }

  /** A run that gets to the assignee loop is the last stage of Workflow. */
  lemma ReachedAssigneeLoop(contentUrl: Option<string>, inputs: Inputs, remote: Remote)
    returns (p: Parsed, issue: IssueData, projectId: Token)
    requires var e := Workflow(contentUrl, inputs, remote); e.outcome.Created? || |e.calls| > 2
    ensures Prelude(contentUrl, inputs) == Continue(p)
    ensures remote.issue(IssueLookup(p.owner, p.name, p.issueNumber)) == Found(issue)
    ensures IsClosed(issue) && OnValidationProject(issue, inputs.validationProject)
    ensures remote.id(ProjectLookup(p.owner, p.name, inputs.targetProject)) == Found(projectId)
    ensures Workflow(contentUrl, inputs, remote)
              == FromAssigneeLookups(p, inputs, remote, NewIssueTitle(issue.title, inputs.newIssueSuffix), projectId)
  {
    p := Prelude(contentUrl, inputs).value;
    issue := remote.issue(IssueLookup(p.owner, p.name, p.issueNumber)).value;
    projectId := remote.id(ProjectLookup(p.owner, p.name, inputs.targetProject)).value;
  }

  /** The conditions under which an issue is created once the inputs are
      parsed, stated without the code's helpers. A falsy repository id does not
      prevent creation. */
  ghost predicate CreatesFrom(p: Parsed, inputs: Inputs, remote: Remote)
  {
    var issue := remote.issue(IssueLookup(p.owner, p.name, p.issueNumber));
    && issue.Found?
    && Eligible(issue.value, inputs.validationProject)
    && remote.id(ProjectLookup(p.owner, p.name, inputs.targetProject)).Found?
    && AllFound(remote, UserLookups(p.assignees))
    && AllFound(remote, LabelLookups(p.owner, p.name, p.labels))
    && !remote.id(RepositoryLookup(p.owner, p.name)).Fault?
  }

  /** The conditions under which a run creates an issue. */
  ghost predicate Creates(contentUrl: Option<string>, inputs: Inputs, remote: Remote)
  {
    && contentUrl.Some?
    && HasSegment(contentUrl.value, "issues", '/')
    && CreatesFrom(Prelude(contentUrl, inputs).value, inputs, remote)
  }

  lemma IssueStageCreated(p: Parsed, inputs: Inputs, remote: Remote)
    ensures FromIssueLookup(p, inputs, remote).outcome.Created? <==> CreatesFrom(p, inputs, remote)
  {
    var issue := remote.issue(IssueLookup(p.owner, p.name, p.issueNumber));
    if issue.Found? {
      EligibleIff(issue.value, inputs.validationProject);
      if IsClosed(issue.value) && OnValidationProject(issue.value, inputs.validationProject) {
        var title := NewIssueTitle(issue.value.title, inputs.newIssueSuffix);
        assert FromIssueLookup(p, inputs, remote) == FromProjectLookup(p, inputs, remote, title);
      }
    }
  }

  lemma CreatedIff(contentUrl: Option<string>, inputs: Inputs, remote: Remote)
    ensures Workflow(contentUrl, inputs, remote).outcome.Created? <==> Creates(contentUrl, inputs, remote)
  {
    var prelude := Prelude(contentUrl, inputs);
    if prelude.Continue? {
      IssueStageCreated(prelude.value, inputs, remote);
    }
  }

  /** The request of a created issue: the composed title and body, the target
      project as sole project, null milestone and client mutation id, one
      assignee id per assignee entry and one label id per label entry, in
      input order, and whatever the repository lookup gave. */
  lemma CreatedRequest(contentUrl: Option<string>, inputs: Inputs, remote: Remote)
    requires Workflow(contentUrl, inputs, remote).outcome.Created?
    ensures Prelude(contentUrl, inputs).Continue?
    ensures var p := Prelude(contentUrl, inputs).value;
            var req := Workflow(contentUrl, inputs, remote).outcome.request;
            var issue := remote.issue(IssueLookup(p.owner, p.name, p.issueNumber));
            var project := remote.id(ProjectLookup(p.owner, p.name, inputs.targetProject));
            var repository := remote.id(RepositoryLookup(p.owner, p.name));
            && issue.Found? && project.Found?
            && req.title == issue.value.title + " " + inputs.newIssueSuffix
            && req.body == "A new issue has been completed, #" + p.issueNumber + ". Please test it."
            && FinalSegment(contentUrl.value, '/', p.issueNumber)
            && req.projectIds == [project.value]
            && req.milestoneId.None? && req.clientMutationId.None?
            && |req.assigneeIds| == |p.assignees|
            && (forall k :: 0 <= k < |p.assignees| ==>
                  remote.id(UserLookup(p.assignees[k])) == Found(req.assigneeIds[k]))
            && |req.labelIds| == |p.labels|
            && (forall k :: 0 <= k < |p.labels| ==>
                  remote.id(LabelLookup(p.owner, p.name, p.labels[k])) == Found(req.labelIds[k]))
            && req.repositoryId == (if repository.Found? then Some(repository.value) else None)
  {
    var p, issue, projectId := ReachedAssigneeLoop(contentUrl, inputs, remote);
    var users := UserLookups(p.assignees);
    var labels := LabelLookups(p.owner, p.name, p.labels);
    var assigneeIds := Resolve(remote, users);
    var labelIds := Resolve(remote, labels);
    assert assigneeIds.Resolved? && labelIds.Resolved?;
    var repository := remote.id(RepositoryLookup(p.owner, p.name));
    var req := CreateIssueRequest(assigneeIds.ids, labelIds.ids,
      if repository.Found? then Some(repository.value) else None,
      projectId, NewIssueTitle(issue.title, inputs.newIssueSuffix), NewIssueBody(p.issueNumber));
    assert Workflow(contentUrl, inputs, remote).outcome.request == req;
    assert forall k :: 0 <= k < |p.assignees| ==> users[k] == UserLookup(p.assignees[k]);
    assert forall k :: 0 <= k < |p.labels| ==> labels[k] == LabelLookup(p.owner, p.name, p.labels[k]);
  }

  /** The shape the issue query returns: `number` only under `project`. */
  ghost predicate QueriedShape(issue: IssueData)
  {
    forall j :: 0 <= j < |issue.nodes| ==> issue.nodes[j].number.None?
  }

  /** A reply of the queried shape fails the membership test even when one
      of its cards is on the validation project: the test never reads
      `project.number`, the one number the query fetches. */
  lemma ValidationCardIgnored(issue: IssueData, validationProject: Option<int>)
    requires QueriedShape(issue)
    requires validationProject.Some?
    requires exists j :: 0 <= j < |issue.nodes| && issue.nodes[j].project == validationProject
    ensures !OnValidationProject(issue, validationProject)
  {
  }

  /** With replies of the queried shape no node matches the validation project,
      so no run gets past the issue lookup, and none creates an issue. */
  lemma QueriedShapeNeverCreates(contentUrl: Option<string>, inputs: Inputs, remote: Remote)
    requires forall key :: remote.issue(key).Found? ==> QueriedShape(remote.issue(key).value)
    ensures var e := Workflow(contentUrl, inputs, remote);
            && |e.calls| <= 1
            && !e.outcome.Created?
            && (e.outcome.Skipped? ==> e.outcome.reason != NotIssueCard)
            && (Prelude(contentUrl, inputs).Continue? ==>
                  var p := Prelude(contentUrl, inputs).value;
                  var issue := remote.issue(IssueLookup(p.owner, p.name, p.issueNumber));
                  issue.Found? && EqualsIgnoringCase(issue.value.state, "closed") ==>
                    e.outcome == Skipped(NotOnValidationProject))
  {
    var prelude := Prelude(contentUrl, inputs);
    if prelude.Continue? {
      IssueStageQueriedShape(prelude.value, inputs, remote);
    }
  }

  lemma IssueStageQueriedShape(p: Parsed, inputs: Inputs, remote: Remote)
    requires forall key :: remote.issue(key).Found? ==> QueriedShape(remote.issue(key).value)
    ensures var e := FromIssueLookup(p, inputs, remote);
            var issue := remote.issue(IssueLookup(p.owner, p.name, p.issueNumber));
            && e.calls == [IssueLookup(p.owner, p.name, p.issueNumber)]
            && (issue.Found? ==> e.outcome.Skipped?)
            && (issue.Found? && EqualsIgnoringCase(issue.value.state, "closed") ==>
                  e.outcome == Skipped(NotOnValidationProject))
  {
    var issue := remote.issue(IssueLookup(p.owner, p.name, p.issueNumber));
    if issue.Found? {
      assert FindCard(issue.value.nodes, inputs.validationProject).None?;
      LowerCaseMatches(issue.value.state, "closed");
    }
  }

  /** The last stage of Workflow sends a prefix of the planned lookups, and all
      of them when it creates the issue. */
  lemma AssigneeStageOrder(p: Parsed, inputs: Inputs, remote: Remote, title: string, projectId: Token)
    ensures var e := FromAssigneeLookups(p, inputs, remote, title, projectId);
            && e.calls <= PlannedLookups(p, inputs)
            && (e.outcome.Created? ==> e.calls == PlannedLookups(p, inputs))
  {
    var plan := PlannedLookups(p, inputs);
    var before := [IssueLookup(p.owner, p.name, p.issueNumber), ProjectLookup(p.owner, p.name, inputs.targetProject)];
    var users := UserLookups(p.assignees);
    var labels := LabelLookups(p.owner, p.name, p.labels);
    var e := FromAssigneeLookups(p, inputs, remote, title, projectId);
    var repository := [RepositoryLookup(p.owner, p.name)];
    var r := Resolve(remote, users);
    if r.Aborted? {
      assert e.calls == before + users[..r.at + 1];
      assert plan == before + users + (labels + repository);
      TakeBeforeEnd(before + users, labels + repository, |before| + r.at + 1);
      TakeOfAppend(before, users, r.at + 1);
    } else {
      var q := Resolve(remote, labels);
      if q.Aborted? {
        assert e.calls == before + users + labels[..q.at + 1];
        TakeBeforeEnd(before + users + labels, repository, |before + users| + q.at + 1);
        TakeOfAppend(before + users, labels, q.at + 1);
      }
    }
  }

  lemma ProjectStageOrder(p: Parsed, inputs: Inputs, remote: Remote, title: string)
    ensures var e := FromProjectLookup(p, inputs, remote, title);
            && e.calls <= PlannedLookups(p, inputs)
            && (e.outcome.Created? ==> e.calls == PlannedLookups(p, inputs))
  {
    var projectReply := remote.id(ProjectLookup(p.owner, p.name, inputs.targetProject));
    if projectReply.Found? {
      AssigneeStageOrder(p, inputs, remote, title, projectReply.value);
    } else {
      assert FromProjectLookup(p, inputs, remote, title).calls == PlannedLookups(p, inputs)[..2];
    }
  }

  lemma IssueStageOrder(p: Parsed, inputs: Inputs, remote: Remote)
    ensures var e := FromIssueLookup(p, inputs, remote);
            && |e.calls| >= 1
            && e.calls <= PlannedLookups(p, inputs)
            && (e.outcome.Created? ==> e.calls == PlannedLookups(p, inputs))
  {
    var issueReply := remote.issue(IssueLookup(p.owner, p.name, p.issueNumber));
    if issueReply.Found? && IsClosed(issueReply.value) && OnValidationProject(issueReply.value, inputs.validationProject) {
      ProjectStageOrder(p, inputs, remote, NewIssueTitle(issueReply.value.title, inputs.newIssueSuffix));
    } else {
      assert FromIssueLookup(p, inputs, remote).calls == PlannedLookups(p, inputs)[..1];
    }
  }

  /** Lookups go in a fixed order: issue, target project, each assignee, each
      label, repository. A run sends a prefix of that order, and all of it when
      it creates the issue. */
  lemma LookupOrder(contentUrl: Option<string>, inputs: Inputs, remote: Remote)
    ensures var e := Workflow(contentUrl, inputs, remote);
            match Prelude(contentUrl, inputs)
            case Stop(_) => e.calls == []
            case Continue(p) =>
              && e.calls <= PlannedLookups(p, inputs)
              && (e.outcome.Created? ==> e.calls == PlannedLookups(p, inputs))
  {
    var prelude := Prelude(contentUrl, inputs);
    if prelude.Continue? {
      IssueStageOrder(prelude.value, inputs, remote);
    }
  }

  /** The parsed inputs are read, the issue is eligible and the target project
      resolves: the point at which the assignee loop starts. */
  ghost predicate ReachesAssignees(contentUrl: Option<string>, inputs: Inputs, remote: Remote)
  {
    && Prelude(contentUrl, inputs).Continue?
    && var p := Prelude(contentUrl, inputs).value;
       var issue := remote.issue(IssueLookup(p.owner, p.name, p.issueNumber));
       && issue.Found?
       && Eligible(issue.value, inputs.validationProject)
       && remote.id(ProjectLookup(p.owner, p.name, inputs.targetProject)).Found?
  }

  lemma EnterAssigneeLoop(contentUrl: Option<string>, inputs: Inputs, remote: Remote)
    returns (p: Parsed, title: string, projectId: Token)
    requires ReachesAssignees(contentUrl, inputs, remote)
    ensures p == Prelude(contentUrl, inputs).value
    ensures Workflow(contentUrl, inputs, remote) == FromAssigneeLookups(p, inputs, remote, title, projectId)
  {
    p := Prelude(contentUrl, inputs).value;
    var issue := remote.issue(IssueLookup(p.owner, p.name, p.issueNumber)).value;
    EligibleIff(issue, inputs.validationProject);
    title := NewIssueTitle(issue.title, inputs.newIssueSuffix);
    projectId := remote.id(ProjectLookup(p.owner, p.name, inputs.targetProject)).value;
    assert Workflow(contentUrl, inputs, remote) == FromIssueLookup(p, inputs, remote);
    assert FromIssueLookup(p, inputs, remote) == FromProjectLookup(p, inputs, remote, title);
  }

  lemma AssigneeStageFailFast(p: Parsed, inputs: Inputs, remote: Remote, title: string, projectId: Token, k: nat)
    requires k < |p.assignees|
    requires forall j :: 0 <= j < k ==> remote.id(UserLookup(p.assignees[j])).Found?
    requires remote.id(UserLookup(p.assignees[k])).Falsy?
    ensures FromAssigneeLookups(p, inputs, remote, title, projectId)
              == Execution(Failed(InvalidAssignee(p.assignees[k])), PlannedLookups(p, inputs)[..2 + k + 1])
  {
    var users := UserLookups(p.assignees);
    assert forall j :: 0 <= j < k ==> users[..k][j] == UserLookup(p.assignees[j]);
    ResolveStopsAtFirstFailure(remote, users, k);
    var before := [IssueLookup(p.owner, p.name, p.issueNumber), ProjectLookup(p.owner, p.name, inputs.targetProject)];
    var rest := LabelLookups(p.owner, p.name, p.labels) + [RepositoryLookup(p.owner, p.name)];
    assert PlannedLookups(p, inputs) == before + users + rest;
    TakeBeforeEnd(before + users, rest, |before| + k + 1);
    TakeOfAppend(before, users, k + 1);
  }

  lemma LabelStageFailFast(p: Parsed, inputs: Inputs, remote: Remote, title: string, projectId: Token, k: nat)
    requires AllFound(remote, UserLookups(p.assignees))
    requires k < |p.labels|
    requires forall j :: 0 <= j < k ==> remote.id(LabelLookup(p.owner, p.name, p.labels[j])).Found?
    requires remote.id(LabelLookup(p.owner, p.name, p.labels[k])).Falsy?
    ensures FromAssigneeLookups(p, inputs, remote, title, projectId)
              == Execution(Failed(InvalidAssignee(p.labels[k])), PlannedLookups(p, inputs)[..2 + |p.assignees| + k + 1])
  {
    var users := UserLookups(p.assignees);
    var labels := LabelLookups(p.owner, p.name, p.labels);
    assert forall j :: 0 <= j < k ==> labels[..k][j] == LabelLookup(p.owner, p.name, p.labels[j]);
    ResolveStopsAtFirstFailure(remote, labels, k);
    var before := [IssueLookup(p.owner, p.name, p.issueNumber), ProjectLookup(p.owner, p.name, inputs.targetProject)];
    var repository := [RepositoryLookup(p.owner, p.name)];
    assert PlannedLookups(p, inputs) == before + users + labels + repository;
    TakeBeforeEnd(before + users + labels, repository, |before + users| + k + 1);
    TakeOfAppend(before + users, labels, k + 1);
  }

  /** An issue lookup without a truthy issue ends the run after that lookup
      alone: "Issue … not found" for a falsy issue, a TypeError for a reply
      whose `data` or `repository` is null. */
  lemma IssueLookupFails(contentUrl: Option<string>, inputs: Inputs, remote: Remote, p: Parsed)
    requires Prelude(contentUrl, inputs) == Continue(p)
    requires !remote.issue(IssueLookup(p.owner, p.name, p.issueNumber)).Found?
    ensures Workflow(contentUrl, inputs, remote)
              == Execution(if remote.issue(IssueLookup(p.owner, p.name, p.issueNumber)).Fault? then Failed(TypeError)
                           else Failed(IssueNotFound(p.issueNumber)),
                           [IssueLookup(p.owner, p.name, p.issueNumber)])
  {
  }

  /** For an eligible issue, a target project lookup without a truthy id ends
      the run after exactly the issue and project lookups: "Target project not
      found!" for a falsy id, a TypeError for a null part of the reply. */
  lemma ProjectLookupFails(contentUrl: Option<string>, inputs: Inputs, remote: Remote, p: Parsed)
    requires Prelude(contentUrl, inputs) == Continue(p)
    requires remote.issue(IssueLookup(p.owner, p.name, p.issueNumber)).Found?
    requires Eligible(remote.issue(IssueLookup(p.owner, p.name, p.issueNumber)).value, inputs.validationProject)
    requires !remote.id(ProjectLookup(p.owner, p.name, inputs.targetProject)).Found?
    ensures Workflow(contentUrl, inputs, remote)
              == Execution(if remote.id(ProjectLookup(p.owner, p.name, inputs.targetProject)).Fault? then Failed(TypeError)
                           else Failed(TargetProjectNotFound),
                           [IssueLookup(p.owner, p.name, p.issueNumber), ProjectLookup(p.owner, p.name, inputs.targetProject)])
  {
    EligibleIff(remote.issue(IssueLookup(p.owner, p.name, p.issueNumber)).value, inputs.validationProject);
  }

  lemma RepositoryStageFaults(p: Parsed, inputs: Inputs, remote: Remote, title: string, projectId: Token)
    requires AllFound(remote, UserLookups(p.assignees))
    requires AllFound(remote, LabelLookups(p.owner, p.name, p.labels))
    requires remote.id(RepositoryLookup(p.owner, p.name)).Fault?
    ensures FromAssigneeLookups(p, inputs, remote, title, projectId) == Execution(Failed(TypeError), PlannedLookups(p, inputs))
  {
  }

  /** The repository id is never checked for falsy, but a null part of its
      reply still throws: the run then fails with a TypeError after every
      planned lookup and sends no mutation. */
  lemma RepositoryLookupFaults(contentUrl: Option<string>, inputs: Inputs, remote: Remote, p: Parsed)
    requires Prelude(contentUrl, inputs) == Continue(p)
    requires ReachesAssignees(contentUrl, inputs, remote)
    requires AllFound(remote, UserLookups(p.assignees))
    requires AllFound(remote, LabelLookups(p.owner, p.name, p.labels))
    requires remote.id(RepositoryLookup(p.owner, p.name)).Fault?
    ensures Workflow(contentUrl, inputs, remote) == Execution(Failed(TypeError), PlannedLookups(p, inputs))
  {
    var _, title, projectId := EnterAssigneeLoop(contentUrl, inputs, remote);
    RepositoryStageFaults(p, inputs, remote, title, projectId);
  }

  /** The first assignee whose id is falsy aborts the run: no later lookup is
      sent and no issue is created. */
  lemma AssigneeFailFast(contentUrl: Option<string>, inputs: Inputs, remote: Remote, p: Parsed, k: nat)
    requires Prelude(contentUrl, inputs) == Continue(p)
    requires ReachesAssignees(contentUrl, inputs, remote)
    requires k < |p.assignees|
    requires forall j :: 0 <= j < k ==> remote.id(UserLookup(p.assignees[j])).Found?
    requires remote.id(UserLookup(p.assignees[k])).Falsy?
    ensures Workflow(contentUrl, inputs, remote)
              == Execution(Failed(InvalidAssignee(p.assignees[k])), PlannedLookups(p, inputs)[..2 + k + 1])
  {
    var _, title, projectId := EnterAssigneeLoop(contentUrl, inputs, remote);
    AssigneeStageFailFast(p, inputs, remote, title, projectId, k);
  }

  /** The label loop behaves the same, and also throws "Invalid assignee". */
  lemma LabelFailFast(contentUrl: Option<string>, inputs: Inputs, remote: Remote, p: Parsed, k: nat)
    requires Prelude(contentUrl, inputs) == Continue(p)
    requires ReachesAssignees(contentUrl, inputs, remote)
    requires AllFound(remote, UserLookups(p.assignees))
    requires k < |p.labels|
    requires forall j :: 0 <= j < k ==> remote.id(LabelLookup(p.owner, p.name, p.labels[j])).Found?
    requires remote.id(LabelLookup(p.owner, p.name, p.labels[k])).Falsy?
    ensures Workflow(contentUrl, inputs, remote)
              == Execution(Failed(InvalidAssignee(p.labels[k])), PlannedLookups(p, inputs)[..2 + |p.assignees| + k + 1])
  {
    var _, title, projectId := EnterAssigneeLoop(contentUrl, inputs, remote);
    LabelStageFailFast(p, inputs, remote, title, projectId, k);
  }
}
