# create-test-issues, modelled in Dafny

The create-test-issues GitHub Action runs when a project card changes. It reads
the card's issue and checks that the issue is closed and sits on a *validation
project*. If so, it opens a follow-up issue on a *target project*. The new issue
takes the old title plus a suffix, a fixed body that names the old issue, the
configured assignees and labels, and the repository's id.

The model covers `index.js`: the two string helpers `isIssueCard` and
`getIssueNumber`, the whole control flow of `run()`, and the `createIssueInput`
record that `createIssue` sends. It has two modules.

- `JsStrings` (`js_strings.dfy`) holds the JavaScript string operations the
  action uses:
  - `split` with a one-character separator, and its inverse `join`.
  - The last element of a split.
  - `toLowerCase` on ASCII letters.

  Each one comes with an independent description of its result and a lemma
  connecting the two. The descriptions are a delimited segment, the final
  segment after the last separator, and a case-insensitive match.
- `CreateTestIssues` (`create_test_issues.dfy`) holds the action itself.
  - The remote GraphQL service is an oracle, `Remote`, which answers every
    lookup with `Fault`, `Falsy` or `Found(value)`.
    - `Fault` stands for an exception from a getter: mostly the TypeError of
      indexing a null part of the response.
    - `Falsy` is a null, undefined or empty id.
  - `Workflow` is the specification of `run()`. It returns the outcome and the
    sequence of lookups sent. The outcome is an exception caught and passed to
    `setFailed`, an early return, or the `createIssue` request.
  - `Run` is the step-by-step method. From the assignee loop on it continues in
    `LookUpIdsAndCreate`, and the assignee loop and the label loop both run
    through the method `LookUpIds`. `Run` is proved to return exactly what
    `Workflow` returns.
  - The lemmas state what the code as written does. This includes the
    branches that behave differently from how they read.

Behaviour of the code as written that the lemmas make explicit:

- A card whose content URL has no `issues` segment is not skipped with "Not an
  issue card". `find` yields `undefined` there, so reading `.length` throws a
  TypeError, and the run fails before any lookup. A card with no content URL
  fails the same way. The skip branch can only be taken for a found segment of
  length 0, and `"issues"` has length 6, so it is dead.
- `split(',')` always returns at least one element. So "Assignees missing" and
  "Labels missing" are never thrown, and an empty input becomes one empty name.
- The membership test compares each node's own `number` with the validation
  project number. The issue query fetches only `project { number }`. So for
  replies of the queried shape no node matches. A closed issue is then skipped
  as not on the validation project, and no issue is ever created, although the
  check is evidently meant to accept an issue whose card is on that project.
- A falsy label id throws "Invalid assignee …", as the assignee loop does.
- The repository id is never checked. A falsy one still leads to the mutation,
  with the falsy id as `repositoryId` (None in the model).
- The run's own exceptions ("Issue … not found", "Target project not found!",
  "Invalid assignee …") are thrown strings, so `setFailed` receives
  `undefined` for them. A TypeError, from `isIssueCard` or from a getter
  reading a null field, is an Error object, and `setFailed` receives its
  message. The model keeps the thrown value itself in `Failed`.

## Model

| member | source | states |
|---|---|---|
| JsStrings.Split | index.js:188-189 | `split` always yields at least one part |
| JsStrings.SplitJoin | index.js:188-189 | joining the parts of a split with the separator gives back the original string |
| JsStrings.SplitPartsHaveNoSeparator | index.js:183-184 | no part of a split contains the separator |
| JsStrings.SplitSegments | index.js:21 | a string is a part of the split exactly when it occurs delimited by separators or string ends |
| JsStrings.LastPartIsFinalSegment | index.js:25-26 | the last part of a split is the text after the last separator, or the whole string when there is none |
| JsStrings.FinalSegmentUnique | index.js:24-27 | a string has exactly one final segment |
| JsStrings.FinalSegmentAfter | index.js:24-27 | the final segment of `prefix + sep + w`, for `w` free of `sep`, is `w` |
| JsStrings.ToLowerCase | index.js:211 | lower-casing keeps the length and maps each character, ASCII capitals to small letters |
| JsStrings.LowerCaseMatches | index.js:211 | comparing the lower-cased string with a lower-case word is a case-insensitive comparison |
| CreateTestIssues.IsIssueCard | index.js:20-22 | returns 6 when some `/`-delimited segment is `issues`, and throws a TypeError otherwise, including for a missing URL |
| CreateTestIssues.GetIssueNumber | index.js:24-27 | the result is what follows the last `/` of the URL |
| CreateTestIssues.IssueNumberAfterLastSlash | index.js:24-27 | for `prefix + "/" + n` with no `/` in `n` the issue number is `n` |
| CreateTestIssues.Prelude | index.js:176-201 | the run stops before any request exactly when the card test throws, and then fails with a TypeError; otherwise there is at least one assignee and one label, the assignee and label entries are free of `,` and join back to their inputs, the owner is the repository input up to its first `/` (all of it when there is none), the name is present exactly when there is a `/` and is the text from there up to the next `/` or the end, and the issue number is the URL's final segment |
| CreateTestIssues.CardMatches | index.js:217 | definition, no contract: a node's own `number` loosely equals the parsed validation project; its meaning is stated by FindCard, EligibleIff and ValidationCardIgnored |
| CreateTestIssues.FindCard | index.js:217 | finds a node exactly when some node's `number` equals the parsed validation project, and the one found is the first matching node of the list |
| CreateTestIssues.IsClosed | index.js:211 | definition, no contract: the lower-cased state is "closed"; EligibleIff states it as a case-insensitive match |
| CreateTestIssues.OnValidationProject | index.js:216-217 | definition, no contract: the node list is non-empty and `find` finds a node; EligibleIff and ValidationCardIgnored state what it means |
| CreateTestIssues.NewIssueTitle | index.js:222 | definition, no contract: the old title, a space and the suffix; CreatedRequest states it of the created request |
| CreateTestIssues.NewIssueBody | index.js:262 | definition, no contract: the fixed body with the issue number; CreatedRequest states it of the created request |
| CreateTestIssues.CreateIssueRequest | index.js:128-137 | definition, no contract: the `createIssueInput` literal, with null client mutation id and milestone and the target project as sole project; CreatedRequest states every field of the created request |
| CreateTestIssues.UserLookups | index.js:235-236 | one user lookup per assignee entry, the k-th for the k-th entry |
| CreateTestIssues.LabelLookups | index.js:247-248 | one label lookup per label entry, the k-th for the k-th entry in the repository's owner and name |
| CreateTestIssues.Resolve | index.js:234-254 | a loop completes exactly when every id is truthy, and then holds one id per key in order; otherwise it stops at the first key whose id is not truthy, after only truthy ids, and throws a TypeError for a faulting getter or "Invalid assignee" with the entry's name |
| CreateTestIssues.ResolveStopsAtFirstFailure | index.js:235-242 | when ids before position k are truthy and id k is not, the loop aborts at k with the matching exception |
| CreateTestIssues.LookUpIds | index.js:234-254 | the loop's result is the one Resolve describes, and its requests are every key, or the keys up to and including the one that aborts |
| CreateTestIssues.Workflow | index.js:173-271 | definition, no contract: the specification of run(), the prelude followed by the stages below; Run is proved equal to it, and CreatedIff, LookupOrder, NonIssueCardFails and the fail-fast lemmas state its properties |
| CreateTestIssues.FromIssueLookup | index.js:203-222 | definition, no contract: the issue lookup, "Issue … not found", the two early returns and the new title; IneligibleSkips and CreatedIff state its outcomes |
| CreateTestIssues.FromProjectLookup | index.js:224-230 | definition, no contract: the target project lookup and "Target project not found!"; LookupOrder and CreatedIff state its outcomes |
| CreateTestIssues.FromAssigneeLookups | index.js:234-265 | definition, no contract: the two loops, the unchecked repository lookup and the request; LookUpIdsAndCreate, CreatedRequest and the fail-fast lemmas state its outcomes |
| CreateTestIssues.Run | index.js:173-271 | the step-by-step run returns the outcome and the sequence of requests of Workflow |
| CreateTestIssues.LookUpIdsAndCreate | index.js:234-265 | after the target project resolves, the two loops, the repository lookup and the request give the outcome and requests of the last stage of Workflow |
| CreateTestIssues.NonIssueCardFails | index.js:176-179 | a card without an `issues` segment fails with a TypeError and sends nothing, an issue card always sends a request, and "Not an issue card" is never the outcome |
| CreateTestIssues.MissingInputsNeverThrown | index.js:191-199 | "Assignees missing" and "Labels missing" are never the outcome |
| CreateTestIssues.EligibleIff | index.js:211-220 | the closed test and the membership test as the code writes them both pass exactly when the state is "closed" in any ASCII case and some node's own number is the validation project |
| CreateTestIssues.IneligibleSkips | index.js:211-220 | a found issue that is not eligible ends the run with an early return after the issue lookup alone: not on the validation project when the state is "closed" in some case, not closed otherwise |
| CreateTestIssues.CreatedIff | index.js:203-265 | the issue is created exactly when the URL is an issue URL, the issue is found and eligible, the target project, every assignee and every label resolve, and the repository lookup does not fault |
| CreateTestIssues.CreatedRequest | index.js:128-137 | a created request has the old title plus a space and the suffix, the fixed body with the issue number, the target project as its only project, null milestone and client mutation id, the assignee and label ids in input order, and the repository lookup's value |
| CreateTestIssues.ValidationCardIgnored | index.js:216-217 | for a reply of the queried shape, a card whose `project` is the validation project still does not pass the membership test |
| CreateTestIssues.QueriedShapeNeverCreates | index.js:216-217 | when every issue reply has the queried shape (no node-level `number`), a run sends at most the issue lookup, never creates an issue, and skips a found closed issue as not on the validation project |
| CreateTestIssues.LookupOrder | index.js:203-258 | the requests are a prefix of issue, target project, each assignee, each label, repository, and all of them when the issue is created |
| CreateTestIssues.IssueLookupFails | index.js:203-209 | when the issue lookup yields no truthy issue, the run ends after that lookup alone: with "Issue … not found" for a falsy issue, with a TypeError for a null part of the reply |
| CreateTestIssues.ProjectLookupFails | index.js:224-230 | for an eligible issue, when the target project lookup yields no truthy id, the run ends after exactly the issue and project lookups: with "Target project not found!" for a falsy id, with a TypeError for a null part of the reply |
| CreateTestIssues.RepositoryStageFaults | index.js:258 | once every assignee and label resolves, a faulting repository lookup fails that stage with a TypeError after all planned lookups |
| CreateTestIssues.RepositoryLookupFaults | index.js:258 | a run that reaches the assignee loop, with every assignee and label resolved and a faulting repository lookup, fails with a TypeError after all planned lookups and sends no mutation |
| CreateTestIssues.AssigneeFailFast | index.js:234-242 | the first assignee with a falsy id ends the run with "Invalid assignee" and that name, after exactly the requests up to its own |
| CreateTestIssues.LabelFailFast | index.js:246-254 | the first label with a falsy id ends the run with "Invalid assignee" and the label name, after exactly the requests up to its own |

## Left out

- `queryGithub` is not modelled: the HTTP transport, the query texts and the token header. Each getter is the oracle's answer to the lookup with the variables it sends.
- The `createIssue` mutation's own reply and a transport failure of it are not modelled. `Created` means the request was sent.
- `console.log` and the text passed to `core.setFailed` are not modelled. The model keeps the thrown value instead of `error.message`.
- `core.getInput`, `github.context.payload` and the `github_token` input are not modelled as reads. They are parameters of the run.
- `async`/`await` is not modelled. Every call completes in order.
- `parseInt` of the validation project is taken as already applied, to an optional integer where None stands for NaN. The issue number and target project number are sent as the strings handed to `parseInt`, because only the oracle reads them.
- JsStrings.ToLowerCase: lower-cases only the ASCII letters A-Z, not the full Unicode case mapping of `toLowerCase`. For the one use, the test at index.js:211, this changes no result. Only two non-ASCII characters lower-case into ASCII: the Kelvin sign becomes `k` and `İ` becomes `i̇`. Neither result contains a letter of "closed", so the comparison comes out as it does in JavaScript.
- These null parts of an issue reply are not modelled:
  - a null `state`;
  - a null `projectCards`;
  - a null `nodes`;
  - a null node that `find` reaches, meaning it comes before the first match.

  Each would make the run fail with a TypeError at the line that reads it. A null node after the first match is never read.
- The issue's `id` field is fetched but never used, so it is not modelled.
- Three simplifications of the oracle. A null `title` is not modelled, although index.js:222 would turn it into the text "null". A failed request or an unparsable JSON reply (index.js:15-16) throws a FetchError or a SyntaxError, not a TypeError, but the model folds it into `Fault` and `Failed(TypeError)`. And the oracle is a function, so repeated identical lookups (assignees `a,a`) always get the same reply, and a reply that changes between two requests is not modelled.
- The assignee loop and the label loop are one method, `LookUpIds`, applied to the two lists of lookups. The only difference between them is the lookup each iteration sends.
