# nomcode review bot: a Dafny model of its core

nomcode is a GitHub App that reviews pull requests with an LLM agent. A
`POST /webhook` handler (`main.py`) checks the webhook's HMAC signature and
keeps only `opened` and `synchronize` pull-request events. It then gets an
installation token (`github_utils.py`), fetches the pull request's diff,
asks the agent for a structured `PRReview` (`schemas.py`), turns that into a
markdown body plus inline comments, and posts one review. A queued task
(`tasks.py`, `_analyze_pr_async`) runs the same pipeline. The difference is
that it re-raises every failure, including a non-2xx answer to the review
POST.

The model has eight modules:

- `Base`: `Option` and `Min`.
- `Strings`: Python's `str.split` for one separator and `str(int)`. Each one
  has an inverse (`Join`, `ParseInt`) and a round-trip proof.
- `Schemas`: `CodeIssue` and `PRReview`.
- `Composer`: the composer loop that both `main.py` and `tasks.py` contain.
  `Body` and `Comments` are its specification. `ComposeReview` is the loop,
  with its invariants.
- `Steps`: the errors that can escape, and the replies of the outside
  services (token endpoint, diff GET, agent, review POST, clock). Also the
  trace of outbound steps, the agent prompt, and the diff and review
  requests.
- `GithubUtils`: `validate_signature`, the JWT claim set, the token URL and
  `get_installation_token`.
- `Webhook`: `handle_webhook`.
- `Worker`: `_analyze_pr_async`.

The handler and the task are functions. Each returns the sequence of
outbound steps it performed (parse, token exchange, diff fetch, agent call,
review POST) and how it ended. Every outside service is an abstract reply
that either fails or succeeds with a value. Each service is called at most
once per run, so one reply per service is a parameter. HMAC-SHA256
(RFC 2104 over SHA-256 of FIPS 180-4) and RS256 signing (section 3.3 of
RFC 7518) are function-valued parameters. The HMAC result is typed as
64 lower-case hex digits.

The model follows what the code does, which is less than a review pipeline
of this kind often does:

- The webhook handler does the whole review inline and answers `success`,
  `ignored` or `ai_failed`. It does not enqueue the task; nothing in
  `main.py` calls `analyze_pr_task`.
- Installation tokens are not cached. Each run makes at most one exchange
  request, and exactly one, with a freshly minted JWT, once it reaches the
  token step.
- The whole diff is clipped to 6000 characters and sent once. Files are not
  fetched, filtered or analysed one by one, so one file's failure is not
  isolated from the others.
- The body has no "Analyzed N files" summary and no suggestion blocks.
- A review with no issues is still posted.

## Model

| member | source | states |
|---|---|---|
| Strings.Split | github_utils.py:49 | `header.split('=')` yields one more piece than there are `'='` characters, and no piece contains `'='`. |
| Strings.JoinSplit | github_utils.py:49 | Joining the pieces with `'='` gives back the header, so the check sees all of it. |
| Strings.SplitJoin | github_utils.py:49 | Splitting a join of `'='`-free pieces gives back exactly those pieces. |
| Strings.SplitAtFirst | github_utils.py:49 | For `a` without `'='`, `(a + "=" + b).split('=')` is `[a]` followed by the pieces of `b`. |
| Strings.IntToStringRoundTrip | github_utils.py:32 | `str(installation_id)` parses back to the same integer, negative ids included. |
| Composer.Comments | tasks.py:53-60 | Exactly one inline comment per issue, in issue order, with `path = file_path`, `line = line_number` and `body = "**[" + issue_type + "]** " + suggestion`. |
| Composer.ComposeReview | main.py:50-63 | The loop's final body is the header plus one bullet per issue in order (`Body`), and its list is `Comments`. The same loop is at tasks.py:51-60. Composition is deterministic. |
| Composer.ExtendByOne | tasks.py:54-60 | One iteration adds exactly the next issue's bullet to the body and its comment to the list. |
| Composer.SummaryLinesAppend | tasks.py:54-55 | The bullets of `a + b` are the bullets of `a` followed by those of `b`. |
| Composer.SummaryLinesFirst | main.py:54-56 | Read from the front, the first bullet is the first issue's own line (type, path, suggestion), followed by the bullets of the rest. |
| Composer.BodyLayout | tasks.py:51 | The body opens with `## 🤖 AI Code Review\n\n**Summary:** `, then the summary verbatim, then `\n\n`, then the bullets. With no issues it is the header alone. |
| Composer.BodyOneMoreIssue | main.py:54-56 | One more issue appends exactly its bullet to the body and changes nothing before it. |
| Steps.Prompt | main.py:44 | The prompt is `"Review this diff:\n\n"` (19 characters) followed by the first min(6000, \|diff\|) characters of the diff. It is at most 6019 long and is the whole diff when the diff is short enough. |
| GithubUtils.ValidateSignature | github_utils.py:41-52 | A missing or empty header gives 403 "Missing signature", even when the secret is also empty. Only with a header does an empty secret give 500. Then a header without exactly one `'='` crashes with an unpacking error, not a 403. A non-ASCII digest crashes in `compare_digest`. Any other digest that differs from the payload's HMAC gets 403 "Invalid signature". |
| GithubUtils.AcceptsMatchingDigest | github_utils.py:49-52 | A header `scheme=<hex HMAC of the raw payload under the secret>` is accepted whatever the scheme name is. |
| GithubUtils.AcceptedOnlyWithMatchingDigest | github_utils.py:43-52 | Acceptance implies a present header, a set secret, exactly one `'='`, and the payload's digest after it. |
| GithubUtils.RefusesForgedSignature | github_utils.py:50-52 | A digest made for another payload or under another secret gets 403 "Invalid signature" whenever the two digests differ. |
| GithubUtils.TruncateToInt | github_utils.py:20-21 | `int(time.time())` truncates toward zero: it stays within one second of the reading. |
| GithubUtils.JwtClaims | github_utils.py:19-23 | `iss` is the app id, `iat` is the truncated first reading and `exp` the truncated second reading plus 600. So `exp - iat` is 600 for equal readings, at least 600 on a non-decreasing clock, and less than 601 plus the elapsed time. |
| GithubUtils.TokenUrlRoundTrip | github_utils.py:32 | The token endpoint URL names its installation, so the installation id can be read back from it. |
| GithubUtils.GetInstallationToken | github_utils.py:26-39 | Each call POSTs to `.../app/installations/<id>/access_tokens` with `Bearer <fresh JWT>` and Accept `application/vnd.github.v3+json`. It returns the `token` field exactly when the status is 2xx and the field is present. Otherwise it raises: transport error, status error (checked before the body), invalid JSON, or missing key. |
| Webhook.SignatureCheckedFirst | main.py:20-22 | A refused or crashing signature check ends the request with that error before the body is parsed or anything is called. A passing check is followed by the parse. |
| Webhook.IgnoredIffOtherAction | main.py:24 | A verified, parsed event gets `ignored`, with no token, diff, agent or post step, exactly when its action is neither `opened` nor `synchronize` (a missing action included). |
| Webhook.MalformedEventStopsBeforeToken | main.py:22-28 | A body that is not a JSON object, or a reviewed event missing `pull_request`, `installation`, `id`, `number` or `title`, raises right after parsing and before any token request. |
| Webhook.HandlerStepsInOrder | main.py:20-84 | Each step happens at most once, in the order parse, token, diff, agent, post, with no step skipped. |
| Webhook.UpstreamFailuresUncaught | main.py:31-39 | The second step is this installation's token request. A failed exchange, or a missing `url` key after a good token (and only that), escapes as that exception itself right after the token step, before the diff GET and the agent. The third step is the GET of the pull request's `url` with `token <token>` and Accept `application/vnd.github.v3.diff`. An unreachable diff escapes as that exception before the agent is called. A diff response of any status goes on to the agent. |
| Webhook.HandlerPromptIsClippedDiff | main.py:39-44 | The agent gets the prompt of the diff text, whatever the diff response's status, and the prompt is at most 6019 characters. |
| Webhook.AiFailureSkipsPost | main.py:41-69 | `ai_failed` comes back exactly when the agent was called and raised. No review is posted then. |
| Webhook.SuccessPostsReviewOnce | main.py:73-87 | `success` comes back exactly when the review POST got any response; its status is not checked. That run holds exactly one POST, last: the composed body, event `COMMENT` and comments, sent to `pr.url + "/reviews"` with `token <token>`. |
| Webhook.HandlerOutcomes | main.py:20-87 | The agent is asked exactly when the signature passes, the event is a reviewed pull-request event with every key the handler reads, the token exchange succeeds and the diff GET gets a response of any status. After that, `ai_failed` comes back exactly when the agent raises. A returned review is always posted, once. `success` comes back exactly when that POST gets any response, and an unreachable POST escapes as that exception. |
| Worker.WorkerStepsInOrder | tasks.py:30-74 | Each step happens at most once, in the order token, diff, agent, post. |
| Worker.CompletesIffEveryStepSucceeds | tasks.py:27-82 | The task completes exactly when every key is present, the token is obtained, the diff arrives, the agent returns and the POST answers 2xx. |
| Worker.FailureStopsLaterSteps | tasks.py:27-82 | A failure ends the run at the step that raised and is re-raised unchanged. A missing `number` or `title` raises before any call, and a missing `url` after a good token raises right after the token step. A run that stops there after a good token always had `url` missing. The second step is the GET of the pull request's `url` with `token <token>` and Accept `application/vnd.github.v3.diff`. A non-2xx POST becomes a status error (tasks.py:74). |
| Worker.PostsComposedReview | tasks.py:45-74 | A run that reaches the post sent the clipped diff to the agent, and made one POST of `Body`, `COMMENT` and `Comments` to `pr.url + "/reviews"` with `token <token>`. |
| Worker.PostsEvenWithoutIssues | tasks.py:51-74 | An agent review with no issues is still posted, with the header-only body and an empty comment list. |
| Worker.HandlerAndTaskPostSameReview | tasks.py:51-60 | Given the same diff and agent output, the handler and the task send the same prompt and post the same body, event and comments. Both are the composer's output. |

## Left out

- HTTP transport (FastAPI, httpx): each call's result is an abstract reply. All transport errors and timeouts are one `Unreachable` error. How FastAPI turns an escaping exception into a response is not modelled.
- The LLM agent (`agents.py`): its run is an abstract reply, either an arbitrary `PRReview` or a failure.
- Configuration (`config.py`): `WEBHOOK_SECRET` is a required setting, so "unset" can only mean the empty string here.
- Celery, the `asyncio.run` bridge, `acks_late` and broker retries: queue machinery with no logic of its own in this repository.
- Cryptographic internals: HMAC-SHA256, `secret.encode()` (folded into the HMAC parameter), RS256 signing, and the constant-time behaviour of `compare_digest`. Timing cannot be expressed here.
- GithubUtils.GenerateJwt: signing is a total function, so a `jwt.encode` failure on a malformed key is not modelled.
- Reading the private-key file in `GithubAuthHelper.__init__` (github_utils.py:11-15): this is file I/O. An `AuthHelper` value stands for a helper that was built successfully.
- Logging calls, including the `len(diff_text)` log line.
- JSON typing: only key presence in the event and the pull request is modelled. A key whose value has the wrong JSON type (for example `pull_request: null`) is not modelled, and neither are the `TypeError`s it would cause.
