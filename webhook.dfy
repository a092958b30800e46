/**
 * The `POST /webhook` handler: verify the signature on the raw body, parse
 * it, keep only "opened" and "synchronize" pull-request events, get an
 * installation token, fetch the diff, ask the agent for a review, compose
 * it and post it. Only a failure of the agent is caught (as "ai_failed");
 * every other failure leaves the handler as an uncaught exception.
 */
module Webhook {
  import opened Base
  import opened Composer
  import opened Steps
  import opened GithubUtils

  /** The request as it arrives: raw body bytes and the signature header, if any. */
  datatype Request = Request(body: seq<bv8>, signatureHeader: Option<string>)

  datatype Installation = Installation(id: Option<int>)

  /** The keys of the parsed event that the handler reads. */
  datatype Payload = Payload(action: Option<string>, pullRequest: Option<PullRequest>, installation: Option<Installation>)

  /** An HTTP error raised by the signature check, a `{"status": ...}` reply, or an escaping exception. */
  datatype Response = Rejected(code: int, detail: string) | Responded(status: string) | Uncaught(error: Error)

  /** The outbound steps one request performed, in order, and how it ended. */
  datatype HandlerRun = HandlerRun(trace: seq<Step>, response: Response)

  predicate IsReviewedAction(action: Option<string>)
  {
    action == Some("opened") || action == Some("synchronize")
  }

  /**
   * `handle_webhook`. `json` is what `request.json()` yields (`None` when the
   * body is not a JSON object); `upstream` holds the replies of the services
   * called after it.
   */
  function HandleWebhook(secret: string, helper: AuthHelper, crypto: Crypto, request: Request,
                         json: Option<Payload>, upstream: Upstream): HandlerRun
  {
    match ValidateSignature(request.body, request.signatureHeader, secret, crypto.hmacSha256Hex)
    case Refused(status, detail) => HandlerRun([], Rejected(status, detail))
    case Crashed(e) => HandlerRun([], Uncaught(e))
    case Accepted =>
      if json.None? then HandlerRun([ParseBody], Uncaught(InvalidJson))
      else if !IsReviewedAction(json.value.action) then HandlerRun([ParseBody], Responded("ignored"))
      else
        var rest := ReviewPullRequest(helper, crypto, json.value, upstream);
        HandlerRun([ParseBody] + rest.trace, rest.response)
  }

  /** The handler's work on a reviewed action, after the body has been parsed. */
  function ReviewPullRequest(helper: AuthHelper, crypto: Crypto, payload: Payload, upstream: Upstream): HandlerRun
  {
    if payload.pullRequest.None? then HandlerRun([], Uncaught(MissingKey("pull_request")))
    else if payload.installation.None? then HandlerRun([], Uncaught(MissingKey("installation")))
    else if payload.installation.value.id.None? then HandlerRun([], Uncaught(MissingKey("id")))
    else
      var pr := payload.pullRequest.value;
      if pr.number.None? then HandlerRun([], Uncaught(MissingKey("number")))
      else if pr.title.None? then HandlerRun([], Uncaught(MissingKey("title")))
      else
        var auth := GetInstallationToken(helper, crypto.signRs256, upstream.clock,
                                         payload.installation.value.id.value, upstream.exchange);
        match auth.token
        case Raised(e) => HandlerRun([auth.request], Uncaught(e))
        case Ok(token) =>
          if pr.url.None? then HandlerRun([auth.request], Uncaught(MissingKey("url")))
          else
            var fetch := DiffRequest(pr.url.value, token);
            match upstream.diff
            case DiffUnreachable => HandlerRun([auth.request, fetch], Uncaught(Unreachable))
            case DiffResponse(_, diffText) =>
              var ask := RunAgent(Prompt(diffText));
              match upstream.agent
              case AgentRaised => HandlerRun([auth.request, fetch, ask], Responded("ai_failed"))
              case AgentReturned(review) =>
                var post := ReviewRequest(pr.url.value, token, review);
                match upstream.post
                case PostUnreachable => HandlerRun([auth.request, fetch, ask, post], Uncaught(Unreachable))
                case PostResponse(_) => HandlerRun([auth.request, fetch, ask, post], Responded("success"))
  }

  /**
   * The signature is checked before anything else: when it does not pass,
   * the body is never parsed and nothing is called; when it passes, parsing
   * is the first step.
   */
  lemma SignatureCheckedFirst(secret: string, helper: AuthHelper, crypto: Crypto, request: Request,
                              json: Option<Payload>, upstream: Upstream)
    ensures var verdict := ValidateSignature(request.body, request.signatureHeader, secret, crypto.hmacSha256Hex);
            var run := HandleWebhook(secret, helper, crypto, request, json, upstream);
            (verdict.Refused? ==> run == HandlerRun([], Rejected(verdict.status, verdict.detail))) &&
            (verdict.Crashed? ==> run == HandlerRun([], Uncaught(verdict.error))) &&
            (verdict.Accepted? ==> |run.trace| >= 1 && run.trace[0] == ParseBody)
  {
  }

  /**
   * A verified event is ignored, with nothing called after parsing, exactly
   * when its action is neither "opened" nor "synchronize" (or is absent).
   */
  lemma IgnoredIffOtherAction(secret: string, helper: AuthHelper, crypto: Crypto, request: Request,
                              json: Option<Payload>, upstream: Upstream)
    ensures var run := HandleWebhook(secret, helper, crypto, request, json, upstream);
            run.response == Responded("ignored") <==>
              ValidateSignature(request.body, request.signatureHeader, secret, crypto.hmacSha256Hex) == Accepted &&
              json.Some? && !IsReviewedAction(json.value.action)
    ensures var run := HandleWebhook(secret, helper, crypto, request, json, upstream);
            run.response == Responded("ignored") ==> run.trace == [ParseBody]
  {
  }

  /**
   * A verified body that is not a JSON object, or a reviewed event without
   * the pull request, the installation id, or the pull request's number or
   * title, escapes as an exception right after parsing, before any token
   * is requested.
   */
  lemma MalformedEventStopsBeforeToken(secret: string, helper: AuthHelper, crypto: Crypto, request: Request,
                                       json: Option<Payload>, upstream: Upstream)
    requires ValidateSignature(request.body, request.signatureHeader, secret, crypto.hmacSha256Hex) == Accepted
    ensures var run := HandleWebhook(secret, helper, crypto, request, json, upstream);
            (json.None? ==> run == HandlerRun([ParseBody], Uncaught(InvalidJson))) &&
            (run.trace == [ParseBody] ==>
               run.response == Responded("ignored") || run.response == Uncaught(InvalidJson) ||
               run.response in {Uncaught(MissingKey("pull_request")), Uncaught(MissingKey("installation")),
                                Uncaught(MissingKey("id")), Uncaught(MissingKey("number")), Uncaught(MissingKey("title"))})
    ensures var run := HandleWebhook(secret, helper, crypto, request, json, upstream);
            json.Some? && IsReviewedAction(json.value.action) && json.value.pullRequest.None? ==>
              run == HandlerRun([ParseBody], Uncaught(MissingKey("pull_request")))
    ensures var run := HandleWebhook(secret, helper, crypto, request, json, upstream);
            json.Some? && IsReviewedAction(json.value.action) && json.value.pullRequest.Some? &&
            json.value.installation.None? ==>
              run == HandlerRun([ParseBody], Uncaught(MissingKey("installation")))
    ensures var run := HandleWebhook(secret, helper, crypto, request, json, upstream);
            json.Some? && IsReviewedAction(json.value.action) && json.value.pullRequest.Some? &&
            json.value.installation.Some? && json.value.installation.value.id.None? ==>
              run == HandlerRun([ParseBody], Uncaught(MissingKey("id")))
    ensures var run := HandleWebhook(secret, helper, crypto, request, json, upstream);
            json.Some? && IsReviewedAction(json.value.action) && json.value.pullRequest.Some? &&
            json.value.installation.Some? && json.value.installation.value.id.Some? &&
            json.value.pullRequest.value.number.None? ==>
              run == HandlerRun([ParseBody], Uncaught(MissingKey("number")))
    ensures var run := HandleWebhook(secret, helper, crypto, request, json, upstream);
            json.Some? && IsReviewedAction(json.value.action) && json.value.pullRequest.Some? &&
            json.value.installation.Some? && json.value.installation.value.id.Some? &&
            json.value.pullRequest.value.number.Some? && json.value.pullRequest.value.title.None? ==>
              run == HandlerRun([ParseBody], Uncaught(MissingKey("title")))
  {
  }

  /** Steps happen at most once each, in the order parse, token, diff, agent, post. */
  lemma HandlerStepsInOrder(secret: string, helper: AuthHelper, crypto: Crypto, request: Request,
                            json: Option<Payload>, upstream: Upstream)
    ensures var run := HandleWebhook(secret, helper, crypto, request, json, upstream);
            forall k :: 0 <= k < |run.trace| ==> Rank(run.trace[k]) == k
  {
  }

  /**
   * Once the token exchange is reached, it is the installation's token
   * request; a failed exchange, a missing `url` or an unreachable diff ends
   * the run with the exception itself, before the agent is asked. The diff
   * is fetched from the pull request's own url with the installation token.
   */
  lemma UpstreamFailuresUncaught(secret: string, helper: AuthHelper, crypto: Crypto, request: Request,
                                 json: Option<Payload>, upstream: Upstream)
    requires |HandleWebhook(secret, helper, crypto, request, json, upstream).trace| >= 2
    ensures json.Some? && json.value.pullRequest.Some? &&
            json.value.installation.Some? && json.value.installation.value.id.Some?
    ensures var run := HandleWebhook(secret, helper, crypto, request, json, upstream);
            var auth := GetInstallationToken(helper, crypto.signRs256, upstream.clock,
                                             json.value.installation.value.id.value, upstream.exchange);
            run.trace[1] == auth.request &&
            (auth.token.Raised? ==> run == HandlerRun([ParseBody, auth.request], Uncaught(auth.token.error))) &&
            (upstream.diff.DiffUnreachable? ==> |run.trace| <= 3 && run.response.Uncaught?) &&
            (|run.trace| == 3 && upstream.diff.DiffUnreachable? ==> run.response == Uncaught(Unreachable)) &&
            (|run.trace| == 3 ==> upstream.diff.DiffUnreachable?) &&
            (|run.trace| == 2 && auth.token.Ok? ==> run.response == Uncaught(MissingKey("url"))) &&
            (|run.trace| == 2 && auth.token.Ok? ==> json.value.pullRequest.value.url.None?) &&
            (auth.token.Ok? && json.value.pullRequest.value.url.None? ==>
               run == HandlerRun([ParseBody, auth.request], Uncaught(MissingKey("url")))) &&
            (|run.trace| >= 3 ==>
               json.value.pullRequest.value.url.Some? && auth.token.Ok? &&
               run.trace[2] == DiffRequest(json.value.pullRequest.value.url.value, auth.token.value))
  {
  }

  /**
   * The agent is given the introduction and at most 6000 characters of the
   * diff text, whatever the status of the diff response.
   */
  lemma HandlerPromptIsClippedDiff(secret: string, helper: AuthHelper, crypto: Crypto, request: Request,
                                   json: Option<Payload>, upstream: Upstream)
    requires |HandleWebhook(secret, helper, crypto, request, json, upstream).trace| >= 4
    ensures upstream.diff.DiffResponse?
    ensures var prompt := HandleWebhook(secret, helper, crypto, request, json, upstream).trace[3];
            prompt == RunAgent(Prompt(upstream.diff.text)) && |prompt.prompt| <= |PromptIntro| + DiffLimit
  {
  }

  /**
   * "ai_failed" is answered exactly when the agent was asked and raised;
   * then no review is posted.
   */
  lemma AiFailureSkipsPost(secret: string, helper: AuthHelper, crypto: Crypto, request: Request,
                           json: Option<Payload>, upstream: Upstream)
    ensures var run := HandleWebhook(secret, helper, crypto, request, json, upstream);
            run.response == Responded("ai_failed") <==> |run.trace| >= 4 && upstream.agent.AgentRaised?
    ensures var run := HandleWebhook(secret, helper, crypto, request, json, upstream);
            run.response == Responded("ai_failed") ==> |run.trace| == 4 && Posts(run.trace) == 0
  {
    var run := HandleWebhook(secret, helper, crypto, request, json, upstream);
    if ValidateSignature(request.body, request.signatureHeader, secret, crypto.hmacSha256Hex).Accepted?
       && json.Some? && IsReviewedAction(json.value.action) {
      var rest := ReviewPullRequest(helper, crypto, json.value, upstream);
      assert run.trace == [ParseBody] + rest.trace && run.response == rest.response;
      assert rest.response == Responded("ai_failed") <==> |rest.trace| >= 3 && upstream.agent.AgentRaised?;
    }
    HandlerStepsInOrder(secret, helper, crypto, request, json, upstream);
    PostsAtMostLast(run.trace);
  }

  /**
   * "success" is answered exactly when the review POST went out and got any
   * response at all; the status is not checked. The run then holds exactly
   * one POST, last, of the composed review to the pull request's reviews
   * endpoint with the installation token.
   */
  lemma SuccessPostsReviewOnce(secret: string, helper: AuthHelper, crypto: Crypto, request: Request,
                               json: Option<Payload>, upstream: Upstream)
    ensures var run := HandleWebhook(secret, helper, crypto, request, json, upstream);
            run.response == Responded("success") <==> |run.trace| == 5 && upstream.post.PostResponse?
    ensures var run := HandleWebhook(secret, helper, crypto, request, json, upstream);
            run.response == Responded("success") ==>
              json.Some? && json.value.pullRequest.Some? && json.value.pullRequest.value.url.Some? &&
              upstream.agent.AgentReturned? && Posts(run.trace) == 1 &&
              var review := upstream.agent.review;
              run.trace[4] == PostReview(json.value.pullRequest.value.url.value + "/reviews",
                                         "token " + upstream.exchange.body.token,
                                         ReviewPost(Body(review), "COMMENT", Comments(review.issues)))
  {
    HandlerStepsInOrder(secret, helper, crypto, request, json, upstream);
    PostsAtMostLast(HandleWebhook(secret, helper, crypto, request, json, upstream).trace);
  }

  /**
   * A request gets as far as the agent: its signature passes, it is a
   * reviewed pull-request event with every key the handler reads, the
   * token exchange succeeds and the diff GET gets a response of any status.
   */
  predicate ReachesAgent(secret: string, helper: AuthHelper, crypto: Crypto, request: Request,
                         json: Option<Payload>, upstream: Upstream)
  {
    ValidateSignature(request.body, request.signatureHeader, secret, crypto.hmacSha256Hex).Accepted? &&
    json.Some? && IsReviewedAction(json.value.action) &&
    json.value.pullRequest.Some? && json.value.installation.Some? && json.value.installation.value.id.Some? &&
    json.value.pullRequest.value.number.Some? && json.value.pullRequest.value.title.Some? &&
    json.value.pullRequest.value.url.Some? &&
    GetInstallationToken(helper, crypto.signRs256, upstream.clock,
                         json.value.installation.value.id.value, upstream.exchange).token.Ok? &&
    upstream.diff.DiffResponse?
  }

  /**
   * The handler's outcomes in terms of its inputs: the agent is asked
   * exactly when everything before it succeeds; then a raising agent gives
   * "ai_failed", a returned review is posted, and the POST gives "success"
   * on any response and escapes when it is unreachable.
   */
  lemma HandlerOutcomes(secret: string, helper: AuthHelper, crypto: Crypto, request: Request,
                        json: Option<Payload>, upstream: Upstream)
    ensures var run := HandleWebhook(secret, helper, crypto, request, json, upstream);
            ReachesAgent(secret, helper, crypto, request, json, upstream) <==> |run.trace| >= 4
    ensures var run := HandleWebhook(secret, helper, crypto, request, json, upstream);
            run.response == Responded("success") <==>
              ReachesAgent(secret, helper, crypto, request, json, upstream) &&
              upstream.agent.AgentReturned? && upstream.post.PostResponse?
    ensures var run := HandleWebhook(secret, helper, crypto, request, json, upstream);
            run.response == Responded("ai_failed") <==>
              ReachesAgent(secret, helper, crypto, request, json, upstream) && upstream.agent.AgentRaised?
    ensures var run := HandleWebhook(secret, helper, crypto, request, json, upstream);
            ReachesAgent(secret, helper, crypto, request, json, upstream) && upstream.agent.AgentReturned? ==>
              |run.trace| == 5 && Posts(run.trace) == 1 &&
              (upstream.post.PostUnreachable? ==> run.response == Uncaught(Unreachable))
  {
    PostsAtMostLast(HandleWebhook(secret, helper, crypto, request, json, upstream).trace);
  }
}
