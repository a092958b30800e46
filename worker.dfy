/**
 * The queued review task: token, diff, agent, post, in that order. Any
 * exception, including a non-2xx answer to the review POST, is logged and
 * re-raised, so the task fails whenever a step fails.
 */
module Worker {
  import opened Base
  import opened Schemas
  import opened Composer
  import opened Steps
  import opened GithubUtils
  import Webhook

  datatype TaskOutcome = Completed | Reraised(error: Error)

  /** The outbound steps of one task run, in order, and how it ended. */
  datatype TaskRun = TaskRun(trace: seq<Step>, outcome: TaskOutcome)

  /** `_analyze_pr_async` for one installation and pull request. */
  function AnalyzePr(helper: AuthHelper, crypto: Crypto, installationId: int, pr: PullRequest, upstream: Upstream): TaskRun
  {
    if pr.number.None? then TaskRun([], Reraised(MissingKey("number")))
    else if pr.title.None? then TaskRun([], Reraised(MissingKey("title")))
    else
      var auth := GetInstallationToken(helper, crypto.signRs256, upstream.clock, installationId, upstream.exchange);
      match auth.token
      case Raised(e) => TaskRun([auth.request], Reraised(e))
      case Ok(token) =>
        if pr.url.None? then TaskRun([auth.request], Reraised(MissingKey("url")))
        else
          var fetch := DiffRequest(pr.url.value, token);
          match upstream.diff
          case DiffUnreachable => TaskRun([auth.request, fetch], Reraised(Unreachable))
          case DiffResponse(_, diffText) =>
            var ask := RunAgent(Prompt(diffText));
            match upstream.agent
            case AgentRaised => TaskRun([auth.request, fetch, ask], Reraised(AgentError))
            case AgentReturned(review) =>
              var post := ReviewRequest(pr.url.value, token, review);
              match upstream.post
              case PostUnreachable => TaskRun([auth.request, fetch, ask, post], Reraised(Unreachable))
              case PostResponse(status) =>
                if IsSuccess(status) then TaskRun([auth.request, fetch, ask, post], Completed)
                else TaskRun([auth.request, fetch, ask, post], Reraised(StatusError(status)))
  }

  /** Steps happen at most once each, in the order token, diff, agent, post. */
  lemma WorkerStepsInOrder(helper: AuthHelper, crypto: Crypto, installationId: int, pr: PullRequest, upstream: Upstream)
    ensures var run := AnalyzePr(helper, crypto, installationId, pr, upstream);
            forall k :: 0 <= k < |run.trace| ==> Rank(run.trace[k]) == k + 1
  {
  }

  /** The task completes exactly when every step succeeds, the POST with a 2xx status. */
  lemma CompletesIffEveryStepSucceeds(helper: AuthHelper, crypto: Crypto, installationId: int, pr: PullRequest, upstream: Upstream)
    ensures AnalyzePr(helper, crypto, installationId, pr, upstream).outcome == Completed <==>
      pr.number.Some? && pr.title.Some? && pr.url.Some? &&
      GetInstallationToken(helper, crypto.signRs256, upstream.clock, installationId, upstream.exchange).token.Ok? &&
      upstream.diff.DiffResponse? && upstream.agent.AgentReturned? &&
      upstream.post.PostResponse? && IsSuccess(upstream.post.status)
  {
  }

  /**
   * A failure ends the run at the step that raised it: the length of the
   * trace says which step that was, and the exception is re-raised as is.
   */
  lemma FailureStopsLaterSteps(helper: AuthHelper, crypto: Crypto, installationId: int, pr: PullRequest, upstream: Upstream)
    ensures var run := AnalyzePr(helper, crypto, installationId, pr, upstream);
            var auth := GetInstallationToken(helper, crypto.signRs256, upstream.clock, installationId, upstream.exchange);
            (pr.number.None? ==> run == TaskRun([], Reraised(MissingKey("number")))) &&
            (pr.number.Some? && pr.title.None? ==> run == TaskRun([], Reraised(MissingKey("title")))) &&
            (pr.number.Some? && pr.title.Some? && auth.token.Ok? && pr.url.None? ==>
               run == TaskRun([auth.request], Reraised(MissingKey("url")))) &&
            (|run.trace| == 0 ==> run.outcome == Reraised(MissingKey(if pr.number.None? then "number" else "title"))) &&
            (|run.trace| >= 1 ==> run.trace[0] == auth.request) &&
            (|run.trace| >= 1 && auth.token.Raised? ==> run == TaskRun([auth.request], Reraised(auth.token.error))) &&
            (|run.trace| == 1 && auth.token.Ok? ==> run.outcome == Reraised(MissingKey("url"))) &&
            (|run.trace| == 1 && auth.token.Ok? ==> pr.url.None?) &&
            (|run.trace| >= 2 ==>
               pr.url.Some? && auth.token.Ok? &&
               run.trace[1] == DiffRequest(pr.url.value, auth.token.value)) &&
            (|run.trace| >= 2 && upstream.diff.DiffUnreachable? ==> |run.trace| == 2 && run.outcome == Reraised(Unreachable)) &&
            (|run.trace| >= 3 && upstream.agent.AgentRaised? ==> |run.trace| == 3 && run.outcome == Reraised(AgentError)) &&
            (|run.trace| == 4 && upstream.post.PostUnreachable? ==> run.outcome == Reraised(Unreachable)) &&
            (|run.trace| == 4 && upstream.post.PostResponse? ==>
               run.outcome == if IsSuccess(upstream.post.status) then Completed else Reraised(StatusError(upstream.post.status)))
  {
  }

  /**
   * When the task gets as far as posting, the agent saw the clipped diff
   * and the one POST carries the composed review, event "COMMENT", to the
   * reviews endpoint with the installation token.
   */
  lemma PostsComposedReview(helper: AuthHelper, crypto: Crypto, installationId: int, pr: PullRequest, upstream: Upstream)
    requires |AnalyzePr(helper, crypto, installationId, pr, upstream).trace| == 4
    ensures pr.url.Some? && upstream.diff.DiffResponse? && upstream.agent.AgentReturned?
    ensures var run := AnalyzePr(helper, crypto, installationId, pr, upstream);
            var review := upstream.agent.review;
            Posts(run.trace) == 1 &&
            run.trace[2] == RunAgent(Prompt(upstream.diff.text)) &&
            run.trace[3] == PostReview(pr.url.value + "/reviews", "token " + upstream.exchange.body.token,
                                       ReviewPost(Body(review), "COMMENT", Comments(review.issues)))
  {
    WorkerStepsInOrder(helper, crypto, installationId, pr, upstream);
    PostsAtMostLast(AnalyzePr(helper, crypto, installationId, pr, upstream).trace);
  }

  /**
   * A review without issues is still posted: the body is the header alone
   * and the comment list is empty.
   */
  lemma PostsEvenWithoutIssues(helper: AuthHelper, crypto: Crypto, installationId: int, pr: PullRequest,
                               upstream: Upstream, summary: string)
    requires pr.number.Some? && pr.title.Some? && pr.url.Some?
    requires GetInstallationToken(helper, crypto.signRs256, upstream.clock, installationId, upstream.exchange).token.Ok?
    requires upstream.diff.DiffResponse? && upstream.agent == AgentReturned(PRReview(summary, []))
    ensures var run := AnalyzePr(helper, crypto, installationId, pr, upstream);
            |run.trace| == 4 && run.trace[3].review == ReviewPost(Header(summary), "COMMENT", [])
  {
    BodyLayout(PRReview(summary, []));
  }

  /**
   * The handler and the task compose the same review: for the same agent
   * output, the prompt they sent and the review body, event and comments
   * they posted coincide, and are the composer's.
   */
  lemma HandlerAndTaskPostSameReview(secret: string, helper: AuthHelper, crypto: Crypto, request: Webhook.Request,
                                     json: Option<Webhook.Payload>, handlerUpstream: Upstream,
                                     installationId: int, pr: PullRequest, taskUpstream: Upstream)
    requires |Webhook.HandleWebhook(secret, helper, crypto, request, json, handlerUpstream).trace| == 5
    requires |AnalyzePr(helper, crypto, installationId, pr, taskUpstream).trace| == 4
    requires handlerUpstream.diff.text == taskUpstream.diff.text
    requires handlerUpstream.agent == taskUpstream.agent
    ensures taskUpstream.agent.AgentReturned?
    ensures var handler := Webhook.HandleWebhook(secret, helper, crypto, request, json, handlerUpstream);
            var task := AnalyzePr(helper, crypto, installationId, pr, taskUpstream);
            var review := taskUpstream.agent.review;
            handler.trace[3] == task.trace[2] &&
            handler.trace[4].review == task.trace[3].review == ReviewPost(Body(review), "COMMENT", Comments(review.issues))
  {
    Webhook.SuccessPostsReviewOnce(secret, helper, crypto, request, json, handlerUpstream);
    Webhook.HandlerPromptIsClippedDiff(secret, helper, crypto, request, json, handlerUpstream);
    PostsComposedReview(helper, crypto, installationId, pr, taskUpstream);
  }
}
