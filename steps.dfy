/**
 * What the handler and the worker have in common: the errors that can
 * escape them, the replies of the services they call (HTTP endpoints,
 * the review agent, the clock), the outbound steps they record, and the
 * requests they build from those replies.
 */
module Steps {
  import opened Base
  import opened Schemas
  import opened Composer

  /** The exceptions that can leave a step. */
  datatype Error =
    | SignatureUnpack(got: nat)   // `a, b = header.split('=')` did not get two pieces
    | NonAsciiDigest              // `hmac.compare_digest` refuses non-ASCII `str` arguments
    | InvalidJson                 // a body that is not a JSON object
    | MissingKey(key: string)     // a dictionary lookup on an absent key
    | Unreachable                 // the HTTP request itself failed
    | StatusError(code: int)      // `raise_for_status` on a non-2xx response
    | AgentError                  // the review agent raised

  /** Python-style result of a step that can raise. */
  datatype Try<+T> = Ok(value: T) | Raised(error: Error)

  /** The status range that `raise_for_status` lets through. */
  predicate IsSuccess(status: int)
  {
    200 <= status < 300
  }

  /** The keys of a pull-request object that the core reads. */
  datatype PullRequest = PullRequest(number: Option<int>, title: Option<string>, url: Option<string>)

  /** What the token endpoint's body holds. */
  datatype TokenBody = NotJson | NoToken | TokenField(token: string)

  datatype ExchangeReply = ExchangeUnreachable | ExchangeResponse(status: int, body: TokenBody)
  datatype DiffReply = DiffUnreachable | DiffResponse(status: int, text: string)
  datatype AgentReply = AgentRaised | AgentReturned(review: PRReview)
  datatype PostReply = PostUnreachable | PostResponse(status: int)

  /** The two readings of `time.time()` taken while minting one JWT, in seconds. */
  datatype Clock = Clock(first: real, second: real)

  /**
   * Everything the outside world answers during one run: each service is
   * called at most once per run, so one reply per service suffices.
   */
  datatype Upstream = Upstream(clock: Clock, exchange: ExchangeReply, diff: DiffReply, agent: AgentReply, post: PostReply)

  /** The JSON of the review POST. */
  datatype ReviewPost = ReviewPost(body: string, event: string, comments: seq<InlineComment>)

  /** One outbound action, in the order a run performs them. */
  datatype Step =
    | ParseBody
    | ExchangeToken(url: string, authorization: string, accept: string)
    | FetchDiff(url: string, authorization: string, accept: string)
    | RunAgent(prompt: string)
    | PostReview(url: string, authorization: string, review: ReviewPost)

  /** Position of each kind of step in the fixed pipeline order. */
  function Rank(step: Step): nat
  {
    match step
    case ParseBody => 0
    case ExchangeToken(_, _, _) => 1
    case FetchDiff(_, _, _) => 2
    case RunAgent(_) => 3
    case PostReview(_, _, _) => 4
  }

  /** Number of review POSTs in a trace. */
  function Posts(trace: seq<Step>): nat
  {
    if trace == [] then 0 else Posts(trace[..|trace| - 1]) + (if trace[|trace| - 1].PostReview? then 1 else 0)
  }

  /** A trace with no POST before its last step posts once if that step is a POST, else never. */
  lemma {:induction false} PostsAtMostLast(trace: seq<Step>)
    requires forall k :: 0 <= k < |trace| - 1 ==> !trace[k].PostReview?
    ensures Posts(trace) == if trace != [] && trace[|trace| - 1].PostReview? then 1 else 0
    decreases |trace|
  {
    if trace != [] {
      var front := trace[..|trace| - 1];
      if front != [] {
        assert front[|front| - 1] == trace[|trace| - 2];
        PostsAtMostLast(front);
      }
    }
  }

  const PromptIntro := "Review this diff:\n\n"
  const DiffLimit := 6000

  /**
   * The agent prompt: the fixed introduction followed by at most the
   * first 6000 characters of the diff.
   */
  function Prompt(diff: string): (p: string)
    ensures |p| == |PromptIntro| + Min(DiffLimit, |diff|) <= |PromptIntro| + DiffLimit
    ensures p[..|PromptIntro|] == PromptIntro
    ensures p[|PromptIntro|..] == diff[..Min(DiffLimit, |diff|)]
    ensures |diff| <= DiffLimit ==> p == PromptIntro + diff
  {
    PromptIntro + diff[..Min(DiffLimit, |diff|)]
  }

  /** The GET of the pull request's diff with the installation token. */
  function DiffRequest(prUrl: string, token: string): Step
  {
    FetchDiff(prUrl, "token " + token, "application/vnd.github.v3.diff")
  }

  /** The POST of the composed review to the pull request's reviews endpoint. */
  function ReviewRequest(prUrl: string, token: string, review: PRReview): Step
  {
    PostReview(prUrl + "/reviews", "token " + token, ReviewPost(Body(review), "COMMENT", Comments(review.issues)))
  }
}
