/**
 * The review composer, which both the webhook handler and the worker
 * contain as the same loop: it turns the agent's `PRReview` into the
 * markdown body of the review and one positioned inline comment per issue.
 * `Body` and `Comments` are its specification; `ComposeReview` is the loop.
 */
module Composer {
  import opened Schemas

  /** One entry of the review's `comments` list: `{path, line, body}`. */
  datatype InlineComment = InlineComment(path: string, line: int, body: string)

  /** The fixed opening of every review body, up to the summary. */
  const Heading := "## \U{1F916} AI Code Review\n\n**Summary:** "

  /** The body the loop starts from: heading, summary, blank line. */
  function Header(summary: string): string
  {
    Heading + summary + "\n\n"
  }

  /** The bullet the loop appends to the body for one issue. */
  function SummaryLine(issue: CodeIssue): string
  {
    "- **" + issue.issueType + "** in `" + issue.filePath + "`: " + issue.suggestion + "\n"
  }

  /** The inline comment the loop appends to the list for one issue. */
  function CommentFor(issue: CodeIssue): InlineComment
  {
    InlineComment(issue.filePath, issue.lineNumber, "**[" + issue.issueType + "]** " + issue.suggestion)
  }

  /** The bullets for `issues`, in order, as the loop accumulates them. */
  function SummaryLines(issues: seq<CodeIssue>): string
  {
    if issues == [] then ""
    else SummaryLines(issues[..|issues| - 1]) + SummaryLine(issues[|issues| - 1])
  }

  /**
   * The inline comments for `issues`: exactly one per issue, in issue
   * order, each built field for field from its issue.
   */
  function Comments(issues: seq<CodeIssue>): (cs: seq<InlineComment>)
    ensures |cs| == |issues|
    ensures forall k :: 0 <= k < |issues| ==>
      cs[k].path == issues[k].filePath &&
      cs[k].line == issues[k].lineNumber &&
      cs[k].body == "**[" + issues[k].issueType + "]** " + issues[k].suggestion
  {
    if issues == [] then []
    else Comments(issues[..|issues| - 1]) + [CommentFor(issues[|issues| - 1])]
  }

  /** The review body: the header followed by one bullet per issue. */
  function Body(review: PRReview): string
  {
    Header(review.summary) + SummaryLines(review.issues)
  }

  /**
   * The composer loop: start from the header and an empty list, and for
   * each issue append its bullet to the body and its comment to the list.
   */
  method ComposeReview(review: PRReview) returns (body: string, comments: seq<InlineComment>)
    ensures body == Body(review)
    ensures comments == Comments(review.issues)
  {
    var issues := review.issues;
    body := Header(review.summary);
    comments := [];
    for i := 0 to |issues|
      invariant body == Header(review.summary) + SummaryLines(issues[..i])
      invariant comments == Comments(issues[..i])
    {
      var issue := issues[i];
      ExtendByOne(review.summary, issues, i);
      body := body + SummaryLine(issue);
      comments := comments + [CommentFor(issue)];
    }
    assert issues[..|issues|] == issues;
  }

  /** One loop iteration: the prefix of issues grows by the next one. */
  lemma ExtendByOne(summary: string, issues: seq<CodeIssue>, i: nat)
    requires i < |issues|
    ensures Header(summary) + SummaryLines(issues[..i + 1])
            == Header(summary) + SummaryLines(issues[..i]) + SummaryLine(issues[i])
    ensures Comments(issues[..i + 1]) == Comments(issues[..i]) + [CommentFor(issues[i])]
  {
    assert issues[..i + 1][..i] == issues[..i];
  }

  /** The bullets of two runs of issues are the bullets of each, in order. */
  lemma {:induction false} SummaryLinesAppend(a: seq<CodeIssue>, b: seq<CodeIssue>)
    ensures SummaryLines(a + b) == SummaryLines(a) + SummaryLines(b)
    decreases |b|
  {
    if b == [] {
      assert a + b == a;
    } else {
      var front := b[..|b| - 1];
      assert (a + b)[..|a + b| - 1] == a + front;
      assert (a + b)[|a + b| - 1] == b[|b| - 1];
      SummaryLinesAppend(a, front);
      var last := SummaryLine(b[|b| - 1]);
      assert SummaryLines(a) + SummaryLines(front) + last == SummaryLines(a) + (SummaryLines(front) + last);
    }
  }

  /** Read from the front: the first issue's bullet comes first, then the rest. */
  lemma SummaryLinesFirst(issue: CodeIssue, rest: seq<CodeIssue>)
    ensures SummaryLines([issue] + rest) == SummaryLine(issue) + SummaryLines(rest)
  {
    SummaryLinesAppend([issue], rest);
    assert SummaryLines([issue]) == SummaryLines([]) + SummaryLine(issue);
  }

  /**
   * The body opens with the fixed heading, the summary follows verbatim,
   * and the bullets come after the blank line; with no issues the body is
   * the header alone.
   */
  lemma BodyLayout(review: PRReview)
    ensures Body(review)[..|Heading|] == Heading
    ensures Body(review)[|Heading|..|Heading| + |review.summary|] == review.summary
    ensures Body(review)[|Heading| + |review.summary|..|Heading| + |review.summary| + 2] == "\n\n"
    ensures Body(review)[|Heading| + |review.summary| + 2..] == SummaryLines(review.issues)
    ensures review.issues == [] ==> Body(review) == Header(review.summary)
  {
  }

  /** Adding one more issue appends exactly its bullet to the body. */
  lemma BodyOneMoreIssue(summary: string, issues: seq<CodeIssue>, issue: CodeIssue)
    ensures Body(PRReview(summary, issues + [issue])) == Body(PRReview(summary, issues)) + SummaryLine(issue)
  {
    assert (issues + [issue])[..|issues|] == issues;
  }
}
