/** The structured output the review agent must produce. */
module Schemas {
  /** One finding: where it is, its kind ("Bug", "Security", ...) and the advice. */
  datatype CodeIssue = CodeIssue(filePath: string, lineNumber: int, issueType: string, suggestion: string)

  /** The whole review: a summary and the findings in the order the agent gave them. */
  datatype PRReview = PRReview(summary: string, issues: seq<CodeIssue>)
}
