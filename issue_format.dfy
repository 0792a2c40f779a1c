/** The layout of a problem line, shared by the validation prompt of internal/ai/ollama.go,
    which asks for it, and `parseIssue`, which strips its labels. */
module IssueFormat {
  const LocationLabel := "위치:"
  const SuggestionLabel := "해결:"

  /** A problem line as the validation prompt asks for it:
      `- [<type>] <message> | 위치: <location> | 해결: <suggestion>`. */
  function IssueLine(issueType: string, message: string, location: string, suggestion: string): string {
    "- " + ("[" + issueType + "]" + IssueFields(message, location, suggestion))
  }

  function IssueFields(message: string, location: string, suggestion: string): string {
    (" " + message + " ") + "|" + ((" " + LocationLabel + " " + location + " ") + "|" + (" " + SuggestionLabel + " " + suggestion))
  }
}
