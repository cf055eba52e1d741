/** One execution of a benchmark task: what the executor journals and the scoreboard counts. */
module TaskResults {
  import opened Sequences

  datatype AnyStatus = Pass | Fail | InfraError | Other(text: string)

  /** A result's status is text in the source; any other text than the three is kept. */
  type Status = s: AnyStatus | s.Other? ==> !Known(s.text) witness Pass

  predicate Known(text: string) {
    text in ["pass", "fail", "infra-error"]
  }

  function StatusText(status: Status): string {
    match status
    case Pass => "pass"
    case Fail => "fail"
    case InfraError => "infra-error"
    case Other(text) => text
  }

  function StatusOf(text: string): Status {
    if text == "pass" then Pass
    else if text == "fail" then Fail
    else if text == "infra-error" then InfraError
    else Other(text)
  }

  lemma StatusReads(status: Status)
    ensures StatusOf(StatusText(status)) == status
  {
    assert |"pass"| == |"fail"| == 4 && |"infra-error"| == 11 && "pass"[0] == 'p' && "fail"[0] == 'f';
  }

  datatype Check = Check(kind: string, passed: bool, detail: string)

  /** `checks` is nothing where the source has a nil list. */
  datatype TaskResult = TaskResult(
    taskId: string, lane: string, seed: int, status: Status, checks: Option<seq<Check>>, answer: string,
    toolCalls: int, durationMs: int, error: string)
}
