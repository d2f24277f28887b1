/** The monitoring-plugin exit codes and the fixed tables of the plugin:
    the status-page badge classes with their codes, and the two marker
    classes that identify a component entry. */
module Status {

  const StatusOk := 0
  const StatusWarn := 1
  const StatusCritical := 2
  const StatusUnknown := 3

  /** A monitoring-plugin exit code. */
  predicate IsCode(c: int) {
    StatusOk <= c <= StatusUnknown
  }

  /** The exit codes as a type, for the tiers of the report. */
  type Code = c: int | StatusOk <= c <= StatusUnknown

  /** Badge class name to exit code, as the status page's styles use them. */
  const StatusCode: map<string, int> := map[
    "status-1" := StatusOk,
    "greens"   := StatusOk,
    "status-2" := StatusWarn,
    "yellows"  := StatusWarn,
    "blues"    := StatusWarn,
    "status-3" := StatusWarn,
    "status-4" := StatusCritical,
    "status-5" := StatusCritical,
    "reds"     := StatusCritical
  ]

  /** The table's keys in declaration order (`list(status_code.keys())`). */
  const StatusList: seq<string> := [
    "status-1", "greens", "status-2", "yellows", "blues",
    "status-3", "status-4", "status-5", "reds"
  ]

  /** The two marker classes every component entry carries. */
  const ClassComponents: seq<string> := ["list-group-item", "sub-component"]

  /** The key list holds each key of the table exactly once, and nothing else. */
  lemma StatusListIsKeys()
    ensures forall t :: t in StatusList <==> t in StatusCode
    ensures forall i, j :: 0 <= i < j < |StatusList| ==> StatusList[i] != StatusList[j]
  {
  }

  /** The code a known badge class stands for; never UNKNOWN. */
  function TagCode(tag: string): (c: int)
    requires tag in StatusList
    ensures tag in StatusCode
    ensures StatusOk <= c <= StatusCritical
  {
    StatusCode[tag]
  }

  /** Every class of the table maps to the code listed for it. */
  lemma TableCodes()
    ensures TagCode("status-1") == StatusOk && TagCode("greens") == StatusOk
    ensures TagCode("status-2") == StatusWarn && TagCode("yellows") == StatusWarn
    ensures TagCode("blues") == StatusWarn && TagCode("status-3") == StatusWarn
    ensures TagCode("status-4") == StatusCritical && TagCode("status-5") == StatusCritical
    ensures TagCode("reds") == StatusCritical
  {
  }

  /** The report label of a tier. */
  function TierName(c: Code): (name: string)
    ensures name != []
  {
    if c == StatusUnknown then "UNKNOWN"
    else if c == StatusCritical then "CRITICAL"
    else if c == StatusWarn then "WARNING"
    else "OK"
  }

  /** The tiers of the report, most urgent first. */
  const TierOrder: seq<Code> := [StatusUnknown, StatusCritical, StatusWarn, StatusOk]
}
