/** The entities that every part of the system passes around. */
module Common {

  datatype Option<+T> = None | Some(value: T)

  datatype NameWithOwner = NameWithOwner(owner: string, repo: string)

  /** Identifies one repository analysed in one session; the key of every state map. */
  datatype JobSpec = JobSpec(sessionId: int, nwo: NameWithOwner)

  // The status codes 0 to 5, and any other code a stored or received status may carry.
  datatype Status = Pending | InProgress | Succeeded | Failed | Canceled | TimedOut | Other(code: int)

  datatype ArtifactLocation = ArtifactLocation(key: string, bucket: string)

  datatype AnalyzeJob = AnalyzeJob(spec: JobSpec, queryPackLocation: ArtifactLocation, queryLanguage: string)

  datatype AnalyzeResult = AnalyzeResult(
    spec: JobSpec,
    status: Status,
    resultCount: int,
    resultLocation: ArtifactLocation,
    sourceLocationPrefix: string,
    databaseSha: string)

  // The skipped-repository lists are carried as one opaque value.
  datatype JobInfo = JobInfo(queryLanguage: string, createdAt: string, updatedAt: string, skipped: seq<string>)

  datatype StatusSummary = StatusSummary(overall: Status, counts: map<Status, nat>)

  type byte = x: int | 0 <= x < 256
  type Bytes = seq<byte>
}
