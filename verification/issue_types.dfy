/** The report records shown on the dashboard. Timestamps are milliseconds since the epoch. */
module IssueTypes {
  import opened Wrappers

  datatype IssueStatus = Reported | Verified | Notified | Resolved

  datatype AIAnalysis = AIAnalysis(issueType: string, severity: string, priorityScore: real, reason: string)

  datatype GpsLocation = GpsLocation(latitude: real, longitude: real, address: Option<string>)

  datatype Issue = Issue(
    id: string,
    description: string,
    imageUrl: Option<string>,
    imageAiHint: Option<string>,
    timestamp: int,
    gpsLocation: GpsLocation,
    status: IssueStatus,
    upvotes: int,
    verifications: int,
    reporterId: string,
    aiAnalysis: Option<AIAnalysis>)
}
