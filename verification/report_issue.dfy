/**
 * The server action behind the report form: validate the submitted fields and answer
 * with a temporary issue id or an error. A field is `None` when the form data has no
 * entry of that name (`FormData#get` gives null); the clock is the parameter `now`.
 */
module ReportIssue {
  import opened Wrappers
  import Decimal

  datatype FormFields = FormFields(
    description: Option<string>,
    latitude: Option<string>,
    longitude: Option<string>,
    address: Option<string>,
    timestamp: Option<string>)

  /** `{ success, issueId?, error? }`. */
  datatype SubmitIssueResult = SubmitIssueResult(success: bool, issueId: Option<string>, error: Option<string>)

  const MinDescriptionLength: nat := 10
  const TooShortMessage := "Description must be at least 10 characters long."
  /** The schema library's message for a null where a string is required. */
  const NotAStringMessage := "Expected string, received null"
  const DescriptionErrorPrefix := "Invalid description: "
  const InvalidFormMessage := "Invalid form data."
  const IssueIdPrefix := "temp-issue-"

  /** The first message the schema reports for `description`, if any. */
  function DescriptionError(description: Option<string>): (e: Option<string>)
    ensures e.None? <==> description.Some? && |description.value| >= MinDescriptionLength
  {
    if description.None? then Some(NotAStringMessage)
    else if |description.value| < MinDescriptionLength then Some(TooShortMessage)
    else None
  }

  /**
   * An optional string field accepts a missing key (undefined) but refuses null, and
   * `FormData#get` gives null for a missing entry: only a string present in the form passes.
   */
  predicate OptionalFieldOk(field: Option<string>) {
    field.Some?
  }

  predicate SchemaAccepts(form: FormFields) {
    DescriptionError(form.description).None? &&
    OptionalFieldOk(form.latitude) && OptionalFieldOk(form.longitude) &&
    OptionalFieldOk(form.address) && OptionalFieldOk(form.timestamp)
  }

  function IssueId(now: nat): string {
    IssueIdPrefix + Decimal.FromNat(now)
  }

  /**
   * `submitIssue`: on a valid form, success with the id `temp-issue-<now>`; otherwise
   * failure with the description's error, or the generic message when the description
   * itself was fine. Success is exactly validity, and a result never carries both an id
   * and an error.
   */
  function SubmitIssue(form: FormFields, now: nat): (r: SubmitIssueResult)
    ensures r.success <==> SchemaAccepts(form)
    ensures r.success ==> r.issueId == Some(IssueId(now)) && r.error.None?
    ensures !r.success ==> r.issueId.None? && r.error.Some?
  {
    if !SchemaAccepts(form) then
      var descriptionError := DescriptionError(form.description);
      var errorMessage := if descriptionError.Some? then DescriptionErrorPrefix + descriptionError.value
                          else InvalidFormMessage;
      SubmitIssueResult(false, None, Some(errorMessage))
    else
      SubmitIssueResult(true, Some(IssueId(now)), None)
  }

  /** A missing or short description fails with an error that starts "Invalid description: ". */
  lemma ShortDescriptionRejected(form: FormFields, now: nat)
    requires form.description.None? || |form.description.value| < MinDescriptionLength
    ensures var r := SubmitIssue(form, now);
      !r.success && r.issueId.None? && DescriptionErrorPrefix <= r.error.value
  {
  }

  /** A failure with a good description reports exactly the generic message. */
  lemma OtherFieldRejected(form: FormFields, now: nat)
    requires DescriptionError(form.description).None? && !SchemaAccepts(form)
    ensures SubmitIssue(form, now) == SubmitIssueResult(false, None, Some(InvalidFormMessage))
  {
  }

  /** Submissions at different instants get different ids. */
  lemma IssueIdsDistinct(now1: nat, now2: nat)
    requires now1 != now2
    ensures IssueId(now1) != IssueId(now2)
  {
    Decimal.FromNatInjective(now1, now2);
    assert IssueId(now1)[|IssueIdPrefix|..] == Decimal.FromNat(now1);
    assert IssueId(now2)[|IssueIdPrefix|..] == Decimal.FromNat(now2);
  }

  /** The report form's own rule for the description: a string of at least ten characters. */
  predicate FormAcceptsDescription(description: string) {
    |description| >= 10
  }

  /**
   * The form sends every field as a string, so whatever description the form accepts,
   * the server accepts the submission.
   */
  lemma FormAcceptedIsServerAccepted(description: string, latitude: string, longitude: string,
                                     address: string, timestamp: string, now: nat)
    requires FormAcceptsDescription(description)
    ensures SubmitIssue(FormFields(Some(description), Some(latitude), Some(longitude),
                                   Some(address), Some(timestamp)), now).success
  {
  }
}
