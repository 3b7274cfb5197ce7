# Interview command mappers and the CaRe client policy, in Dafny

This project models two independent adapters of the interview-template
service.

- **Command mappers.** An `InterviewCreateCommand` holds rounds. Each
  `InterviewRoundCreateCommand` holds an ordered questionnaire of
  `InterchangeTemplateCreateCommand`s. The mappers turn these into `Interview`,
  `InterviewRound` and `InterchangeTemplate` entities. A template must carry
  exactly one of a text, range or multiple-choice question. A null or empty
  nested collection leaves the entity's collection unset, not empty. The
  publish flag and the audit fields are never set.
- **`CareHttpClient`.** Its two calls, `GetStatsAsync` and
  `GetProgressionAsync`, are modelled as pure functions. Each takes the base
  address, the query, the configuration (a key/value map) and the transport's
  reply, which is an `HttpRequestException`, any other exception, or a status
  code with a body.
  Each returns the configuration keys it looked up, the POST it sent (if any)
  and its outcome. The outcome is either the body handed to the JSON decoder
  or one of the errors the client throws.

Modules: `Wrappers` (Option, Result), `Decimal` (`int.ToString()` and its
parser), `Select` (the element-wise mapping LINQ `Select` performs, made
eager), `MappingErrors`, `InterchangeTemplateCommand`, `InterviewRoundCommand`,
`InterviewCommand` and `CareHttpClient`.

Null references are `Option.None`. A null template command fails with
`NullArgument`, from the `ValidationUtil.NotNull` check. A null round or
interview command fails with `NullReference`, because the source reads its
members without a check. The entity's polymorphic `Question` slot is an
`Option<Question>`. `Question` is a tagged union of the three question shapes.

The statuses reported as "service unavailable" are 500, 503 and 504. These are
the ones `CareHttpClient.cs` checks (`InternalServerError`,
`ServiceUnavailable`, `GatewayTimeout`). 502 is not in this set, so a 502
response is decoded (`CareHttpClient.BadGatewayIsDecoded`).

The calls catch only `HttpRequestException`, which becomes a
service-unavailable error. Any other exception from the POST or from reading
the body propagates unchanged. Examples are the `TaskCanceledException` of a
timeout or a cancellation, or an `IOException`. The model has a reply case
for such an exception, and its outcome is `Uncaught` with the exception's type.
A null query or criteria passes the base-address check and then throws a
`NullReferenceException` while the payload is built. That is before the
configuration lookup and the POST, and it is not caught. The model returns
`Uncaught("NullReferenceException")` with no key read and nothing sent.

## Model

| member | source | states |
|---|---|---|
| Decimal.NatToString | InterchangeTemplateCreateCommand.cs:27 | the count's text is a non-empty string of decimal digits with no leading zero except for zero itself |
| Decimal.ParseNatToString | InterchangeTemplateCreateCommand.cs:27 | reading the count's text back gives the count |
| Decimal.NatToStringInjective | InterchangeTemplateCreateCommand.cs:27 | two counts with the same text are equal |
| Select.SelectAll | InterviewRoundCreateCommand.cs:16 | the element-wise mapping succeeds iff every element maps; then it has the input's length and element i is the mapping of input element i; on failure its error is that of some failing element with every earlier element mapping |
| InterchangeTemplateCommand.IsTextQuestionPresent | InterchangeTemplateCreateCommand.cs:42-44 | the text question is present iff the field is not null |
| InterchangeTemplateCommand.IsRangeQuestionPresent | InterchangeTemplateCreateCommand.cs:46-48 | the range question is present iff the field is not null |
| InterchangeTemplateCommand.IsMultipleChoiceQuestionPresent | InterchangeTemplateCreateCommand.cs:50-52 | the multiple-choice question is present iff the field is not null |
| InterchangeTemplateCommand.AssignedQuestion | InterchangeTemplateCreateCommand.cs:29-37 | after the three conditional assignments the slot is set iff some question is present; it then holds a question the command carries, and it is the last present one in the order text, range, multiple choice, so the last assignment wins |
| InterchangeTemplateCommand.PresentQuestions | InterchangeTemplateCreateCommand.cs:42-66 | the present questions are exactly the non-null question fields, each tagged with its own variant, at most three, without repeats |
| InterchangeTemplateCommand.GetNumberOfQuestionsPresent | InterchangeTemplateCreateCommand.cs:54-66 | the count is the number of non-null question fields, lies in 0..3, and is 0 iff all three are null |
| InterchangeTemplateCommand.MapToInterchangeTemplate | InterchangeTemplateCreateCommand.cs:18-40 | a null command gives NullArgument; a count other than 1 gives InvalidArgument("numberOfQuestionsPresent", the count as text, "Exactly one"); mapping succeeds iff the command is non-null with exactly one question; on success the three scalars are copied and Question is the one present question with its own tag |
| InterchangeTemplateCommand.MapsTheOnePresentQuestion | InterchangeTemplateCreateCommand.cs:29-37 | when the command holds exactly one question q, in q's own field, the mapped entity's Question is q |
| InterchangeTemplateCommand.ReportedCountIsActual | InterchangeTemplateCreateCommand.cs:25-28 | every refusal of a non-null command is InvalidArgument whose value reads back as the actual count, which is 0 or at least 2 |
| InterchangeTemplateCommand.AnswerFormatsIgnored | InterchangeTemplateCreateCommand.cs:14-40 | commands that differ only in TextAnswerFormat, AudioAnswerFormat or VideoAnswerFormat map to the same result |
| InterviewRoundCommand.HasAny | InterviewRoundCreateCommand.cs:15 | `?.Any() == true` holds iff the collection is neither null nor empty; the same test guards Rounds at InterviewCreateCommand.cs line 29 |
| InterviewRoundCommand.MapToInterviewRound | InterviewRoundCreateCommand.cs:11-19 | a null command fails; success iff every template of a non-empty questionnaire maps; SequenceNumber is copied; Questionnaire is unset iff the request's is null or empty; otherwise it has the same length and element i is the mapping of request element i; a failure of a non-null command is the failure of the first template that fails, every earlier one mapping |
| InterviewRoundCommand.EmptyQuestionnaireLeftUnset | InterviewRoundCreateCommand.cs:15 | a null or empty questionnaire gives a round with Questionnaire unset |
| InterviewRoundCommand.MappedQuestionsComeFromRequests | InterviewRoundCreateCommand.cs:16 | each mapped template's Question is the question its request held, in the matching field |
| InterviewCommand.MapToInterview | InterviewCreateCommand.cs:19-33 | a null command fails; success iff every round of a non-empty Rounds maps; Id, Code, Title, Status, StartTime, ExpirationTime and Context are copied; IsPublished is false and the audit fields are unset; Rounds is unset iff the request's is null or empty; otherwise it has the same length and element i is the mapping of request round i; a failure of a non-null command is the failure of the first round that fails, every earlier one mapping |
| InterviewCommand.MapsIffEveryTemplateHasOneQuestion | InterviewCreateCommand.cs:29-30 | an interview maps iff it is non-null, every round is non-null, and every template of every round is non-null with exactly one question |
| InterviewCommand.SingleRangeQuestionInterview | InterviewCreateCommand.cs:20-31 | one round holding one template with only a range question maps to one round with one template whose Question is that range question, and the interview is unpublished |
| CareHttpClient.StatsRequest | CareHttpClient.cs:46-70 | the stats payload carries the query's filters, location and counts, has isOccupationsStats false and the other five statistic flags true |
| CareHttpClient.ProgressionRequest | CareHttpClient.cs:114-118 | the progression payload carries title, similar titles and skills unchanged |
| CareHttpClient.IsUnavailableStatus | CareHttpClient.cs:85-87 | a status counts as unavailable iff it is 500, 503 or 504; the same test appears at lines 131-133 |
| CareHttpClient.Lookup | CareHttpClient.cs:74-75 | the configuration lookup gives a value iff the key is set, and then the configured value; the progression key is looked up the same way at line 122 |
| CareHttpClient.GetStats | CareHttpClient.cs:39-100 | a missing base address is a configuration error with no lookup and no POST; with a base address, a null query is an uncaught NullReferenceException with no lookup and no POST; a missing relative path is a configuration error with no POST; a POST goes to the configured path with the stats payload; an HttpRequestException is ServiceUnavailable and any other exception passes through unchanged; 422 is UnprocessableEntity on CountryCode; 404 is EntityNotFound with the body; 500, 503 and 504 are ServiceUnavailable with the body; the body is decoded iff a response came with any other status |
| CareHttpClient.GetProgression | CareHttpClient.cs:107-144 | the same configuration checks, the same uncaught NullReferenceException for null criteria, and a POST with the progression payload; an HttpRequestException is ServiceUnavailable and any other exception passes through unchanged; 404 is EntityNotFound and 500, 503 and 504 are ServiceUnavailable, each with the body; the body is decoded iff a response came with any other status, 422 included |
| CareHttpClient.ConfigurationErrorIffNothingSent | CareHttpClient.cs:40-79 | in both calls a configuration error occurs exactly when no POST is sent, except when the base address is set and the query is null, which is an uncaught NullReferenceException; whenever no POST is sent the transport's reply does not affect the result (the catch does not turn it into ServiceUnavailable) |
| CareHttpClient.PoliciesDifferOnlyAt422 | CareHttpClient.cs:81-88 | given the same configuration presence and the same nullness of query and criteria, the two calls classify every reply alike except a 422 response, which stats reports as UnprocessableEntity and progression decodes |
| CareHttpClient.BadGatewayIsDecoded | CareHttpClient.cs:85-87 | a 502 response is decoded by both calls, not reported as unavailable |

## Left out

- LINQ `Select` is lazy in the source. `MapToInterviewRound` and `MapToInterview` return without mapping any template, and a bad template throws only when the collection is enumerated. The model maps eagerly and fails the whole call at the first bad element in order.
- The HTTP transport, `PostAsync`, `ReadAsStringAsync` and async/await are not modelled. The reply to the POST is an input. Which exception the transport throws, and when, is part of that input. Only an `HttpRequestException` becomes ServiceUnavailable; every other exception is passed through as `Uncaught`.
- JSON serialisation and deserialisation are not modelled. The payload is a structured record, and a successful outcome is the body handed to the decoder. A decoder exception is not modelled.
- `ISystemConfigurationService.GetValueAsync` is a map lookup. An exception from the configuration service itself is not modelled.
- Logging calls are left out. They have no bearing on the outcome.
- `ValidationUtil.NotNull`: its body is not available, so it is modelled as a null check that raises `NullArgument`.
- The inner structure of the question shapes, answer formats, `Guid`, `DateTime`, `InterviewStatus`, `InterviewContext` and the user type of the audit fields is not modelled. Each is an opaque type.
- The entity classes (`Interview`, `InterviewRound`, `InterchangeTemplate`) and the query models are not part of this model. The entities keep only the fields the mappers write or leave at their defaults. The query fields are taken as strings, string lists and integers.
- The exception types' other constructor arguments, such as the inner exception of the transport error, are not modelled.
