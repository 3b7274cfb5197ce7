/** `InterviewCreateCommand`: the request for a whole interview, an ordered
    sequence of round requests, and its mapping to an `Interview` entity. */
module InterviewCommand {
  import opened Wrappers
  import opened MappingErrors
  import Select
  import T = InterchangeTemplateCommand
  import R = InterviewRoundCommand

  /** Identifier, status, timestamp, user and context types; their inner
      structure plays no part in the mapping. */
  type Guid(!new)
  type InterviewStatus(!new)
  type DateTime(!new)
  type UserId(!new)
  type InterviewContext(!new)

  datatype InterviewCommand = InterviewCommand(
    id: Guid,
    code: Option<string>,
    title: Option<string>,
    status: InterviewStatus,
    startTime: DateTime,
    expirationTime: DateTime,
    rounds: Option<seq<Option<R.RoundCommand>>>,
    context: Option<InterviewContext>)

  /** The server-computed audit fields; None means left at the type default. */
  datatype Audit = Audit(
    createdAt: Option<DateTime>,
    modifiedAt: Option<DateTime>,
    createdBy: Option<UserId>,
    modifiedBy: Option<UserId>)

  datatype Interview = Interview(
    id: Guid,
    code: Option<string>,
    title: Option<string>,
    status: InterviewStatus,
    startTime: DateTime,
    expirationTime: DateTime,
    rounds: Option<seq<R.InterviewRound>>,
    context: Option<InterviewContext>,
    isPublished: bool,
    audit: Audit)

  /** The entity's fields as a fresh object has them before the initializer. */
  const Unaudited := Audit(None, None, None, None)

  /** An interview request that maps: non-null, and every round in it maps. */
  predicate InterviewMaps(command: Option<InterviewCommand>) {
    && command.Some?
    && (R.HasAny(command.value.rounds) ==>
          forall i :: 0 <= i < |command.value.rounds.value| ==> R.RoundMaps(command.value.rounds.value[i]))
  }

  /** `MapToInterview`: copies the scalar fields, leaves the publish flag and
      the audit fields at their defaults and, when there are rounds, maps each
      of them in order. A null command fails on the first member access. */
  function MapToInterview(command: Option<InterviewCommand>): (r: Result<Interview, MappingError>)
    ensures command.None? ==> r == Failure(NullReference)
    ensures r.Success? <==> InterviewMaps(command)
    ensures r.Success? ==>
      var c, v := command.value, r.value;
      && v.id == c.id && v.code == c.code && v.title == c.title && v.status == c.status
      && v.startTime == c.startTime && v.expirationTime == c.expirationTime && v.context == c.context
    ensures r.Success? ==> !r.value.isPublished && r.value.audit == Unaudited
    ensures r.Success? ==> (r.value.rounds.None? <==> !R.HasAny(command.value.rounds))
    ensures r.Success? && r.value.rounds.Some? ==>
      var cs, rs := command.value.rounds.value, r.value.rounds.value;
      && |rs| == |cs| > 0
      && forall i :: 0 <= i < |cs| ==> R.MapToInterviewRound(cs[i]) == Success(rs[i])
    ensures r.Failure? && command.Some? ==>
      && R.HasAny(command.value.rounds)
      && var cs := command.value.rounds.value;
         exists i :: 0 <= i < |cs| && R.MapToInterviewRound(cs[i]) == Failure(r.error)
           && forall j :: 0 <= j < i ==> R.MapToInterviewRound(cs[j]).Success?
  {
    if command.None? then Failure(NullReference)
    else
      var c := command.value;
      var interview := Interview(c.id, c.code, c.title, c.status, c.startTime, c.expirationTime,
                                 None, c.context, false, Unaudited);
      if R.HasAny(c.rounds) then
        match Select.SelectAll(R.MapToInterviewRound, c.rounds.value)
        case Success(rounds) => Success(interview.(rounds := Some(rounds)))
        case Failure(e) => Failure(e)
      else
        Success(interview)
  }

  /** Nested success: the interview maps exactly when it is non-null and
      every round is non-null and every template of every round is non-null
      with exactly one question. */
  lemma MapsIffEveryTemplateHasOneQuestion(command: Option<InterviewCommand>)
    ensures MapToInterview(command).Success? <==>
      && command.Some?
      && (R.HasAny(command.value.rounds) ==>
            forall i :: 0 <= i < |command.value.rounds.value| ==>
              && command.value.rounds.value[i].Some?
              && var q := command.value.rounds.value[i].value.questionnaire;
                 R.HasAny(q) ==> forall j :: 0 <= j < |q.value| ==>
                   q.value[j].Some? && T.QuestionCount(q.value[j].value) == 1)
  {
  }

  /** The worked example: one round holding one template whose only question
      is a range question maps to one round with one template holding that
      question, and the interview is not published. */
  lemma SingleRangeQuestionInterview(c: InterviewCommand, rc: R.RoundCommand, tc: T.TemplateCommand, q: T.RangeQuestion)
    requires tc.textQuestion.None? && tc.multipleChoiceQuestion.None? && tc.rangeQuestion == Some(q)
    requires rc.questionnaire == Some([Some(tc)])
    requires c.rounds == Some([Some(rc)])
    ensures MapToInterview(Some(c)).Success?
    ensures var v := MapToInterview(Some(c)).value;
      && v.rounds.Some? && |v.rounds.value| == 1
      && v.rounds.value[0].questionnaire.Some? && |v.rounds.value[0].questionnaire.value| == 1
      && v.rounds.value[0].questionnaire.value[0].question == Some(T.Range(q))
      && !v.isPublished
  {
  }
}
