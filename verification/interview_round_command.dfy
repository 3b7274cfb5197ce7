/** `InterviewRoundCreateCommand`: the request for one round of an interview,
    an ordered questionnaire of template requests, and its mapping to an
    `InterviewRound` entity. */
module InterviewRoundCommand {
  import opened Wrappers
  import opened MappingErrors
  import Select
  import T = InterchangeTemplateCommand

  datatype RoundCommand = RoundCommand(
    sequenceNumber: int,
    questionnaire: Option<seq<Option<T.TemplateCommand>>>)

  /** `questionnaire` stays None (unset) unless the command had templates. */
  datatype InterviewRound = InterviewRound(
    sequenceNumber: int,
    questionnaire: Option<seq<T.InterchangeTemplate>>)

  /** `command.Questionnaire?.Any() == true`: the collection is non-null
      and has an element. */
  predicate HasAny<X>(xs: Option<seq<X>>)
    ensures HasAny(xs) <==> xs != None && xs != Some([])
  {
    xs.Some? && |xs.value| > 0
  }

  /** A template request that maps: non-null, with exactly one question. */
  predicate TemplateMaps(t: Option<T.TemplateCommand>) {
    t.Some? && T.QuestionCount(t.value) == 1
  }

  /** A round request that maps: non-null, and every template in it maps. */
  predicate RoundMaps(command: Option<RoundCommand>) {
    && command.Some?
    && (HasAny(command.value.questionnaire) ==>
          forall i :: 0 <= i < |command.value.questionnaire.value| ==>
            TemplateMaps(command.value.questionnaire.value[i]))
  }

  /** `MapToInterviewRound`: copies the sequence number and, when the
      questionnaire has templates, maps each of them in order. A null command
      fails on the first member access. */
  function MapToInterviewRound(command: Option<RoundCommand>): (r: Result<InterviewRound, MappingError>)
    ensures command.None? ==> r == Failure(NullReference)
    ensures r.Success? <==> RoundMaps(command)
    ensures r.Success? ==> r.value.sequenceNumber == command.value.sequenceNumber
    ensures r.Success? ==> (r.value.questionnaire.None? <==> !HasAny(command.value.questionnaire))
    ensures r.Success? && r.value.questionnaire.Some? ==>
      var cs, ts := command.value.questionnaire.value, r.value.questionnaire.value;
      && |ts| == |cs| > 0
      && forall i :: 0 <= i < |cs| ==> T.MapToInterchangeTemplate(cs[i]) == Success(ts[i])
    ensures r.Failure? && command.Some? ==>
      && HasAny(command.value.questionnaire)
      && var cs := command.value.questionnaire.value;
         exists i :: 0 <= i < |cs| && T.MapToInterchangeTemplate(cs[i]) == Failure(r.error)
           && forall j :: 0 <= j < i ==> T.MapToInterchangeTemplate(cs[j]).Success?
  {
    if command.None? then Failure(NullReference)
    else
      var c := command.value;
      if HasAny(c.questionnaire) then
        match Select.SelectAll(T.MapToInterchangeTemplate, c.questionnaire.value)
        case Success(templates) => Success(InterviewRound(c.sequenceNumber, Some(templates)))
        case Failure(e) => Failure(e)
      else
        Success(InterviewRound(c.sequenceNumber, None))
  }

  /** A null or empty questionnaire gives a round whose questionnaire is
      unset, never an empty sequence. */
  lemma EmptyQuestionnaireLeftUnset(sequenceNumber: int, questionnaire: Option<seq<Option<T.TemplateCommand>>>)
    requires questionnaire.None? || questionnaire == Some([])
    ensures MapToInterviewRound(Some(RoundCommand(sequenceNumber, questionnaire)))
         == Success(InterviewRound(sequenceNumber, None))
  {
  }

  /** Every element of a mapped questionnaire carries the question that its
      request held, with its own variant tag. */
  lemma MappedQuestionsComeFromRequests(command: Option<RoundCommand>, i: nat)
    requires MapToInterviewRound(command).Success?
    requires MapToInterviewRound(command).value.questionnaire.Some?
    requires i < |MapToInterviewRound(command).value.questionnaire.value|
    ensures command.value.questionnaire.value[i].Some?
    ensures var t := MapToInterviewRound(command).value.questionnaire.value[i];
      t.question.Some? && T.Holds(command.value.questionnaire.value[i].value, t.question.value)
  {
  }
}
