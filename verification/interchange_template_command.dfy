/** `InterchangeTemplateCreateCommand`: the request for one question unit of an
    interview round, and its mapping to an `InterchangeTemplate` entity. */
module InterchangeTemplateCommand {
  import opened Wrappers
  import opened MappingErrors
  import Decimal

  /** The three question shapes and the three answer formats; their inner
      structure plays no part in the mapping. */
  type TextQuestion(!new)
  type RangeQuestion(!new)
  type MultipleChoiceQuestion(!new)
  type TextAnswerFormat(!new)
  type AudioAnswerFormat(!new)
  type VideoAnswerFormat(!new)

  /** The value held by the entity's polymorphic `Question` slot. */
  datatype Question =
    | Text(text: TextQuestion)
    | Range(range: RangeQuestion)
    | MultipleChoice(choice: MultipleChoiceQuestion)

  /** The command's properties; every reference-typed one may be null. */
  datatype TemplateCommand = TemplateCommand(
    sequenceNumber: int,
    isMandatory: bool,
    isDescriptionVisible: bool,
    textQuestion: Option<TextQuestion>,
    rangeQuestion: Option<RangeQuestion>,
    multipleChoiceQuestion: Option<MultipleChoiceQuestion>,
    textAnswerFormat: Option<TextAnswerFormat>,
    audioAnswerFormat: Option<AudioAnswerFormat>,
    videoAnswerFormat: Option<VideoAnswerFormat>)

  /** The entity fields the mapping writes; `question` is null until set. */
  datatype InterchangeTemplate = InterchangeTemplate(
    sequenceNumber: int,
    isMandatory: bool,
    isDescriptionVisible: bool,
    question: Option<Question>)

  const CountArgumentName := "numberOfQuestionsPresent"
  const CountExpectation := "Exactly one"

  /** A question field is present when it is not null. */
  predicate IsTextQuestionPresent(q: Option<TextQuestion>)
    ensures IsTextQuestionPresent(q) <==> q != None
  {
    q.Some?
  }

  predicate IsRangeQuestionPresent(q: Option<RangeQuestion>)
    ensures IsRangeQuestionPresent(q) <==> q != None
  {
    q.Some?
  }

  predicate IsMultipleChoiceQuestionPresent(q: Option<MultipleChoiceQuestion>)
    ensures IsMultipleChoiceQuestionPresent(q) <==> q != None
  {
    q.Some?
  }

  /** The command holds question q in the field of q's own variant. */
  ghost predicate Holds(c: TemplateCommand, q: Question) {
    match q
    case Text(t) => c.textQuestion == Some(t)
    case Range(r) => c.rangeQuestion == Some(r)
    case MultipleChoice(m) => c.multipleChoiceQuestion == Some(m)
  }

  /** Reference definition: the non-null question fields of the command, each
      wrapped in its variant tag. */
  function PresentQuestions(c: TemplateCommand): (qs: seq<Question>)
    ensures |qs| <= 3
    ensures forall q :: q in qs <==> Holds(c, q)
    ensures forall i, j :: 0 <= i < j < |qs| ==> qs[i] != qs[j]
  {
    (if IsTextQuestionPresent(c.textQuestion) then [Text(c.textQuestion.value)] else [])
    + (if IsRangeQuestionPresent(c.rangeQuestion) then [Range(c.rangeQuestion.value)] else [])
    + (if IsMultipleChoiceQuestionPresent(c.multipleChoiceQuestion)
       then [MultipleChoice(c.multipleChoiceQuestion.value)] else [])
  }

  /** The number of non-null question fields. */
  function QuestionCount(c: TemplateCommand): nat {
    |PresentQuestions(c)|
  }

  /** `GetNumberOfQuestionsPresent`: counts the non-null question fields one
      after another, in the source's order (text, multiple choice, range). */
  method GetNumberOfQuestionsPresent(c: TemplateCommand) returns (count: int)
    ensures count == QuestionCount(c)
    ensures 0 <= count <= 3
    ensures count == 0 <==> c.textQuestion.None? && c.rangeQuestion.None? && c.multipleChoiceQuestion.None?
  {
    count := 0;
    if IsTextQuestionPresent(c.textQuestion) {
      count := count + 1;
    }
    if IsMultipleChoiceQuestionPresent(c.multipleChoiceQuestion) {
      count := count + 1;
    }
    if IsRangeQuestionPresent(c.rangeQuestion) {
      count := count + 1;
    }
  }

  /** The entity's `Question` after the three conditional assignments: each
      present field overwrites the slot, so the last present one wins. */
  function AssignedQuestion(c: TemplateCommand): (r: Option<Question>)
    ensures r.Some? <==> QuestionCount(c) >= 1
    ensures r.Some? ==> Holds(c, r.value)
    ensures r.Some? ==> r.value == PresentQuestions(c)[|PresentQuestions(c)| - 1]
  {
    var afterText := if IsTextQuestionPresent(c.textQuestion) then Some(Text(c.textQuestion.value)) else None;
    var afterRange := if IsRangeQuestionPresent(c.rangeQuestion) then Some(Range(c.rangeQuestion.value)) else afterText;
    if IsMultipleChoiceQuestionPresent(c.multipleChoiceQuestion)
    then Some(MultipleChoice(c.multipleChoiceQuestion.value)) else afterRange
  }

  /** `MapToInterchangeTemplate`: a null command is refused; a command with
      other than exactly one question is refused with the count it had;
      otherwise the scalars are copied and the one question fills the slot. */
  function MapToInterchangeTemplate(command: Option<TemplateCommand>): (r: Result<InterchangeTemplate, MappingError>)
    ensures command.None? ==> r == Failure(NullArgument)
    ensures command.Some? && QuestionCount(command.value) != 1 ==>
      r == Failure(InvalidArgument(CountArgumentName, Decimal.NatToString(QuestionCount(command.value)), CountExpectation))
    ensures r.Success? <==> command.Some? && QuestionCount(command.value) == 1
    ensures r.Success? ==>
      && r.value.sequenceNumber == command.value.sequenceNumber
      && r.value.isMandatory == command.value.isMandatory
      && r.value.isDescriptionVisible == command.value.isDescriptionVisible
      && r.value.question == Some(PresentQuestions(command.value)[0])
      && Holds(command.value, r.value.question.value)
  {
    if command.None? then Failure(NullArgument)
    else
      var c := command.value;
      var numberOfQuestionsPresent := QuestionCount(c);
      if numberOfQuestionsPresent != 1 then
        Failure(InvalidArgument(CountArgumentName, Decimal.NatToString(numberOfQuestionsPresent), CountExpectation))
      else
        Success(InterchangeTemplate(c.sequenceNumber, c.isMandatory, c.isDescriptionVisible, AssignedQuestion(c)))
  }

  /** Exactly one field set: mapping yields exactly that question with its
      own variant tag, for each of the three variants. */
  lemma MapsTheOnePresentQuestion(c: TemplateCommand, q: Question)
    requires Holds(c, q) && QuestionCount(c) == 1
    ensures MapToInterchangeTemplate(Some(c)).Success?
    ensures MapToInterchangeTemplate(Some(c)).value.question == Some(q)
  {
  }

  /** The count reported in a refusal reads back as the number of question
      fields the command actually had. */
  lemma ReportedCountIsActual(c: TemplateCommand)
    requires MapToInterchangeTemplate(Some(c)).Failure?
    ensures MapToInterchangeTemplate(Some(c)).error.InvalidArgument?
    ensures Decimal.ParseNat(MapToInterchangeTemplate(Some(c)).error.actualValue) == Some(QuestionCount(c))
    ensures QuestionCount(c) == 0 || QuestionCount(c) >= 2
  {
  }

  /** The answer formats are never read: commands that differ only there map
      to the same result. */
  lemma AnswerFormatsIgnored(c: TemplateCommand, d: TemplateCommand)
    requires c.sequenceNumber == d.sequenceNumber && c.isMandatory == d.isMandatory
    requires c.isDescriptionVisible == d.isDescriptionVisible
    requires c.textQuestion == d.textQuestion && c.rangeQuestion == d.rangeQuestion
    requires c.multipleChoiceQuestion == d.multipleChoiceQuestion
    ensures MapToInterchangeTemplate(Some(c)) == MapToInterchangeTemplate(Some(d))
  {
  }
}
