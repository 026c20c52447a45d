/** The request descriptors of the `storage` package (storage/dto.py):
    constrained strings, the four question kinds and the three DTOs callers
    pass to the get-or-create operations. Construction with pydantic's
    validation is modelled by the Make* functions, which fail with
    InvalidValue exactly where pydantic raises. */
module StorageDto {
  import opened Common

  /** `constr(min_length=1, max_length=200)` bounds. */
  const MinLength := 1
  const MaxLength := 200

  /** A value of type `ConStr`. */
  predicate ConStr(s: string) {
    MinLength <= |s| <= MaxLength
  }

  /** A list every element of which is a `ConStr`. */
  predicate AllConStr(xs: seq<string>) {
    forall i :: 0 <= i < |xs| ==> ConStr(xs[i])
  }

  /** A value of type `ConStrList`: `conlist(ConStr, min_items=1)`. */
  predicate ConStrList(xs: seq<string>) {
    |xs| >= 1 && AllConStr(xs)
  }

  /** `QATypeEnum`: exactly four kinds of question. */
  datatype QAType = OnlyChoice | MultipleChoice | RangingChoice | MatchingChoice

  /** The string value each enum member carries (and is stored as). */
  function Label(t: QAType): string {
    match t
    case OnlyChoice => "Выберите один правильный вариант"
    case MultipleChoice => "Выберите все правильные варианты"
    case RangingChoice => "Перетащите варианты так, чтобы они оказались в правильном порядке"
    case MatchingChoice => "Соедините соответствия справа с правильными вариантами"
  }

  /** Enum validation: a stored string is accepted only if it is one of the four labels. */
  function ParseType(s: string): (r: Option<QAType>)
    ensures r.Some? ==> Label(r.value) == s
    ensures r.None? ==> forall t: QAType :: Label(t) != s
  {
    if s == Label(OnlyChoice) then Some(OnlyChoice)
    else if s == Label(MultipleChoice) then Some(MultipleChoice)
    else if s == Label(RangingChoice) then Some(RangingChoice)
    else if s == Label(MatchingChoice) then Some(MatchingChoice)
    else None
  }

  /** Every kind survives being stored as its label and read back. */
  lemma ParseLabel(t: QAType)
    ensures ParseType(Label(t)) == Some(t)
  {
  }

  /** `QABaseDTO`: the content of a question. */
  datatype BaseDto = BaseDto(question: string, qtype: QAType)

  /** `QAGroupDTO`: the candidate options of a question. */
  datatype GroupDto = GroupDto(allAnswers: seq<string>, allExtra: seq<string>, baseId: Option<Uuid>)

  /** `Union[UUID, QABaseDTO]`: a Base selected by id or by content. */
  datatype BaseRef = BaseById(id: Uuid) | BaseByContent(dto: BaseDto)

  /** `Union[None, UUID, QAGroupDTO]`: no group, a group by id, or by content. */
  datatype GroupRef = NoGroup | GroupById(id: Uuid) | GroupByContent(dto: GroupDto)

  /** `QAAnswerDTO`: a submitted answer with the Base and Group it refers to. */
  datatype AnswerDto = AnswerDto(base: BaseRef, group: GroupRef, answer: seq<string>, isCorrect: bool)

  predicate ValidBaseDto(d: BaseDto) {
    ConStr(d.question)
  }

  predicate ValidGroupDto(d: GroupDto) {
    ConStrList(d.allAnswers) && AllConStr(d.allExtra)
  }

  predicate ValidBaseRef(b: BaseRef) {
    b.BaseByContent? ==> ValidBaseDto(b.dto)
  }

  predicate ValidGroupRef(g: GroupRef) {
    g.GroupByContent? ==> ValidGroupDto(g.dto)
  }

  predicate ValidAnswerDto(d: AnswerDto) {
    ValidBaseRef(d.base) && ValidGroupRef(d.group) && ConStrList(d.answer)
  }

  /** `QABaseDTO(question=..., type=...)`. */
  function MakeBaseDto(question: string, qtype: QAType): (r: Result<BaseDto>)
    ensures r.Ok? <==> 1 <= |question| <= 200
    ensures r.Ok? ==> r.value.question == question && r.value.qtype == qtype
    ensures r.Ok? ==> ValidBaseDto(r.value)
    ensures r.Err? ==> r.error == InvalidValue
  {
    if ConStr(question) then Ok(BaseDto(question, qtype)) else Err(InvalidValue)
  }

  /** `QAGroupDTO(all_answers=..., all_extra=..., base_id=...)`; an omitted
      `all_extra` (None here) takes the default, the empty list. */
  function MakeGroupDto(allAnswers: seq<string>, allExtra: Option<seq<string>>, baseId: Option<Uuid>): (r: Result<GroupDto>)
    ensures r.Ok? <==> |allAnswers| >= 1 && AllConStr(allAnswers) && (allExtra.Some? ==> AllConStr(allExtra.value))
    ensures r.Ok? ==> ValidGroupDto(r.value) && r.value.allAnswers == allAnswers && r.value.baseId == baseId
    ensures r.Ok? ==> r.value.allExtra == (if allExtra.Some? then allExtra.value else [])
    ensures r.Err? ==> r.error == InvalidValue
  {
    var extra := if allExtra.Some? then allExtra.value else [];
    if ConStrList(allAnswers) && AllConStr(extra) then Ok(GroupDto(allAnswers, extra, baseId))
    else Err(InvalidValue)
  }

  /** `QAAnswerDTO(base=..., group=..., answer=..., is_correct=...)`. */
  function MakeAnswerDto(base: BaseRef, group: GroupRef, answer: seq<string>, isCorrect: bool): (r: Result<AnswerDto>)
    ensures r.Ok? <==> ValidBaseRef(base) && ValidGroupRef(group) && |answer| >= 1 && AllConStr(answer)
    ensures r.Ok? ==> ValidAnswerDto(r.value) && r.value == AnswerDto(base, group, answer, isCorrect)
    ensures r.Err? ==> r.error == InvalidValue
  {
    if ValidBaseRef(base) && ValidGroupRef(group) && ConStrList(answer) then
      Ok(AnswerDto(base, group, answer, isCorrect))
    else Err(InvalidValue)
  }
}
