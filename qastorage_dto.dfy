/** The request descriptors of the older `qastorage` package
    (qastorage/dto.py). Its `ConStr`, `QATypeEnum` and `QABaseDTO` are the
    same as those of storage/dto.py and are shared with StorageDto; its group
    descriptor has the same fields but admits an empty option list, and its
    answer descriptor extends the Base descriptor. */
module QaDto {
  import opened Common
  import StorageDto

  /** `QAGroupDTO` of this generation: `all_answers` may be empty. */
  predicate ValidGroupDto(d: StorageDto.GroupDto) {
    StorageDto.AllConStr(d.allAnswers) && StorageDto.AllConStr(d.allExtra)
  }

  predicate ValidGroupRef(g: StorageDto.GroupRef) {
    g.GroupByContent? ==> ValidGroupDto(g.dto)
  }

  /** `QAAnswerDTO(QABaseDTO)`: the question and its kind, the group (none, an
      id or a descriptor), the submitted answer and whether it is correct. */
  datatype AnswerDto = AnswerDto(question: string, qtype: StorageDto.QAType, group: StorageDto.GroupRef,
                                 answer: seq<string>, isCorrect: bool)
  {
    /** The Base descriptor the answer descriptor inherits. */
    function AsBase(): StorageDto.BaseDto {
      StorageDto.BaseDto(question, qtype)
    }
  }

  predicate ValidAnswerDto(d: AnswerDto) {
    StorageDto.ConStr(d.question) && ValidGroupRef(d.group) && StorageDto.AllConStr(d.answer)
  }

  /** `QAGroupDTO(...)` of this generation; an omitted `all_extra` is empty. */
  function MakeGroupDto(allAnswers: seq<string>, allExtra: Option<seq<string>>, baseId: Option<Uuid>): (r: Result<StorageDto.GroupDto>)
    ensures r.Ok? <==> StorageDto.AllConStr(allAnswers) && (allExtra.Some? ==> StorageDto.AllConStr(allExtra.value))
    ensures r.Ok? ==> ValidGroupDto(r.value) && r.value.allAnswers == allAnswers && r.value.baseId == baseId
    ensures r.Ok? ==> r.value.allExtra == (if allExtra.Some? then allExtra.value else [])
    ensures r.Err? ==> r.error == InvalidValue
  {
    var extra := if allExtra.Some? then allExtra.value else [];
    if StorageDto.AllConStr(allAnswers) && StorageDto.AllConStr(extra) then Ok(StorageDto.GroupDto(allAnswers, extra, baseId))
    else Err(InvalidValue)
  }

  /** `QAAnswerDTO(...)`: valid exactly when its inherited Base descriptor is. */
  function MakeAnswerDto(question: string, qtype: StorageDto.QAType, group: StorageDto.GroupRef, answer: seq<string>, isCorrect: bool)
    : (r: Result<AnswerDto>)
    ensures r.Ok? <==> StorageDto.MakeBaseDto(question, qtype).Ok? && ValidGroupRef(group) && StorageDto.AllConStr(answer)
    ensures r.Ok? ==> StorageDto.ValidBaseDto(r.value.AsBase()) && r.value.AsBase() == StorageDto.BaseDto(question, qtype)
    ensures r.Ok? ==> ValidAnswerDto(r.value) && r.value.group == group && r.value.answer == answer && r.value.isCorrect == isCorrect
    ensures r.Err? ==> r.error == InvalidValue
  {
    if StorageDto.ConStr(question) && ValidGroupRef(group) && StorageDto.AllConStr(answer) then
      Ok(AnswerDto(question, qtype, group, answer, isCorrect))
    else Err(InvalidValue)
  }

  /** Every group descriptor the newer generation accepts is accepted here;
      the converse fails for an empty option list. */
  lemma GroupDtoGenerations(d: StorageDto.GroupDto)
    ensures StorageDto.ValidGroupDto(d) ==> ValidGroupDto(d)
    ensures d.allAnswers == [] ==> ValidGroupDto(d) == StorageDto.AllConStr(d.allExtra) && !StorageDto.ValidGroupDto(d)
  {
  }
}
