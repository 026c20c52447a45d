/** The stored records of the `storage` package (storage/db_models.py) and the
    aggregate context `DBDTO` that threads loaded records through a chain of
    get-or-create calls.

    storage/db_models.py defines only `QABase`, `QAGroup` and `QAAnswer`;
    `DBDTO` and `QAEmptyGroup`, which storage/mongo_store.py:11 imports from
    it, are not defined there, so they are reconstructed from how the stores use them (`del db_dto.base`,
    `is_base_loaded`, the setters) and from what tests/dbdto/test_dbdto.py
    asserts about them. */
module StorageDbModels {
  import opened Common
  import opened Collections
  import opened StorageDto

  /** `QABase`: a stored question. */
  datatype QABase = QABase(question: string, qtype: QAType, id: Uuid)

  /** `QAGroup`: a stored option set, owned by the Base `baseId`. */
  datatype QAGroup = QAGroup(allAnswers: seq<string>, allExtra: seq<string>, baseId: Uuid, id: Uuid)

  /** `QAAnswer`: a stored answer; `groupId` is None when it has no group. */
  datatype QAAnswer = QAAnswer(id: Uuid, baseId: Uuid, groupId: Option<Uuid>, answer: seq<string>, isCorrect: bool)

  predicate ValidBase(b: QABase) {
    ConStr(b.question)
  }

  predicate ValidGroup(g: QAGroup) {
    AllConStr(g.allAnswers) && AllConStr(g.allExtra)
  }

  /** A context slot for the Base or the Answer. */
  datatype Slot<T> = Unloaded | Loaded(value: T)

  /** What the Group slot holds once loaded: a real group or `QAEmptyGroup`. */
  datatype GroupOrEmpty = Real(group: QAGroup) | Empty

  /** The Group slot: not loaded, a real group, or the explicit "no group". */
  datatype GroupSlot = GroupUnloaded | GroupLoaded(group: QAGroup) | EmptyLoaded
  {
    predicate IsLoaded() { !GroupUnloaded? }
  }

  /** The three slots of a context, as a value. */
  datatype ContextState = ContextState(base: Slot<QABase>, group: GroupSlot, answer: Slot<QAAnswer>)

  /** `DBDTO()`: every slot unloaded. */
  function EmptyState(): ContextState {
    ContextState(Unloaded, GroupUnloaded, Unloaded)
  }

  /** The rules a real group must satisfy against the loaded Base: it names
      that Base, and it carries extra options only for a matching question,
      where it carries exactly one per answer option. */
  predicate GroupFitsBase(b: QABase, g: QAGroup) {
    && g.baseId == b.id
    && (b.qtype != MatchingChoice ==> g.allExtra == [])
    && (b.qtype == MatchingChoice ==> |g.allExtra| == |g.allAnswers|)
  }

  /** `validate_base`: the Base slot must be loaded. */
  function ValidateBase(s: ContextState): (r: Result<QABase>)
    ensures r.Ok? <==> s.base.Loaded?
    ensures r.Ok? ==> s.base == Loaded(r.value)
    ensures r.Err? ==> r.error == NotLoaded
  {
    if s.base.Unloaded? then Err(NotLoaded) else Ok(s.base.value)
  }

  /** `validate_group`: Base and Group loaded; the empty group passes as is;
      a real group must name the loaded Base and obey the extra-options rule. */
  function ValidateGroup(s: ContextState): (r: Result<GroupOrEmpty>)
    ensures r.Ok? <==> s.base.Loaded? && (s.group.EmptyLoaded? || (s.group.GroupLoaded? && GroupFitsBase(s.base.value, s.group.group)))
    ensures r.Ok? && s.group.EmptyLoaded? ==> r.value == Empty
    ensures r.Ok? && s.group.GroupLoaded? ==> r.value == Real(s.group.group)
    ensures (s.base.Unloaded? || s.group.GroupUnloaded?) ==> r == Err(NotLoaded)
    ensures s.base.Loaded? && s.group.GroupLoaded? && !GroupFitsBase(s.base.value, s.group.group) ==> r == Err(InvalidValue)
  {
    if s.base.Unloaded? || s.group.GroupUnloaded? then Err(NotLoaded)
    else if s.group.EmptyLoaded? then Ok(Empty)
    else
      var b, g := s.base.value, s.group.group;
      if g.baseId != b.id then Err(InvalidValue)
      else if b.qtype != MatchingChoice && |g.allExtra| != 0 then Err(InvalidValue)
      else if b.qtype == MatchingChoice && |g.allExtra| != |g.allAnswers| then Err(InvalidValue)
      else Ok(Real(g))
  }

  /** The per-kind shape an answer must have: one element for a single choice,
      at least two for an ordering or a matching; with a real group, the
      answer draws from its options (single and multiple choice) or uses every
      option (ordering and matching). */
  predicate AnswerFitsShape(t: QAType, answer: seq<string>, group: GroupSlot) {
    && (t == OnlyChoice ==> |answer| == 1)
    && (t == RangingChoice || t == MatchingChoice ==> |answer| >= 2)
    && (group.GroupLoaded? && (t == OnlyChoice || t == MultipleChoice) ==> Elems(answer) <= Elems(group.group.allAnswers))
    && (group.GroupLoaded? && (t == RangingChoice || t == MatchingChoice) ==> Elems(answer) == Elems(group.group.allAnswers))
  }

  /** The group link an answer must carry: none with the empty group, the
      group's own id with a real one. */
  predicate AnswerLinksGroup(a: QAAnswer, group: GroupSlot) {
    && (group.EmptyLoaded? ==> a.groupId.None?)
    && (group.GroupLoaded? ==> a.groupId == Some(group.group.id))
  }

  /** `validate_answer`: runs `validate_group`, then checks the answer's link
      to the loaded Base and Group and its per-kind shape. */
  function ValidateAnswer(s: ContextState): (r: Result<QAAnswer>)
    ensures r.Ok? ==> ValidateGroup(s).Ok? && s.answer == Loaded(r.value)
    ensures r.Ok? ==> r.value.baseId == s.base.value.id
    ensures r.Ok? ==> AnswerLinksGroup(r.value, s.group)
    ensures r.Ok? ==> AnswerFitsShape(s.base.value.qtype, r.value.answer, s.group)
    ensures (&& ValidateGroup(s).Ok? && s.answer.Loaded? && s.answer.value.baseId == s.base.value.id
             && AnswerLinksGroup(s.answer.value, s.group)
             && AnswerFitsShape(s.base.value.qtype, s.answer.value.answer, s.group)) ==> r.Ok?
    ensures ValidateGroup(s).Err? ==> r == Err(ValidateGroup(s).error)
    ensures ValidateGroup(s).Ok? && s.answer.Unloaded? ==> r == Err(NotLoaded)
    ensures ValidateGroup(s).Ok? && s.answer.Loaded? && r.Err? ==> r.error == InvalidValue
  {
    var vg := ValidateGroup(s);
    if vg.Err? then Err(vg.error)
    else if s.answer.Unloaded? then Err(NotLoaded)
    else
      var b, a := s.base.value, s.answer.value;
      if a.baseId != b.id then Err(InvalidValue)
      else if s.group.EmptyLoaded? && a.groupId.Some? then Err(InvalidValue)
      else if s.group.GroupLoaded? && a.groupId != Some(s.group.group.id) then Err(InvalidValue)
      else if b.qtype == OnlyChoice && |a.answer| != 1 then Err(InvalidValue)
      else if (b.qtype == RangingChoice || b.qtype == MatchingChoice) && |a.answer| < 2 then Err(InvalidValue)
      else if s.group.GroupLoaded? && (b.qtype == OnlyChoice || b.qtype == MultipleChoice)
              && !(Elems(a.answer) <= Elems(s.group.group.allAnswers)) then Err(InvalidValue)
      else if s.group.GroupLoaded? && (b.qtype == RangingChoice || b.qtype == MatchingChoice)
              && Elems(a.answer) != Elems(s.group.group.allAnswers) then Err(InvalidValue)
      else Ok(a)
  }

  /** A validated single-choice answer with a group names one of the group's options. */
  lemma OnlyChoiceAnswerIsAnOption(s: ContextState)
    requires ValidateAnswer(s).Ok? && s.base.value.qtype == OnlyChoice && s.group.GroupLoaded?
    ensures |s.answer.value.answer| == 1 && s.answer.value.answer[0] in s.group.group.allAnswers
  {
    var a := s.answer.value.answer;
    assert a[0] in Elems(a);
  }

  /** The aggregate context (`DBDTO`): three independently loadable slots. */
  class DBDTO {
    var base: Slot<QABase>
    var group: GroupSlot
    var answer: Slot<QAAnswer>

    /** `DBDTO()`. */
    constructor ()
      ensures State() == EmptyState()
    {
      base, group, answer := Unloaded, GroupUnloaded, Unloaded;
    }

    /** `DBDTO(base=..., group=..., answer=...)`: a None argument leaves its slot unloaded. */
    constructor Init(b: Option<QABase>, g: Option<GroupOrEmpty>, a: Option<QAAnswer>)
      ensures base.Loaded? <==> b.Some?
      ensures b.Some? ==> base.value == b.value
      ensures group.IsLoaded() <==> g.Some?
      ensures g.Some? ==> group == (if g.value.Empty? then EmptyLoaded else GroupLoaded(g.value.group))
      ensures answer.Loaded? <==> a.Some?
      ensures a.Some? ==> answer.value == a.value
    {
      base := if b.Some? then Loaded(b.value) else Unloaded;
      group := if g.None? then GroupUnloaded else if g.value.Empty? then EmptyLoaded else GroupLoaded(g.value.group);
      answer := if a.Some? then Loaded(a.value) else Unloaded;
    }

    /** The slots as a value. */
    function State(): ContextState
      reads this
    {
      ContextState(base, group, answer)
    }

    predicate IsBaseLoaded() reads this { base.Loaded? }
    predicate IsGroupLoaded() reads this { group.IsLoaded() }
    predicate IsAnswerLoaded() reads this { answer.Loaded? }

    /** Reading `db_dto.base`: fails unless loaded. */
    function GetBase(): (r: Result<QABase>)
      reads this
      ensures r.Ok? <==> IsBaseLoaded()
      ensures r.Ok? ==> base == Loaded(r.value)
      ensures r.Err? ==> r.error == NotLoaded
    {
      if base.Loaded? then Ok(base.value) else Err(NotLoaded)
    }

    /** Reading `db_dto.group`: fails unless loaded; the empty group reads as Empty. */
    function GetGroup(): (r: Result<GroupOrEmpty>)
      reads this
      ensures r.Ok? <==> IsGroupLoaded()
      ensures r.Ok? ==> (r.value.Empty? <==> group.EmptyLoaded?)
      ensures r.Ok? && r.value.Real? ==> group == GroupLoaded(r.value.group)
      ensures r.Err? ==> r.error == NotLoaded
    {
      match group
      case GroupUnloaded => Err(NotLoaded)
      case EmptyLoaded => Ok(Empty)
      case GroupLoaded(g) => Ok(Real(g))
    }

    /** Reading `db_dto.answer`: fails unless loaded. */
    function GetAnswer(): (r: Result<QAAnswer>)
      reads this
      ensures r.Ok? <==> IsAnswerLoaded()
      ensures r.Ok? ==> answer == Loaded(r.value)
      ensures r.Err? ==> r.error == NotLoaded
    {
      if answer.Loaded? then Ok(answer.value) else Err(NotLoaded)
    }

    /** `db_dto.base = b`: assigning None fails and changes nothing. */
    method SetBase(b: Option<QABase>) returns (r: Outcome)
      modifies this`base
      ensures r.Pass? <==> b.Some?
      ensures r.Fail? ==> r.error == InvalidValue && base == old(base)
      ensures r.Pass? ==> base == Loaded(b.value)
    {
      if b.None? {
        return Fail(InvalidValue);
      }
      base := Loaded(b.value);
      r := Pass;
    }

    /** `db_dto.group = g`: a real group or `QAEmptyGroup()`; None fails. */
    method SetGroup(g: Option<GroupOrEmpty>) returns (r: Outcome)
      modifies this`group
      ensures r.Pass? <==> g.Some?
      ensures r.Fail? ==> r.error == InvalidValue && group == old(group)
      ensures r.Pass? ==> group == (if g.value.Empty? then EmptyLoaded else GroupLoaded(g.value.group))
    {
      if g.None? {
        return Fail(InvalidValue);
      }
      group := if g.value.Empty? then EmptyLoaded else GroupLoaded(g.value.group);
      r := Pass;
    }

    /** `db_dto.answer = a`: assigning None fails and changes nothing. */
    method SetAnswer(a: Option<QAAnswer>) returns (r: Outcome)
      modifies this`answer
      ensures r.Pass? <==> a.Some?
      ensures r.Fail? ==> r.error == InvalidValue && answer == old(answer)
      ensures r.Pass? ==> answer == Loaded(a.value)
    {
      if a.None? {
        return Fail(InvalidValue);
      }
      answer := Loaded(a.value);
      r := Pass;
    }

    /** `del db_dto.base`: the Base slot becomes unloaded; the others keep their values. */
    method DelBase()
      modifies this`base
      ensures base == Unloaded
    {
      base := Unloaded;
    }

    /** `del db_dto.group`. */
    method DelGroup()
      modifies this`group
      ensures group == GroupUnloaded
    {
      group := GroupUnloaded;
    }

    /** `del db_dto.answer`. */
    method DelAnswer()
      modifies this`answer
      ensures answer == Unloaded
    {
      answer := Unloaded;
    }
  }
}
