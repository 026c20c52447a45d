/** The document-store backend of the `storage` package
    (storage/mongo_store.py): the Base and Group lookup and create primitives
    over three collections, each held as a sequence of rows.

    Each primitive is specified by a step function over the collections and
    the context's slots (the *Step functions below); the MongoStore methods
    perform the same steps on a `DBDTO` and are proved equal to them. Every
    call is one atomic step: the session and transaction wrapping of the
    source is not modelled. */
module StorageMongoStore {
  import opened Common
  import opened Collections
  import opened StorageDto
  import opened StorageDbModels

  function BaseIds(bases: seq<QABase>): set<Uuid> {
    set i | 0 <= i < |bases| :: bases[i].id
  }

  function GroupIds(groups: seq<QAGroup>): set<Uuid> {
    set i | 0 <= i < |groups| :: groups[i].id
  }

  /** No two rows of the Bases collection share an id. */
  predicate UniqueBaseIds(bases: seq<QABase>) {
    forall i, j :: 0 <= i < j < |bases| ==> bases[i].id != bases[j].id
  }

  /** No two rows of the Groups collection share an id. */
  predicate UniqueGroupIds(groups: seq<QAGroup>) {
    forall i, j :: 0 <= i < j < |groups| ==> groups[i].id != groups[j].id
  }

  function SlotOf<T>(o: Option<T>): Slot<T> {
    if o.Some? then Loaded(o.value) else Unloaded
  }

  /** The filter `{"id": id}` on Bases. */
  function BaseHasId(id: Uuid): QABase -> bool {
    (b: QABase) => b.id == id
  }

  /** The filter `{"question": ..., "type": ...}` on Bases. */
  function BaseHasContent(d: BaseDto): QABase -> bool {
    (b: QABase) => b.question == d.question && b.qtype == d.qtype
  }

  /** The filter `{"id": id}` on Groups. */
  function GroupHasId(id: Uuid): QAGroup -> bool {
    (g: QAGroup) => g.id == id
  }

  /** `find_one({"id": id})` on the Bases collection. */
  function FindBaseById(bases: seq<QABase>, id: Uuid): Option<QABase> {
    FindFirst(bases, BaseHasId(id))
  }

  /** `find_one({"question": ..., "type": ...})` on the Bases collection. */
  function FindBaseByContent(bases: seq<QABase>, d: BaseDto): Option<QABase> {
    FindFirst(bases, BaseHasContent(d))
  }

  /** `find_one({"id": id})` on the Groups collection. */
  function FindGroupById(groups: seq<QAGroup>, id: Uuid): Option<QAGroup> {
    FindFirst(groups, GroupHasId(id))
  }

  /** The `$match` stages of `get_group`: the row belongs to the loaded Base
      (when one is loaded), has the same set of answer options, and has the
      same set of extra options when the request carries some, or literally
      none when it carries none. The request's own `base_id` plays no part. */
  predicate GroupMatches(row: QAGroup, d: GroupDto, baseFilter: Option<Uuid>) {
    && (baseFilter.Some? ==> row.baseId == baseFilter.value)
    && Elems(row.allAnswers) == Elems(d.allAnswers)
    && (if |d.allExtra| > 0 then Elems(row.allExtra) == Elems(d.allExtra) else row.allExtra == [])
  }

  /** The pipeline's stages as one filter. */
  function GroupMatcher(d: GroupDto, baseFilter: Option<Uuid>): QAGroup -> bool {
    (row: QAGroup) => GroupMatches(row, d, baseFilter)
  }

  /** The `aggregate` pipeline of `get_group`. */
  function MatchingGroups(groups: seq<QAGroup>, d: GroupDto, baseFilter: Option<Uuid>): seq<QAGroup> {
    Filter(groups, GroupMatcher(d, baseFilter))
  }

  /** The Base id `get_group` narrows its lookup to: the loaded Base's, if any. */
  function BaseFilter(s: ContextState): Option<Uuid> {
    if s.base.Loaded? then Some(s.base.value.id) else None
  }

  /** The literal-empty rule for `all_extra` coincides with set equality:
      the content match is exactly "same Base (if narrowed), same option set,
      same extra set". */
  lemma GroupMatchesIsSetEquality(row: QAGroup, d: GroupDto, baseFilter: Option<Uuid>)
    ensures GroupMatches(row, d, baseFilter) <==>
              && (baseFilter.Some? ==> row.baseId == baseFilter.value)
              && Elems(row.allAnswers) == Elems(d.allAnswers)
              && Elems(row.allExtra) == Elems(d.allExtra)
  {
    ElemsEmpty(row.allExtra);
    ElemsEmpty(d.allExtra);
  }

  /** `get_base_by_id`: clears the Base slot and loads the first row with that id, if any. */
  function GetBaseByIdStep(bases: seq<QABase>, id: Uuid, s: ContextState): (t: ContextState)
    ensures t.group == s.group && t.answer == s.answer
    ensures t.base.Loaded? <==> id in BaseIds(bases)
    ensures t.base.Loaded? ==> t.base.value in bases && t.base.value.id == id
  {
    s.(base := SlotOf(FindBaseById(bases, id)))
  }

  /** `get_base`: clears the Base slot and loads the first row with the same question and kind, if any. */
  function GetBaseStep(bases: seq<QABase>, d: BaseDto, s: ContextState): (t: ContextState)
    ensures t.group == s.group && t.answer == s.answer
    ensures t.base.Loaded? <==> exists i :: 0 <= i < |bases| && bases[i].question == d.question && bases[i].qtype == d.qtype
    ensures t.base.Loaded? ==> t.base.value in bases && t.base.value.question == d.question && t.base.value.qtype == d.qtype
  {
    s.(base := SlotOf(FindBaseByContent(bases, d)))
  }

  /** `create_base`: a new Base with a fresh id is loaded and appended as the
      last row; `validate_base` cannot fail after the slot has been set. */
  function CreateBaseStep(bases: seq<QABase>, d: BaseDto, s: ContextState, newId: Uuid): (res: (seq<QABase>, ContextState))
    ensures |res.0| == |bases| + 1 && res.0[..|bases|] == bases
    ensures res.1.base == Loaded(res.0[|bases|])
    ensures res.1.base.value.question == d.question && res.1.base.value.qtype == d.qtype && res.1.base.value.id == newId
    ensures res.1.group == s.group && res.1.answer == s.answer
    ensures ValidateBase(res.1).Ok?
    ensures ValidBaseDto(d) ==> ValidBase(res.1.base.value)
  {
    var b := QABase(d.question, d.qtype, newId);
    (bases + [b], s.(base := Loaded(b)))
  }

  /** `get_group_by_id`: clears the Group slot and loads the row with that id, if any. */
  function GetGroupByIdStep(groups: seq<QAGroup>, id: Uuid, s: ContextState): (t: ContextState)
    ensures t.base == s.base && t.answer == s.answer
    ensures t.group.IsLoaded() <==> id in GroupIds(groups)
    ensures t.group.IsLoaded() ==> t.group.GroupLoaded? && t.group.group in groups && t.group.group.id == id
  {
    var g := FindGroupById(groups, id);
    s.(group := if g.Some? then GroupLoaded(g.value) else GroupUnloaded)
  }

  /** `get_group`: no request loads the empty group; otherwise the first row
      matching the request (narrowed to the loaded Base, if any) is loaded,
      and when no Base was loaded the group's own Base is looked up. */
  function GetGroupStep(bases: seq<QABase>, groups: seq<QAGroup>, dto: Option<GroupDto>, s: ContextState): (t: ContextState)
    ensures t.answer == s.answer
    ensures dto.None? ==> t.group == EmptyLoaded && t.base == s.base
    ensures dto.Some? ==> (t.group.IsLoaded() <==> exists i :: 0 <= i < |groups| && GroupMatches(groups[i], dto.value, BaseFilter(s)))
    ensures dto.Some? && t.group.IsLoaded() ==>
              t.group.GroupLoaded? && t.group.group in groups && GroupMatches(t.group.group, dto.value, BaseFilter(s))
    ensures dto.Some? && t.group.IsLoaded() ==> Some(t.group.group) == FindFirst(groups, GroupMatcher(dto.value, BaseFilter(s)))
    ensures s.base.Loaded? ==> t.base == s.base
    ensures s.base.Unloaded? && t.group.GroupLoaded? ==> t.base == SlotOf(FindBaseById(bases, t.group.group.baseId))
    ensures s.base.Unloaded? && !t.group.GroupLoaded? ==> t.base == Unloaded
  {
    var s0 := s.(group := GroupUnloaded);
    if dto.None? then s0.(group := EmptyLoaded)
    else
      var docs := MatchingGroups(groups, dto.value, BaseFilter(s0));
      FilterHeadIsFindFirst(groups, GroupMatcher(dto.value, BaseFilter(s0)));
      var s1 := if |docs| > 0 then s0.(group := GroupLoaded(docs[0])) else s0;
      if s1.group.GroupLoaded? && s1.base.Unloaded? then GetBaseByIdStep(bases, s1.group.group.baseId, s1)
      else s1
  }

  /** The group `create_group` builds from a request under the Base `b`. */
  function NewGroup(dto: GroupDto, b: QABase, newId: Uuid): QAGroup {
    QAGroup(dto.allAnswers, dto.allExtra, b.id, newId)
  }

  /** `create_group`: needs a loaded Base; the new group takes that Base's
      id, is loaded, must pass `validate_group`, and is inserted only when
      exactly one stored Base row equals the loaded Base. Nothing is inserted
      on any failure. */
  function CreateGroupStep(bases: seq<QABase>, groups: seq<QAGroup>, dto: GroupDto, s: ContextState, newId: Uuid)
    : (res: (seq<QAGroup>, ContextState, Outcome))
    ensures res.1.base == s.base && res.1.answer == s.answer
    ensures s.base.Unloaded? ==> res == (groups, s.(group := GroupUnloaded), Fail(NotLoaded))
    ensures s.base.Loaded? ==> res.1.group == GroupLoaded(NewGroup(dto, s.base.value, newId))
    ensures res.2.Pass? <==> s.base.Loaded? && GroupFitsBase(s.base.value, NewGroup(dto, s.base.value, newId))
                               && multiset(bases)[s.base.value] == 1
    ensures res.2.Pass? ==> res.0 == groups + [res.1.group.group] && ValidateGroup(res.1).Ok?
    ensures res.2.Fail? ==> res.0 == groups
    ensures s.base.Loaded? && res.2.Fail? ==> res.2.error == InvalidValue
    ensures s.base.Loaded? && ValidGroupDto(dto) ==> ValidGroup(res.1.group.group)
  {
    var s0 := s.(group := GroupUnloaded);
    var vb := ValidateBase(s0);
    if vb.Err? then (groups, s0, Fail(vb.error))
    else
      var g := NewGroup(dto, vb.value, newId);
      var s1 := s0.(group := GroupLoaded(g));
      var vg := ValidateGroup(s1);
      if vg.Err? then (groups, s1, Fail(vg.error))
      else if multiset(bases)[vb.value] != 1 then (groups, s1, Fail(InvalidValue))
      else (groups + [g], s1, Pass)
  }

  /** The answer lookup of the earlier `get_answer` (kept commented out in the
      source): same Base, same group link, same correctness flag, and the
      same answer, compared as a set for a multiple-choice question and as an
      exact sequence otherwise. */
  predicate AnswerMatches(row: QAAnswer, b: QABase, groupId: Option<Uuid>, isCorrect: bool, answer: seq<string>) {
    && row.baseId == b.id
    && row.groupId == groupId
    && row.isCorrect == isCorrect
    && (if b.qtype == MultipleChoice then Elems(row.answer) == Elems(answer) else row.answer == answer)
  }

  function AnswerMatcher(b: QABase, groupId: Option<Uuid>, isCorrect: bool, answer: seq<string>): QAAnswer -> bool {
    (row: QAAnswer) => AnswerMatches(row, b, groupId, isCorrect, answer)
  }

  /** The first stored answer that the lookup matches. */
  function FindAnswer(answers: seq<QAAnswer>, b: QABase, groupId: Option<Uuid>, isCorrect: bool, answer: seq<string>): Option<QAAnswer> {
    FindFirst(answers, AnswerMatcher(b, groupId, isCorrect, answer))
  }

  /** For a multiple-choice question, reordering (or repeating) the submitted
      options finds the same stored answer. */
  lemma MultipleChoiceAnswerOrderIgnored(answers: seq<QAAnswer>, b: QABase, groupId: Option<Uuid>, isCorrect: bool,
                                         a1: seq<string>, a2: seq<string>)
    requires b.qtype == MultipleChoice && Elems(a1) == Elems(a2)
    ensures FindAnswer(answers, b, groupId, isCorrect, a1) == FindAnswer(answers, b, groupId, isCorrect, a2)
  {
    FindFirstCongruent(answers, AnswerMatcher(b, groupId, isCorrect, a1), AnswerMatcher(b, groupId, isCorrect, a2));
  }

  /** For every other kind the order is significant: a stored answer matches
      one ordering only, so ["a", "b"] and ["b", "a"] are different answers. */
  lemma OrderedAnswerOrderMatters(row: QAAnswer, b: QABase, groupId: Option<Uuid>, isCorrect: bool, a1: seq<string>, a2: seq<string>)
    requires b.qtype != MultipleChoice
    requires AnswerMatches(row, b, groupId, isCorrect, a1) && AnswerMatches(row, b, groupId, isCorrect, a2)
    ensures a1 == a2
  {
  }

  /** The store: three collections held as sequences of rows. */
  class MongoStore {
    var bases: seq<QABase>
    var groups: seq<QAGroup>
    /** The Answers collection. Its primitives are stubs in the source, so no
        method reads or writes it; the answer lookup rule is `FindAnswer`. */
    var answers: seq<QAAnswer>

    /** Ids are unique in each collection (every id the store creates is fresh). */
    ghost predicate Valid()
      reads this
    {
      UniqueBaseIds(bases) && UniqueGroupIds(groups)
    }

    constructor ()
      ensures Valid() && bases == [] && groups == [] && answers == []
    {
      bases, groups, answers := [], [], [];
    }

    /** `get_base_by_id`. */
    method GetBaseById(baseId: Uuid, ctx: DBDTO?) returns (out: DBDTO)
      modifies ctx
      ensures ctx != null ==> out == ctx
      ensures ctx == null ==> fresh(out)
      ensures out.State() == GetBaseByIdStep(bases, baseId, if ctx == null then EmptyState() else old(ctx.State()))
    {
      if ctx == null {
        out := new DBDTO();
      } else {
        out := ctx;
        out.DelBase();
      }
      var doc := FindBaseById(bases, baseId);
      if doc.Some? {
        var set_ := out.SetBase(Some(doc.value));
      }
    }

    /** `get_base`. */
    method GetBase(d: BaseDto, ctx: DBDTO?) returns (out: DBDTO)
      modifies ctx
      ensures ctx != null ==> out == ctx
      ensures ctx == null ==> fresh(out)
      ensures out.State() == GetBaseStep(bases, d, if ctx == null then EmptyState() else old(ctx.State()))
    {
      if ctx == null {
        out := new DBDTO();
      } else {
        out := ctx;
        out.DelBase();
      }
      var doc := FindBaseByContent(bases, d);
      if doc.Some? {
        var set_ := out.SetBase(Some(doc.value));
      }
    }

    /** `create_base`, with `newId` the id the new record is given. */
    method CreateBase(d: BaseDto, ctx: DBDTO?, newId: Uuid) returns (out: DBDTO)
      requires Valid() && newId !in BaseIds(bases)
      modifies this`bases, ctx
      ensures Valid()
      ensures ctx != null ==> out == ctx
      ensures ctx == null ==> fresh(out)
      ensures (bases, out.State()) == CreateBaseStep(old(bases), d, if ctx == null then EmptyState() else old(ctx.State()), newId)
    {
      if ctx == null {
        out := new DBDTO();
      } else {
        out := ctx;
        out.DelBase();
      }
      var b := QABase(d.question, d.qtype, newId);
      var set_ := out.SetBase(Some(b));
      var checked := ValidateBase(out.State());
      bases := bases + [checked.value];
    }

    /** `get_group_by_id`. */
    method GetGroupById(groupId: Uuid, ctx: DBDTO?) returns (out: DBDTO)
      modifies ctx
      ensures ctx != null ==> out == ctx
      ensures ctx == null ==> fresh(out)
      ensures out.State() == GetGroupByIdStep(groups, groupId, if ctx == null then EmptyState() else old(ctx.State()))
    {
      if ctx == null {
        out := new DBDTO();
      } else {
        out := ctx;
        out.DelGroup();
      }
      var doc := FindGroupById(groups, groupId);
      if doc.Some? {
        var set_ := out.SetGroup(Some(Real(doc.value)));
      }
    }

    /** `get_group`; `dto == None` is the "no group" request. */
    method GetGroup(dto: Option<GroupDto>, ctx: DBDTO?) returns (out: DBDTO)
      modifies ctx
      ensures ctx != null ==> out == ctx
      ensures ctx == null ==> fresh(out)
      ensures out.State() == GetGroupStep(bases, groups, dto, if ctx == null then EmptyState() else old(ctx.State()))
    {
      if ctx == null {
        out := new DBDTO();
      } else {
        out := ctx;
        out.DelGroup();
      }
      if dto.None? {
        var set_ := out.SetGroup(Some(Empty));
        return;
      }
      var filter := if out.IsBaseLoaded() then Some(out.base.value.id) else None;
      var docs := MatchingGroups(groups, dto.value, filter);
      if |docs| > 0 {
        var set_ := out.SetGroup(Some(Real(docs[0])));
      }
      if out.group.GroupLoaded? && !out.IsBaseLoaded() {
        out := GetBaseById(out.group.group.baseId, out);
      }
    }

    /** `create_group`, with `newId` the id the new record is given. */
    method CreateGroup(dto: GroupDto, ctx: DBDTO?, newId: Uuid) returns (out: DBDTO, r: Outcome)
      requires Valid() && newId !in GroupIds(groups)
      modifies this`groups, ctx
      ensures Valid()
      ensures ctx != null ==> out == ctx
      ensures ctx == null ==> fresh(out)
      ensures (groups, out.State(), r) == CreateGroupStep(bases, old(groups), dto, if ctx == null then EmptyState() else old(ctx.State()), newId)
    {
      if ctx == null {
        out := new DBDTO();
      } else {
        out := ctx;
        out.DelGroup();
      }
      var vb := ValidateBase(out.State());
      if vb.Err? {
        return out, Fail(vb.error);
      }
      var g := NewGroup(dto, vb.value, newId);
      var set_ := out.SetGroup(Some(Real(g)));
      var vg := ValidateGroup(out.State());
      if vg.Err? {
        return out, Fail(vg.error);
      }
      if multiset(bases)[vb.value] != 1 {
        return out, Fail(InvalidValue);
      }
      groups := groups + [g];
      r := Pass;
    }
  }
}
