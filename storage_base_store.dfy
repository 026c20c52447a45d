/** The get-or-create orchestration of the `storage` package
    (storage/base_store.py). In the source it is written once on the
    abstract store and calls the backend's primitives; with one backend in
    this model it is written against StorageMongoStore.MongoStore directly.

    `GetOrCreateBase` is the live code. `GetOrCreateGroup` is reconstructed:
    the backend calls it (storage/mongo_store.py:104) but its body in the
    abstract store is commented out, so it is given here the same shape as
    `get_or_create_base`. `ValidateAnswerInGroup` models the commented-out
    answer-in-group rule. */
module StorageBaseStore {
  import opened Common
  import opened Collections
  import opened StorageDto
  import opened StorageDbModels
  import opened StorageMongoStore

  /** `get_or_create_base`: clear the Base slot; an id is only looked up; a
      descriptor is looked up by content and created when the lookup misses;
      then `validate_base`. */
  function GetOrCreateBaseStep(bases: seq<QABase>, sel: BaseRef, s: ContextState, newId: Uuid)
    : (res: (seq<QABase>, ContextState, Outcome))
    ensures res.1.group == s.group && res.1.answer == s.answer
    ensures res.2.Pass? ==> res.1.base.Loaded? && res.1.base.value in res.0
    ensures sel.BaseById? ==> res.0 == bases && (res.2.Pass? <==> sel.id in BaseIds(bases))
    ensures sel.BaseById? && res.2.Pass? ==> res.1.base.value.id == sel.id
    ensures res.2.Fail? ==> res == (bases, s.(base := Unloaded), Fail(NotLoaded))
    ensures sel.BaseByContent? ==> res.2.Pass?
    ensures sel.BaseByContent? ==>
              res.0 == if FindBaseByContent(bases, sel.dto).Some? then bases
                       else bases + [QABase(sel.dto.question, sel.dto.qtype, newId)]
    ensures sel.BaseByContent? ==> res.1.base.value.question == sel.dto.question && res.1.base.value.qtype == sel.dto.qtype
  {
    var s0 := s.(base := Unloaded);
    match sel
    case BaseById(id) =>
      var t := GetBaseByIdStep(bases, id, s0);
      (bases, t, Check(ValidateBase(t)))
    case BaseByContent(d) =>
      var t := GetBaseStep(bases, d, s0);
      var (rows, u) := if t.base.Loaded? then (bases, t) else CreateBaseStep(bases, d, t, newId);
      (rows, u, Check(ValidateBase(u)))
  }

  /** With unique ids, the row holding a Base is the one `find_one` by its id returns. */
  lemma {:induction false} FindBaseByIdUnique(bases: seq<QABase>, b: QABase)
    requires UniqueBaseIds(bases) && b in bases
    ensures FindBaseById(bases, b.id) == Some(b)
  {
    var f := FindBaseById(bases, b.id);
    var i :| 0 <= i < |bases| && bases[i] == b;
    assert BaseHasId(b.id)(bases[i]);
    var k :| 0 <= k < |bases| && bases[k] == f.value;
    assert bases[k].id == b.id;
  }

  /** The Base `get_or_create_base` returns is what `get_base_by_id` of its
      id returns afterwards, and ids stay unique. */
  lemma GetOrCreateBaseReadBack(bases: seq<QABase>, sel: BaseRef, s: ContextState, newId: Uuid)
    requires UniqueBaseIds(bases) && newId !in BaseIds(bases)
    ensures var res := GetOrCreateBaseStep(bases, sel, s, newId);
            && UniqueBaseIds(res.0)
            && (res.2.Pass? ==> GetBaseByIdStep(res.0, res.1.base.value.id, res.1) == res.1)
  {
    var res := GetOrCreateBaseStep(bases, sel, s, newId);
    if |res.0| != |bases| {
      forall i | 0 <= i < |bases| ensures res.0[i].id != newId {
        assert bases[i].id in BaseIds(bases);
      }
    }
    if res.2.Pass? {
      FindBaseByIdUnique(res.0, res.1.base.value);
    }
  }

  /** Calling `get_or_create_base` twice with the same descriptor yields the
      same Base and adds no second row, whatever context the second call gets. */
  lemma GetOrCreateBaseIdempotent(bases: seq<QABase>, d: BaseDto, s: ContextState, s': ContextState, id1: Uuid, id2: Uuid)
    ensures var first := GetOrCreateBaseStep(bases, BaseByContent(d), s, id1);
            var second := GetOrCreateBaseStep(first.0, BaseByContent(d), s', id2);
            second.0 == first.0 && second.1.base == first.1.base && second.2 == Pass
  {
    var first := GetOrCreateBaseStep(bases, BaseByContent(d), s, id1);
    if FindBaseByContent(bases, d).None? {
      FindFirstAppendMissing(bases, BaseHasContent(d), QABase(d.question, d.qtype, id1));
    }
  }

  /** `get_or_create_base` on the store, with `newId` the id a created Base gets. */
  method GetOrCreateBase(store: MongoStore, sel: BaseRef, ctx: DBDTO?, newId: Uuid) returns (out: DBDTO, r: Outcome)
    requires store.Valid() && newId !in BaseIds(store.bases)
    modifies store`bases, ctx
    ensures store.Valid()
    ensures ctx != null ==> out == ctx
    ensures ctx == null ==> fresh(out)
    ensures (store.bases, out.State(), r)
         == GetOrCreateBaseStep(old(store.bases), sel, if ctx == null then EmptyState() else old(ctx.State()), newId)
  {
    if ctx == null {
      out := new DBDTO();
    } else {
      out := ctx;
      out.DelBase();
    }
    match sel {
      case BaseById(id) =>
        out := store.GetBaseById(id, out);
      case BaseByContent(d) =>
        out := store.GetBase(d, out);
        if !out.IsBaseLoaded() {
          out := store.CreateBase(d, out, newId);
        }
    }
    r := Check(ValidateBase(out.State()));
  }

  /** The Base a group found by id is checked against: the loaded Base, or
      else the group's own Base as `get_base_by_id` finds it. */
  function BaseForGroup(bases: seq<QABase>, g: QAGroup, s: ContextState): Slot<QABase> {
    if s.base.Loaded? then s.base else SlotOf(FindBaseById(bases, g.baseId))
  }

  /** Reconstructed `get_or_create_group`: clear the Group slot; no group
      loads the empty group; an id is looked up (and its Base loaded when
      none is), and a group of another Base than the loaded one is refused
      as a mismatch; a descriptor is looked up by content and created when
      the lookup misses; then `validate_group`. */
  function GetOrCreateGroupStep(bases: seq<QABase>, groups: seq<QAGroup>, sel: GroupRef, s: ContextState, newId: Uuid)
    : (res: (seq<QAGroup>, ContextState, Outcome))
    ensures res.1.answer == s.answer
    ensures |groups| <= |res.0| <= |groups| + 1 && res.0[..|groups|] == groups
    ensures res.2.Fail? ==> res.0 == groups
    ensures res.2.Pass? ==> ValidateGroup(res.1).Ok?
    ensures res.2.Fail? && res.1.base.Loaded? && res.1.group.GroupLoaded? && res.1.group.group.baseId == res.1.base.value.id
            ==> res.2.error == InvalidValue
    ensures !sel.GroupByContent? ==> res.0 == groups
    // no group
    ensures sel.NoGroup? ==> res.1 == s.(group := EmptyLoaded) && res.2 == (if s.base.Loaded? then Pass else Fail(NotLoaded))
    // by id
    ensures sel.GroupById? && FindGroupById(groups, sel.id).None? ==> res == (groups, s.(group := GroupUnloaded), Fail(NotLoaded))
    ensures sel.GroupById? && FindGroupById(groups, sel.id).Some? ==>
              var g := FindGroupById(groups, sel.id).value;
              && res.1.group == GroupLoaded(g) && g.id == sel.id
              && res.1.base == BaseForGroup(bases, g, s)
              && (res.2.Pass? <==> res.1.base.Loaded? && GroupFitsBase(res.1.base.value, g))
              && (res.1.base.Unloaded? ==> res.2 == Fail(NotLoaded))
              && (res.1.base.Loaded? && g.baseId != res.1.base.value.id ==> res.2 == Fail(Mismatch))
    // by content
    ensures sel.GroupByContent? && FindFirst(groups, GroupMatcher(sel.dto, BaseFilter(s))).Some? ==>
              var g := FindFirst(groups, GroupMatcher(sel.dto, BaseFilter(s))).value;
              && res.0 == groups && res.1.group == GroupLoaded(g)
              && res.1.base == BaseForGroup(bases, g, s)
              && (res.2.Pass? <==> ValidateGroup(res.1).Ok?)
    ensures sel.GroupByContent? && FindFirst(groups, GroupMatcher(sel.dto, BaseFilter(s))).None? && s.base.Loaded? ==>
              var g := NewGroup(sel.dto, s.base.value, newId);
              && res.1 == s.(group := GroupLoaded(g))
              && (res.2.Pass? <==> GroupFitsBase(s.base.value, g) && multiset(bases)[s.base.value] == 1)
              && res.0 == (if res.2.Pass? then groups + [g] else groups)
    ensures sel.GroupByContent? && FindFirst(groups, GroupMatcher(sel.dto, BaseFilter(s))).None? && s.base.Unloaded? ==>
              res == (groups, s.(group := GroupUnloaded), Fail(NotLoaded))
  {
    var s0 := s.(group := GroupUnloaded);
    match sel
    case NoGroup =>
      var t := GetGroupStep(bases, groups, None, s0);
      (groups, t, Check(ValidateGroup(t)))
    case GroupById(id) =>
      var t := GetGroupByIdStep(groups, id, s0);
      var u := if t.group.GroupLoaded? && t.base.Unloaded? then GetBaseByIdStep(bases, t.group.group.baseId, t) else t;
      if u.group.GroupLoaded? && u.base.Loaded? && u.group.group.baseId != u.base.value.id then (groups, u, Fail(Mismatch))
      else (groups, u, Check(ValidateGroup(u)))
    case GroupByContent(d) =>
      var t := GetGroupStep(bases, groups, Some(d), s0);
      if t.group.IsLoaded() then (groups, t, Check(ValidateGroup(t)))
      else CreateGroupStep(bases, groups, d, t, newId)
  }

  /** With unique ids, the row holding a group is the one `find_one` by its id returns. */
  lemma {:induction false} FindGroupByIdUnique(groups: seq<QAGroup>, g: QAGroup)
    requires UniqueGroupIds(groups) && g in groups
    ensures FindGroupById(groups, g.id) == Some(g)
  {
    var f := FindGroupById(groups, g.id);
    var i :| 0 <= i < |groups| && groups[i] == g;
    assert GroupHasId(g.id)(groups[i]);
    var k :| 0 <= k < |groups| && groups[k] == f.value;
    assert groups[k].id == g.id;
  }

  /** The group `get_or_create_group` loads, on every path, is what
      `get_group_by_id` of its id loads afterwards, and ids stay unique. */
  lemma GetOrCreateGroupReadBack(bases: seq<QABase>, groups: seq<QAGroup>, sel: GroupRef, s: ContextState, newId: Uuid)
    requires UniqueGroupIds(groups) && newId !in GroupIds(groups)
    ensures var res := GetOrCreateGroupStep(bases, groups, sel, s, newId);
            && UniqueGroupIds(res.0)
            && (res.2.Pass? && res.1.group.GroupLoaded? ==> GetGroupByIdStep(res.0, res.1.group.group.id, res.1) == res.1)
  {
    var res := GetOrCreateGroupStep(bases, groups, sel, s, newId);
    if |res.0| != |groups| {
      forall i | 0 <= i < |groups| ensures res.0[i].id != newId {
        assert groups[i].id in GroupIds(groups);
      }
    }
    if res.2.Pass? && res.1.group.GroupLoaded? {
      var g := res.1.group.group;
      if |res.0| != |groups| {
        assert g == res.0[|groups|];
      } else {
        assert res.0 == groups;
      }
      assert g in res.0;
      FindGroupByIdUnique(res.0, g);
    }
  }

  /** Reconstructed `get_or_create_group` on the store, with `newId` the id a created group gets. */
  method GetOrCreateGroup(store: MongoStore, sel: GroupRef, ctx: DBDTO?, newId: Uuid) returns (out: DBDTO, r: Outcome)
    requires store.Valid() && newId !in GroupIds(store.groups)
    modifies store`groups, ctx
    ensures store.Valid()
    ensures ctx != null ==> out == ctx
    ensures ctx == null ==> fresh(out)
    ensures (store.groups, out.State(), r)
         == GetOrCreateGroupStep(store.bases, old(store.groups), sel, if ctx == null then EmptyState() else old(ctx.State()), newId)
  {
    if ctx == null {
      out := new DBDTO();
    } else {
      out := ctx;
      out.DelGroup();
    }
    match sel {
      case NoGroup =>
        out := store.GetGroup(None, out);
      case GroupById(id) =>
        out := store.GetGroupById(id, out);
        if out.group.GroupLoaded? && !out.IsBaseLoaded() {
          out := store.GetBaseById(out.group.group.baseId, out);
        }
        if out.group.GroupLoaded? && out.IsBaseLoaded() && out.group.group.baseId != out.base.value.id {
          return out, Fail(Mismatch);
        }
      case GroupByContent(d) =>
        out := store.GetGroup(Some(d), out);
        if !out.IsGroupLoaded() {
          out, r := store.CreateGroup(d, out, newId);
          if r.Fail? {
            return;
          }
        }
    }
    r := Check(ValidateGroup(out.State()));
  }

  /** A request carrying extra options for a question that is not a
      matching question is refused and stores nothing, whether or not a
      stored group has the same options. */
  lemma GetOrCreateGroupRefusesStrayExtras(bases: seq<QABase>, groups: seq<QAGroup>, d: GroupDto, s: ContextState, newId: Uuid)
    requires s.base.Loaded? && s.base.value.qtype != MatchingChoice && d.allExtra != []
    ensures var res := GetOrCreateGroupStep(bases, groups, GroupByContent(d), s, newId);
            res.2 == Fail(InvalidValue) && res.0 == groups
  {
    var t := GetGroupStep(bases, groups, Some(d), s.(group := GroupUnloaded));
    if t.group.IsLoaded() {
      ElemsEmpty(t.group.group.allExtra);
      ElemsEmpty(d.allExtra);
    }
  }

  /** The matching-question rule "as many extras as options" is enforced on
      creation only: a stored group with the same option and extra sets is
      returned for a request that breaks the rule, here three extras (one
      repeated) against two options. */
  lemma MatchingLengthRuleOnlyOnCreate()
    ensures var b := QABase("q", MatchingChoice, 1);
            var stored := QAGroup(["a", "b"], ["x", "y"], 1, 2);
            var d := GroupDto(["a", "b"], ["x", "y", "y"], None);
            var res := GetOrCreateGroupStep([b], [stored], GroupByContent(d), ContextState(Loaded(b), GroupUnloaded, Unloaded), 3);
            |d.allExtra| != |d.allAnswers| && res == ([stored], ContextState(Loaded(b), GroupLoaded(stored), Unloaded), Pass)
  {
    var b := QABase("q", MatchingChoice, 1);
    var stored := QAGroup(["a", "b"], ["x", "y"], 1, 2);
    var d := GroupDto(["a", "b"], ["x", "y", "y"], None);
    assert Elems(stored.allExtra) == Elems(d.allExtra) by {
      assert Elems(d.allExtra) == {"x", "y"};
    }
    assert GroupMatches(stored, d, Some(1));
  }

  /** Set-equality deduplication: once a request has been resolved under a
      loaded Base, any request with the same option set and extra set (any
      order, any repetition) resolves to the same group and stores nothing. */
  lemma GetOrCreateGroupDedup(bases: seq<QABase>, groups: seq<QAGroup>, d1: GroupDto, d2: GroupDto,
                              s: ContextState, s': ContextState, id1: Uuid, id2: Uuid)
    requires s.base.Loaded? && s'.base == s.base
    requires Elems(d1.allAnswers) == Elems(d2.allAnswers) && Elems(d1.allExtra) == Elems(d2.allExtra)
    requires GetOrCreateGroupStep(bases, groups, GroupByContent(d1), s, id1).2.Pass?
    ensures var first := GetOrCreateGroupStep(bases, groups, GroupByContent(d1), s, id1);
            var second := GetOrCreateGroupStep(bases, first.0, GroupByContent(d2), s', id2);
            second.0 == first.0 && second.1.group == first.1.group && second.1.base == first.1.base && second.2 == Pass
  {
    var f := Some(s.base.value.id);
    var p1, p2 := GroupMatcher(d1, f), GroupMatcher(d2, f);
    forall g: QAGroup ensures p1(g) == p2(g) {
      GroupMatchesIsSetEquality(g, d1, f);
      GroupMatchesIsSetEquality(g, d2, f);
    }
    var first := GetOrCreateGroupStep(bases, groups, GroupByContent(d1), s, id1);
    FilterCongruent(groups, p1, p2);
    FilterHeadIsFindFirst(groups, p1);
    FindFirstCongruent(groups, p1, p2);
    if |MatchingGroups(groups, d1, f)| == 0 {
      var g := NewGroup(d1, s.base.value, id1);
      assert first.0 == groups + [g];
      GroupMatchesIsSetEquality(g, d1, f);
      assert p2(g);
      FindFirstAppendMissing(groups, p2, g);
      FilterHeadIsFindFirst(first.0, p2);
    }
  }

  /** The commented-out `validate_answer_in_group`: without a group anything
      passes; a single choice must be one of the options; a multiple choice a
      subset of them; an ordering or matching must use exactly the options. */
  function ValidateAnswerInGroup(b: QABase, answer: seq<string>, group: Option<QAGroup>): (r: Outcome)
    ensures group.None? ==> r == Pass
    ensures r.Fail? ==> r.error == AnswerValidation
    ensures r.Pass? && group.Some? ==> Elems(answer) <= Elems(group.value.allAnswers)
    ensures r.Pass? && group.Some? && b.qtype == OnlyChoice ==> |answer| == 1
    ensures r.Pass? && group.Some? && (b.qtype == RangingChoice || b.qtype == MatchingChoice) ==>
              Elems(answer) == Elems(group.value.allAnswers)
    ensures group.Some? && Elems(answer) <= Elems(group.value.allAnswers)
            && (b.qtype == OnlyChoice ==> |answer| == 1)
            && (b.qtype == RangingChoice || b.qtype == MatchingChoice ==> Elems(answer) == Elems(group.value.allAnswers))
            ==> r.Pass?
  {
    if group.None? then Pass
    else
      var options := group.value.allAnswers;
      match b.qtype
      case OnlyChoice =>
        assert |answer| == 1 ==> answer[0] in Elems(answer);
        if |answer| != 1 || answer[0] !in options then Fail(AnswerValidation)
        else assert answer == [answer[0]]; Pass
      case MultipleChoice =>
        if !(Elems(answer) <= Elems(options)) then Fail(AnswerValidation) else Pass
      case _ =>
        if Elems(answer) != Elems(options) then Fail(AnswerValidation) else Pass
  }

  /** The context's answer-shape rule is the answer-in-group rule plus the
      minimum length of two for orderings and matchings. */
  lemma AnswerInGroupAgreesWithShape(b: QABase, answer: seq<string>, g: QAGroup)
    ensures AnswerFitsShape(b.qtype, answer, GroupLoaded(g)) <==>
              && ValidateAnswerInGroup(b, answer, Some(g)).Pass?
              && (b.qtype == RangingChoice || b.qtype == MatchingChoice ==> |answer| >= 2)
  {
    if |answer| == 1 {
      assert answer == [answer[0]];
      assert Elems(answer) == {answer[0]};
    }
  }
}
