/** The older store of the `qastorage` package (qastorage/mongo_srore.py):
    get-or-create operations that return ids, over a Bases and a Groups
    collection held as sequences of documents. Each method is proved equal
    to a step function over the collections; idempotence and set-equality
    deduplication are proved of the step functions. */
module QaMongoStore {
  import opened Common
  import opened Collections
  import opened StorageDto
  import QaDto

  /** A document of the Bases collection. */
  datatype BaseDoc = BaseDoc(question: string, qtype: QAType, id: Uuid)

  /** A document of the Groups collection. */
  datatype GroupDoc = GroupDoc(allAnswers: seq<string>, allExtra: seq<string>, id: Uuid, baseId: Uuid)

  function BaseDocIds(bases: seq<BaseDoc>): set<Uuid> {
    set i | 0 <= i < |bases| :: bases[i].id
  }

  function GroupDocIds(groups: seq<GroupDoc>): set<Uuid> {
    set i | 0 <= i < |groups| :: groups[i].id
  }

  /** The filter `{"id": id}` on Bases. */
  function BaseDocHasId(id: Uuid): BaseDoc -> bool {
    (b: BaseDoc) => b.id == id
  }

  /** The upsert key `{"question": ..., "type": ...}`. */
  function BaseDocHasKey(d: BaseDto): BaseDoc -> bool {
    (b: BaseDoc) => b.question == d.question && b.qtype == d.qtype
  }

  /** The filter `{"id": id}` on Groups. */
  function GroupDocHasId(id: Uuid): GroupDoc -> bool {
    (g: GroupDoc) => g.id == id
  }

  /** The three `$match` stages of `get_or_create_group`: same Base, and the
      option and extra lists equal as sets. */
  predicate GroupDocMatches(row: GroupDoc, d: GroupDto, baseId: Uuid) {
    && row.baseId == baseId
    && Elems(row.allAnswers) == Elems(d.allAnswers)
    && Elems(row.allExtra) == Elems(d.allExtra)
  }

  function GroupDocMatcher(d: GroupDto, baseId: Uuid): GroupDoc -> bool {
    (row: GroupDoc) => GroupDocMatches(row, d, baseId)
  }

  /** `find_one_and_update(..., {"$setOnInsert": {"id": newId}}, upsert=True)`:
      the id of the first document with the same question and kind, or of a
      document inserted with `newId` when there is none. */
  function UpsertBase(bases: seq<BaseDoc>, d: BaseDto, newId: Uuid): (res: (seq<BaseDoc>, Uuid))
    ensures |bases| <= |res.0| <= |bases| + 1 && res.0[..|bases|] == bases
    ensures |res.0| == |bases| <==> exists i :: 0 <= i < |bases| && bases[i].question == d.question && bases[i].qtype == d.qtype
    ensures BaseDoc(d.question, d.qtype, res.1) in res.0
    ensures |res.0| == |bases| + 1 ==> res.0[|bases|] == BaseDoc(d.question, d.qtype, newId)
  {
    var found := FindFirst(bases, BaseDocHasKey(d));
    if found.Some? then (bases, found.value.id)
    else (bases + [BaseDoc(d.question, d.qtype, newId)], newId)
  }

  /** `get_or_create_base`: an id must name a stored Base and never writes;
      a descriptor is upserted. */
  function GetOrCreateBaseStep(bases: seq<BaseDoc>, sel: BaseRef, newId: Uuid): (res: (seq<BaseDoc>, Result<Uuid>))
    ensures sel.BaseById? ==> res.0 == bases
    ensures sel.BaseById? ==> res.1 == if sel.id in BaseDocIds(bases) then Ok(sel.id) else Err(NotExist)
    ensures sel.BaseByContent? ==> res.1.Ok? && (res.0, res.1.value) == UpsertBase(bases, sel.dto, newId)
  {
    match sel
    case BaseById(id) =>
      var doc := FindFirst(bases, BaseDocHasId(id));
      if doc.None? then (bases, Err(NotExist)) else (bases, Ok(doc.value.id))
    case BaseByContent(d) =>
      var (rows, id) := UpsertBase(bases, d, newId);
      (rows, Ok(id))
  }

  /** `get_or_create_group`: the id of the first group of the Base with the
      same option and extra sets, or of a group inserted with `newId`. */
  function GetOrCreateGroupStep(groups: seq<GroupDoc>, d: GroupDto, baseId: Uuid, newId: Uuid): (res: (seq<GroupDoc>, Uuid))
    ensures |groups| <= |res.0| <= |groups| + 1 && res.0[..|groups|] == groups
    ensures |res.0| == |groups| <==> exists i :: 0 <= i < |groups| && GroupDocMatches(groups[i], d, baseId)
    ensures exists i :: 0 <= i < |res.0| && res.0[i].id == res.1 && GroupDocMatches(res.0[i], d, baseId)
    ensures |res.0| == |groups| + 1 ==> res.0[|groups|] == GroupDoc(d.allAnswers, d.allExtra, newId, baseId) && res.1 == newId
    ensures var f := FindFirst(groups, GroupDocMatcher(d, baseId));
            res.1 == if f.Some? then f.value.id else newId
  {
    var docs := Filter(groups, GroupDocMatcher(d, baseId));
    FilterHeadIsFindFirst(groups, GroupDocMatcher(d, baseId));
    if |docs| > 0 then
      (groups, docs[0].id)
    else
      var row := GroupDoc(d.allAnswers, d.allExtra, newId, baseId);
      assert GroupDocMatches(row, d, baseId);
      assert (groups + [row])[|groups|] == row;
      (groups + [row], newId)
  }

  /** `get_or_create_qa`: upsert the Base of the answer; then no group, a
      stored group (which must belong to that Base), or a group resolved by
      content; the result is always a fresh answer id with `False`, and no
      answer is stored. */
  function GetOrCreateQaStep(bases: seq<BaseDoc>, groups: seq<GroupDoc>, dto: QaDto.AnswerDto,
                             newBaseId: Uuid, newGroupId: Uuid, answerId: Uuid)
    : (res: (seq<BaseDoc>, seq<GroupDoc>, Result<(Uuid, bool)>))
    ensures res.0 == UpsertBase(bases, dto.AsBase(), newBaseId).0
    ensures res.2.Ok? ==> res.2.value == (answerId, false)
    ensures !dto.group.GroupByContent? ==> res.1 == groups
    ensures dto.group.NoGroup? ==> res.2.Ok?
    ensures dto.group.GroupById? ==>
              var g := FindFirst(groups, GroupDocHasId(dto.group.id));
              res.2 == if g.None? then Err(InvalidValue)
                       else if g.value.baseId != UpsertBase(bases, dto.AsBase(), newBaseId).1 then Err(Mismatch)
                       else Ok((answerId, false))
    ensures dto.group.GroupByContent? ==> res.2.Ok? && |groups| <= |res.1| <= |groups| + 1
    ensures dto.group.GroupByContent? ==>
              res.1 == GetOrCreateGroupStep(groups, dto.group.dto, UpsertBase(bases, dto.AsBase(), newBaseId).1, newGroupId).0
  {
    var (rows, baseRes) := GetOrCreateBaseStep(bases, BaseByContent(dto.AsBase()), newBaseId);
    var baseId := baseRes.value;
    match dto.group
    case NoGroup => (rows, groups, Ok((answerId, false)))
    case GroupById(id) =>
      var doc := FindFirst(groups, GroupDocHasId(id));
      if doc.None? then (rows, groups, Err(InvalidValue))
      else if doc.value.baseId != baseId then (rows, groups, Err(Mismatch))
      else (rows, groups, Ok((answerId, false)))
    case GroupByContent(d) =>
      var (grows, _) := GetOrCreateGroupStep(groups, d, baseId, newGroupId);
      (rows, grows, Ok((answerId, false)))
  }

  /** Upserting the same descriptor twice returns the same id and leaves the
      collection as the first call left it. */
  lemma UpsertBaseIdempotent(bases: seq<BaseDoc>, d: BaseDto, id1: Uuid, id2: Uuid)
    ensures var first := UpsertBase(bases, d, id1);
            UpsertBase(first.0, d, id2) == first
  {
    var found := FindFirst(bases, BaseDocHasKey(d));
    if found.None? {
      FindFirstAppendMissing(bases, BaseDocHasKey(d), BaseDoc(d.question, d.qtype, id1));
    } else {
      FindFirstAppendFound(bases, BaseDocHasKey(d), BaseDoc(d.question, d.qtype, id1));
    }
  }

  /** Group deduplication: after a descriptor has been resolved for a Base,
      any descriptor with the same option and extra sets (in any order)
      returns the same id and stores nothing; with d2 == d1 this is the
      idempotence of `get_or_create_group`. */
  lemma GroupDedup(groups: seq<GroupDoc>, d1: GroupDto, d2: GroupDto, baseId: Uuid, id1: Uuid, id2: Uuid)
    requires Elems(d1.allAnswers) == Elems(d2.allAnswers) && Elems(d1.allExtra) == Elems(d2.allExtra)
    ensures var first := GetOrCreateGroupStep(groups, d1, baseId, id1);
            GetOrCreateGroupStep(first.0, d2, baseId, id2) == first
  {
    var p1, p2 := GroupDocMatcher(d1, baseId), GroupDocMatcher(d2, baseId);
    var first := GetOrCreateGroupStep(groups, d1, baseId, id1);
    FilterCongruent(groups, p1, p2);
    FilterHeadIsFindFirst(groups, p2);
    if |Filter(groups, p1)| == 0 {
      var row := GroupDoc(d1.allAnswers, d1.allExtra, id1, baseId);
      assert p2(row);
      FindFirstAppendMissing(groups, p2, row);
      FilterHeadIsFindFirst(first.0, p2);
    } else {
      FindFirstAppendFound(groups, p2, GroupDoc(d1.allAnswers, d1.allExtra, id1, baseId));
    }
  }

  /** Repeating `get_or_create_qa` with the same descriptor stores nothing
      more: both collections stay as the first call left them. */
  lemma GetOrCreateQaIdempotent(bases: seq<BaseDoc>, groups: seq<GroupDoc>, dto: QaDto.AnswerDto,
                                b1: Uuid, g1: Uuid, a1: Uuid, b2: Uuid, g2: Uuid, a2: Uuid)
    ensures var first := GetOrCreateQaStep(bases, groups, dto, b1, g1, a1);
            var second := GetOrCreateQaStep(first.0, first.1, dto, b2, g2, a2);
            second.0 == first.0 && second.1 == first.1
  {
    UpsertBaseIdempotent(bases, dto.AsBase(), b1, b2);
    if dto.group.GroupByContent? {
      var baseId := UpsertBase(bases, dto.AsBase(), b1).1;
      GroupDedup(groups, dto.group.dto, dto.group.dto, baseId, g1, g2);
    }
  }

  /** The older store: two collections held as sequences of documents. */
  class MongoStore {
    var bases: seq<BaseDoc>
    var groups: seq<GroupDoc>

    /** Ids are unique in each collection (every id the store inserts is fresh). */
    ghost predicate Valid()
      reads this
    {
      && (forall i, j :: 0 <= i < j < |bases| ==> bases[i].id != bases[j].id)
      && (forall i, j :: 0 <= i < j < |groups| ==> groups[i].id != groups[j].id)
    }

    constructor ()
      ensures Valid() && bases == [] && groups == []
    {
      bases, groups := [], [];
    }

    /** `get_or_create_base`, with `newId` the id an inserted Base gets. */
    method GetOrCreateBase(sel: BaseRef, newId: Uuid) returns (r: Result<Uuid>)
      requires Valid() && newId !in BaseDocIds(bases)
      modifies this`bases
      ensures Valid()
      ensures (bases, r) == GetOrCreateBaseStep(old(bases), sel, newId)
    {
      match sel {
        case BaseById(id) =>
          var doc := FindFirst(bases, BaseDocHasId(id));
          if doc.None? {
            return Err(NotExist);
          }
          r := Ok(doc.value.id);
        case BaseByContent(d) =>
          var doc := FindFirst(bases, BaseDocHasKey(d));
          if doc.None? {
            bases := bases + [BaseDoc(d.question, d.qtype, newId)];
            r := Ok(newId);
          } else {
            r := Ok(doc.value.id);
          }
      }
    }

    /** `get_or_create_group`, with `newId` the id an inserted group gets. */
    method GetOrCreateGroup(d: GroupDto, baseId: Uuid, newId: Uuid) returns (id: Uuid)
      requires Valid() && newId !in GroupDocIds(groups)
      modifies this`groups
      ensures Valid()
      ensures (groups, id) == GetOrCreateGroupStep(old(groups), d, baseId, newId)
    {
      var docs := Filter(groups, GroupDocMatcher(d, baseId));
      if |docs| > 0 {
        return docs[0].id;
      }
      id := newId;
      groups := groups + [GroupDoc(d.allAnswers, d.allExtra, id, baseId)];
    }

    /** `get_or_create_qa`, with the ids `uuid4` would supply. */
    method GetOrCreateQa(dto: QaDto.AnswerDto, newBaseId: Uuid, newGroupId: Uuid, answerId: Uuid) returns (r: Result<(Uuid, bool)>)
      requires Valid() && newBaseId !in BaseDocIds(bases) && newGroupId !in GroupDocIds(groups)
      modifies this`bases, this`groups
      ensures Valid()
      ensures (bases, groups, r) == GetOrCreateQaStep(old(bases), old(groups), dto, newBaseId, newGroupId, answerId)
    {
      var baseRes := GetOrCreateBase(BaseByContent(dto.AsBase()), newBaseId);
      var baseId := baseRes.value;
      match dto.group {
        case NoGroup =>
        case GroupById(id) =>
          var doc := FindFirst(groups, GroupDocHasId(id));
          if doc.None? {
            return Err(InvalidValue);
          }
          if doc.value.baseId != baseId {
            return Err(Mismatch);
          }
        case GroupByContent(d) =>
          var groupId := GetOrCreateGroup(d, baseId, newGroupId);
      }
      r := Ok((answerId, false));
    }
  }
}
