# qastorage get-or-create, in Dafny

This project models the deduplicating get-or-create logic of qastorage, a store of quiz
questions. It covers three linked record kinds:

- a **Base**: a question and its kind;
- a **Group**: the option list a question offers, plus the extra options a matching question pairs them with;
- an **Answer**: a submitted answer.

There are two generations of the logic. Both are modelled.

**The `storage` package** threads an aggregate context, `DBDTO`, through a chain of calls. The context has three independently loadable slots:

- Base;
- Group, where the group may be the explicit "no group";
- Answer.

The store exposes backend primitives over the Bases, Groups and Answers collections:

- `get_base_by_id`, `get_base` and `create_base`;
- `get_group_by_id`, `get_group` and `create_group`.

Each primitive starts a fresh context or clears only its own slot, then fills that slot from the collection; `get_group` also fills the Base slot with the found group's own Base when no Base was loaded. The `create_*` primitives append a row. `get_or_create_base` sits on top: it looks up by id or by content, creates only when the content lookup misses, and then validates.

storage/db_models.py defines only `QABase`, `QAGroup` and `QAAnswer`; `DBDTO` and `QAEmptyGroup`, which storage/mongo_store.py:11 imports from it, are not defined there. The model reconstructs them and their `validate_*` rules from how the store uses them and from what tests/dbdto/test_dbdto.py asserts.

`get_or_create_group` is called at storage/mongo_store.py:104, but its body in the abstract store is commented out. It is reconstructed here with the same shape as `get_or_create_base`. Two commented-out pieces are also modelled as pure rules:

- the answer-in-group rule;
- the answer lookup rule.

**The `qastorage` package** is the older generation. Its `get_or_create_base` upserts on (question, kind) and returns the Base's id. Its `get_or_create_group` returns the id of a group with the same option set and extra set under that Base, or inserts one. Its `get_or_create_qa` chains the two.

How the model is built:

- A collection is a sequence of rows in insertion order.
- `find_one` is the first matching row (`Collections.FindFirst`).
- An `aggregate` of `$match` stages is a filter (`Collections.Filter`).
- `insert_one` appends a row.
- `$setEquals` compares the sets of elements of two lists.
- `count_documents(row)` is the multiplicity of that row in the collection.
- Each backend operation is a method on a class holding the collections; `StorageBaseStore.GetOrCreateBase` and `StorageBaseStore.GetOrCreateGroup` are module-level methods that take the store. Each method is proved equal to a step function over the rows and the context's slots. Idempotence, deduplication and read-back are proved as lemmas about the step functions.

What the proofs show about the `storage` package:

- The group lookup's "literal empty list" rule for extra options is equivalent to set equality.
- Group deduplication ignores the order and the repetition of options.
- A request with stray extra options for a non-matching question is always refused, and nothing is stored.
- The matching-question rule (as many extras as options) is checked only when a group is created. `StorageBaseStore.MatchingLengthRuleOnlyOnCreate` exhibits a stored group returned for a request with three extras against two options. This follows from set-based deduplication and is recorded as a property of the code, not corrected.

## Model

| member | source | states |
|---|---|---|
| Common.Check | storage/base_store.py:48 | running a validation for its effect passes exactly when the validation succeeds and keeps its error otherwise |
| Collections.ElemsEmpty | storage/mongo_store.py:127-130 | a list has no elements as a set exactly when it is the empty list |
| Collections.FindFirst | storage/mongo_store.py:65 | `find_one` finds nothing iff no row matches; otherwise it returns a matching row of the collection with no matching row before it |
| Collections.Filter | storage/mongo_store.py:134 | an aggregate returns only matching rows of the collection, every matching row, and no more rows than the collection has |
| Collections.FilterHeadIsFindFirst | storage/mongo_store.py:134-136 | the first row of an aggregate is what `find_one` with the same filter returns, and one is empty iff the other finds nothing |
| Collections.FindFirstCongruent | storage/mongo_store.py:126-134 | two filters that agree on every stored row make `find_one` return the same row |
| Collections.FilterCongruent | storage/mongo_store.py:126-134 | two filters that agree on every stored row make the aggregate return the same rows |
| Collections.FindFirstAppendFound | storage/mongo_store.py:90 | inserting a row does not change what an already successful `find_one` returns |
| Collections.FindFirstAppendMissing | storage/mongo_store.py:90 | after a `find_one` that found nothing, an inserted matching row is what it returns |
| StorageDto.ParseType | storage/dto.py:11-15 | a stored kind label is accepted exactly when it is the label of one of the four kinds, and it is read as that kind |
| StorageDto.ParseLabel | storage/dto.py:11-15 | every kind survives being stored as its label and read back |
| StorageDto.MakeBaseDto | storage/dto.py:7-20 | a Base descriptor is built iff its question has 1 to 200 characters, and what is built is a valid descriptor; otherwise validation fails |
| StorageDto.MakeGroupDto | storage/dto.py:23-26 | a Group descriptor is built iff it has at least one option and every option and extra is a bounded string; omitted extras default to the empty list; the Base id is optional |
| StorageDto.MakeAnswerDto | storage/dto.py:29-33 | an Answer descriptor is built iff its Base and Group references are valid and its answer is a non-empty list of bounded strings; what is built is a valid descriptor with the given fields |
| QaDto.MakeGroupDto | qastorage/dto.py:22-25 | the older Group descriptor is built iff every option and extra is a bounded string (no minimum count); omitted extras default to empty |
| QaDto.MakeAnswerDto | qastorage/dto.py:28-31 | the older Answer descriptor is valid iff the Base descriptor it extends is valid and its group and answer strings are; it carries question, kind, group, answer and correctness |
| QaDto.GroupDtoGenerations | qastorage/dto.py:23 | every group descriptor the newer generation accepts is accepted by the older one, and the older one also accepts an empty option list |
| StorageDbModels.ValidateBase | tests/dbdto/test_dbdto.py:86-92 | `validate_base` succeeds iff the Base slot is loaded, returns that Base, and otherwise fails with the not-loaded error |
| StorageDbModels.ValidateGroup | tests/dbdto/test_dbdto.py:95-132 | `validate_group` succeeds iff the Base is loaded and the group is the empty group or names that Base and obeys the extra-options rule; an unloaded slot gives not-loaded, a rule violation gives invalid value |
| StorageDbModels.ValidateAnswer | tests/dbdto/test_dbdto.py:135-198 | `validate_answer` succeeds iff `validate_group` does, the answer is loaded, it names the Base, it links the group correctly and it has its kind's shape; a group failure is passed on unchanged, an unloaded answer gives not-loaded, and any rule violation gives invalid value |
| StorageDbModels.OnlyChoiceAnswerIsAnOption | tests/dbdto/test_dbdto.py:189-193 | a validated single-choice answer with a group is exactly one of the group's options |
| StorageDbModels.DBDTO.constructor | tests/dbdto/test_dbdto.py:50-51 | a new context has every slot unloaded |
| StorageDbModels.DBDTO.Init | tests/dbdto/test_dbdto.py:11-47 | a context built from optional records has exactly the given slots loaded, with the given values |
| StorageDbModels.DBDTO.GetBase | tests/dbdto/test_dbdto.py:13-23 | reading the Base slot fails with not-loaded iff it is unloaded, and otherwise returns its record |
| StorageDbModels.DBDTO.GetGroup | tests/dbdto/test_dbdto.py:25-35 | reading the Group slot fails with not-loaded iff it is unloaded, and otherwise returns the real group or the empty group it holds |
| StorageDbModels.DBDTO.GetAnswer | tests/dbdto/test_dbdto.py:37-47 | reading the Answer slot fails with not-loaded iff it is unloaded, and otherwise returns its record |
| StorageDbModels.DBDTO.SetBase | tests/dbdto/test_dbdto.py:50-59 | assigning nothing fails with invalid value and changes nothing; assigning a Base loads it; no other slot changes |
| StorageDbModels.DBDTO.SetGroup | tests/dbdto/test_dbdto.py:62-71 | assigning nothing fails and changes nothing; assigning a group or the empty group loads it; no other slot changes |
| StorageDbModels.DBDTO.SetAnswer | tests/dbdto/test_dbdto.py:74-83 | assigning nothing fails and changes nothing; assigning an Answer loads it; no other slot changes |
| StorageDbModels.DBDTO.DelBase | tests/dbdto/test_dbdto.py:20-23 | deleting the Base slot unloads it and leaves the other slots untouched |
| StorageDbModels.DBDTO.DelGroup | tests/dbdto/test_dbdto.py:32-35 | deleting the Group slot unloads it and leaves the other slots untouched |
| StorageDbModels.DBDTO.DelAnswer | tests/dbdto/test_dbdto.py:44-47 | deleting the Answer slot unloads it and leaves the other slots untouched |
| StorageMongoStore.GroupMatchesIsSetEquality | storage/mongo_store.py:126-133 | the group content match is exactly: same Base when narrowed, and the same option set and extra set, including the empty case |
| StorageMongoStore.GetBaseByIdStep | storage/mongo_store.py:60-68 | only the Base slot changes; it is loaded iff a row with that id exists, with that row |
| StorageMongoStore.GetBaseStep | storage/mongo_store.py:71-79 | only the Base slot changes; it is loaded iff a row with the same question and kind exists, with such a row |
| StorageMongoStore.CreateBaseStep | storage/mongo_store.py:82-91 | exactly one row is appended, holding the descriptor's question and kind and a fresh id; that row is what the Base slot holds; the other slots are unchanged and `validate_base` passes; a valid descriptor gives a valid record |
| StorageMongoStore.GetGroupByIdStep | storage/mongo_store.py:107-115 | only the Group slot changes; it is loaded iff a group with that id exists, with that group |
| StorageMongoStore.GetGroupStep | storage/mongo_store.py:118-139 | no request loads the empty group; otherwise the group slot is loaded iff a stored group matches (narrowed to the loaded Base), and then with the first matching row in collection order; a loaded Base is kept; with no Base loaded, that group's own Base is looked up; the Answer slot is untouched |
| StorageMongoStore.CreateGroupStep | storage/mongo_store.py:142-154 | with no Base loaded it fails with not-loaded and stores nothing; otherwise the new group under that Base is loaded, and is a valid record when the descriptor is valid; it is stored iff it passes the group rules and exactly one stored Base row equals the loaded one; any failure with a Base loaded is invalid value, and nothing is stored on failure |
| StorageMongoStore.MultipleChoiceAnswerOrderIgnored | storage/mongo_store.py:163-181 | for a multiple-choice question, answers with the same set of options find the same stored answer |
| StorageMongoStore.OrderedAnswerOrderMatters | storage/mongo_store.py:173-177 | for every other kind, a stored answer matches only one exact sequence of options |
| StorageMongoStore.MongoStore.GetBaseById | storage/mongo_store.py:60-68 | uses the given context or a fresh one and leaves it in the state `GetBaseByIdStep` describes; no collection changes |
| StorageMongoStore.MongoStore.GetBase | storage/mongo_store.py:71-79 | uses the given context or a fresh one and leaves it in the state `GetBaseStep` describes; no collection changes |
| StorageMongoStore.MongoStore.CreateBase | storage/mongo_store.py:82-91 | the Bases collection and the context become what `CreateBaseStep` describes, and ids stay unique |
| StorageMongoStore.MongoStore.GetGroupById | storage/mongo_store.py:107-115 | uses the given context or a fresh one and leaves it in the state `GetGroupByIdStep` describes |
| StorageMongoStore.MongoStore.GetGroup | storage/mongo_store.py:118-139 | uses the given context or a fresh one and leaves it in the state `GetGroupStep` describes |
| StorageMongoStore.MongoStore.CreateGroup | storage/mongo_store.py:142-154 | the Groups collection, the context and the outcome are those of `CreateGroupStep`, and ids stay unique |
| StorageBaseStore.GetOrCreateBaseStep | storage/base_store.py:35-49 | only the Base slot changes; an id never writes and passes iff a Base with that id exists; an unknown id fails with not-loaded and leaves the slot unloaded; a descriptor always passes, with a Base of that question and kind, and appends a row exactly when the content lookup misses |
| StorageBaseStore.FindBaseByIdUnique | storage/mongo_store.py:65 | with unique ids, looking up a stored Base's id returns that Base |
| StorageBaseStore.GetOrCreateBaseReadBack | tests/base_store/test_get_or_create_base.py:30-34 | ids stay unique, and the returned Base is what `get_base_by_id` of its id loads afterwards |
| StorageBaseStore.GetOrCreateBaseIdempotent | tests/test_base.py:120-127 | a second call with the same descriptor adds no row and yields the same Base, whatever context it is given |
| StorageBaseStore.GetOrCreateBase | storage/base_store.py:35-49 | uses the given context or a fresh one, and the Bases collection, the context and the outcome are those of `GetOrCreateBaseStep`; ids stay unique |
| StorageBaseStore.GetOrCreateGroupStep | storage/base_store.py:70-93 | the Answer slot is untouched and the stored groups are kept, with at most one appended; no group loads the empty group and passes iff a Base is loaded; an unknown id fails with not-loaded; a known id loads that group and the loaded Base or else the group's own Base, fails as a mismatch when the group belongs to another Base, and passes iff the group fits its Base; a descriptor loads the first stored group matching it and writes nothing, or, with a Base loaded and no match, loads the new group and appends it exactly when it passes; with neither a match nor a Base it fails with not-loaded; any failure where the loaded group names the loaded Base is invalid value |
| StorageBaseStore.GetOrCreateGroup | storage/base_store.py:70-93 | the Groups collection, the context and the outcome are those of `GetOrCreateGroupStep`, and ids stay unique |
| StorageBaseStore.FindGroupByIdUnique | storage/mongo_store.py:112 | with unique ids, looking up a stored group's id returns that group |
| StorageBaseStore.GetOrCreateGroupReadBack | tests/base_store/test_get_or_create_group.py:22-68 | ids stay unique, and on every path (found by content, by id, or created) the loaded group is what `get_group_by_id` of its id loads afterwards |
| StorageBaseStore.GetOrCreateGroupRefusesStrayExtras | storage/mongo_store.py:142-154 | under a non-matching question, a request with extra options fails with invalid value and stores nothing, even when a stored group has the same options |
| StorageBaseStore.MatchingLengthRuleOnlyOnCreate | storage/mongo_store.py:126-136 | a matching request with three extras against two options is resolved, with a pass, to a stored group with two of each |
| StorageBaseStore.GetOrCreateGroupDedup | storage/mongo_store.py:126-136 | once a request has been resolved under a loaded Base, any request with the same option set and extra set resolves to the same group and Base, passes and stores nothing |
| StorageBaseStore.ValidateAnswerInGroup | storage/base_store.py:172-194 | with no group the answer passes; with a group it passes iff the answer's options are among the group's options, a single choice has exactly one, and an ordering or matching uses every option; failures are answer-validation errors |
| StorageBaseStore.AnswerInGroupAgreesWithShape | storage/base_store.py:172-194 | the context's answer-shape rule with a real group holds iff the answer-in-group rule passes and an ordering or matching has at least two elements |
| QaMongoStore.UpsertBase | qastorage/mongo_srore.py:42-50 | the collection keeps its rows and grows by at most one; it grows iff no row has that question and kind, and then by a row with the fresh id; the returned id belongs to a row with that question and kind |
| QaMongoStore.GetOrCreateBaseStep | qastorage/mongo_srore.py:30-50 | an id never writes and is returned iff a Base has it, with a not-exist error otherwise; a descriptor is upserted |
| QaMongoStore.GetOrCreateGroupStep | qastorage/mongo_srore.py:52-86 | the collection grows by at most one row, iff no group of that Base has the same option and extra sets; the returned id is that of the first matching row, or the fresh id when there is none; a new row has the given fields, the fresh id and the Base |
| QaMongoStore.GetOrCreateQaStep | qastorage/mongo_srore.py:88-102 | the Base is upserted; no group or a stored group writes no group; a group descriptor leaves the Groups collection as `get_or_create_group` under the upserted Base's id leaves it; a missing group id is invalid, and a stored group of another Base is a mismatch; any success returns the given answer id with false |
| QaMongoStore.UpsertBaseIdempotent | qastorage/mongo_srore.py:42-50 | upserting the same descriptor again returns the same id and leaves the collection unchanged |
| QaMongoStore.GroupDedup | tests/test_mongo_store.py:19-24 | a request with the same option set and extra set, in any order, returns the same group id and stores nothing |
| QaMongoStore.GetOrCreateQaIdempotent | qastorage/mongo_srore.py:88-102 | repeating `get_or_create_qa` with the same descriptor leaves both collections as the first call left them |
| QaMongoStore.MongoStore.GetOrCreateBase | qastorage/mongo_srore.py:30-50 | the Bases collection and the result are those of `GetOrCreateBaseStep`, and ids stay unique |
| QaMongoStore.MongoStore.GetOrCreateGroup | qastorage/mongo_srore.py:52-86 | the Groups collection and the id are those of `GetOrCreateGroupStep`, and ids stay unique |
| QaMongoStore.MongoStore.GetOrCreateQa | qastorage/mongo_srore.py:88-102 | both collections and the result are those of `GetOrCreateQaStep`, and ids stay unique |

## Left out

- Sessions and transactions (`session_decorator` and every `session` argument): each call is one atomic, sequential step.
- The Mongo driver details: `_id` fields, projections and array-query behaviour beyond `$setEquals`. Converting between a record and a document (`parse_obj`, `.dict()`) is the identity.
- `uuid4` and the implicit id defaults of `QABase` and `QAGroup` (storage/mongo_store.py:87 and :148 build them without an id): a created record's id is a parameter, which the store methods require to be unused in its collection.
- UUIDs are modelled as natural numbers; only their equality matters.
- The Python exceptions are modelled as error kinds:
  - `ValueError` from an unloaded slot is not-loaded;
  - a failed rule or pydantic validation is invalid value;
  - `QABaseNotExist` is not-exist;
  - the `assert` in `get_or_create_qa` and `QABasesDoNotMatch` in the reconstructed `get_or_create_group` are mismatch;
  - `QAAnswerValidation` is answer-validation.
- `MongoSettings`, `MongoStore.__init__` and `get_store`: configuration and client construction read the environment.
- The answer primitives of `storage` (`get_answer_by_id`, `get_answer`, `create_answer`) are stubs. `get_or_create_answer` in the abstract store is commented out. Neither is modelled beyond the answer lookup rule.
- The commented-out `add_group_to_answer` and the earlier `get_or_create_qa` of storage/mongo_store.py are not modelled, apart from their answer lookup rule.
- qastorage/base_store.py holds only an abstract declaration and is not part of this model.
- StorageBaseStore.GetOrCreateGroupStep: reconstructed, since the live body is commented out. It keeps the shape of `get_or_create_base`. The commented-out code compares the context's loaded Base with a `base_id` argument and raises `QABasesDoNotMatch` when they differ; the live signature has no `base_id` argument, so the model instead compares the group found by id with the loaded Base (its own `base_id` against the Base's id) and fails with mismatch. That comparison is a rule of this model, not a transcription of the commented line.
- StorageDbModels.ValidateAnswer: reconstructed from the test assertions. An unloaded Answer slot is taken to fail with not-loaded (stated in its contract), which no test shows.
- QaMongoStore.MongoStore.GetOrCreateGroup: takes a descriptor only. The declared id alternative would fail on attribute access, and it is never passed by `get_or_create_qa`.
- QaMongoStore.MongoStore.GetOrCreateQa: the caller's descriptor is a value, so replacing its group with the parsed stored group is not modelled. Parsing a stored group is taken to succeed. The group lookup by id runs outside the session in the source, which this model does not distinguish.
