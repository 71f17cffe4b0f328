# Photo Broom: a verified model

A Dafny model of the parts of Photo Broom whose correctness is a statement about whole runs: the
in-memory photo database, the schedulers and queues of `core`, the two signal-coalescing helpers, and
the configuration file. `dafny verify dfyconfig.toml` checks everything.

## How it is organised

| files | component |
|---|---|
| `PhotoData`, `Wrappers` | ids, tags, groups, people, rows and deltas |
| `SortActions`, `PhotoFilter`, `PhotoQueries` | sorting by an action tree, the similar-photos filter, listing photos |
| `ContainersUtils` | `remove_unique`, the three-way map diff |
| `ChangeLog`, `LogPast`, `LogText` | the change log, its replay, what its entries say of the past, and the text they are kept in |
| `PeopleInfo`, `Notifications` | the match-or-insert rule for people; signals held back until commit |
| `Database`, `InMemoryBackend` | the contents of the database as a value; the backend object with nested transaction handles |
| `BackendRuns`, `OperationEffects`, `SignalRuns`, `GroupRuns`, `ReplayRuns` | theorems over every sequence of operations and handles |
| `TaskExecutor`, `ExecutorProgress` | the ring of processes with its runner; what client threads bring about |
| `QueueRecord`, `TasksQueue` | what can happen to a throttled queue that is re-entered; the queue itself |
| `TsQueue`, `AsyncDatabase` | the bounded blocking queue; the database thread and its shutdown |
| `SignalPostponer`, `SignalBlocker`, `BlockerProgress` | lazy and blocked connections |
| `ConfigTree`, `ConfigStorage` | the tree of JSON objects by its leaves; flat configuration map to the tree and back |
| `Strings` | the order of text, used by sorting, maps and JSON objects |

Objects the program updates in place are classes whose methods state the whole new state as a function
of the old one. Runs are sequences of events over those same functions; where threads interleave, a
critical section is one event, and a theorem over all legal event sequences is one over all interleavings.
Lemmas switch Dafny's automatic induction off, so that every proof is the one that is written.

## What turned out to hold only under a condition

* Saving and loading a configuration gives it back if and only if no key's path is a prefix of another's, no key
  of several components starts with an empty one, and no value is an object, which would be read back as several
  entries (`ConfigStorage.SaveThenLoad`). The assertion on the way down holds if and only if at no step the
  deepest key on the way has a value there other than null or an object; when no value is an object, this says that
  no key's path is a prefix of another's (`ConfigStorage.Storage.Save`). Where paths nest, a leaf survives if and
  only if no other key leads further down from it, and the deepest key on the way decides what it is.
* An update replaces the whole stored row by the defaults overwritten with the delta
  (src/database/explicit_photo_delta.hpp:75-82), although src/database/ibackend.hpp:107-110 says that absent
  fields are kept. So replaying the change log after an update reproduces the stored tags if and only if the
  update carried tags or there were none (`ChangeLog.UpdateKeepsTagsReplay`), and founding a group keeps the
  log faithful if and only if the photo had no tags (`ReplayRuns.FoundingAGroupLosesTags`).
* Photos and groups stay in agreement through an update if and only if a representative keeps its group and
  any other photo ends up ungrouped or a member of a live group (`GroupRuns.UpdateKeepsAgreement`); adding
  photos and founding groups have exact conditions of the same kind.
* Storing the same person info twice is idempotent if and only if it names a place or a person
  (`PeopleInfo.StoreTwice`), which is what the source asserts.
* The assertion made after a process was run holds if and only if its coroutine finished or had not been told to
  stop when the runner asked (`TaskExecutor.StopAssertion`); coroutines that finish whenever they are run with the
  work flag cleared never break it (`TaskExecutor.ObedientCoroutinesPass`).
* When the database thread has ended, every added task has been run if and only if no thread came to its stopped
  test after the queue was stopped, none pushed after the thread's end, and none is still inside `addTask`
  (`AsyncDatabase.AllRunIff`). Both ways of losing a task happen (`AsyncDatabase.GivenUp`, `AsyncDatabase.TooLate`);
  neither does when nobody is inside `addTask` as the stop begins (`AsyncDatabase.AllTasksRunAndCloseIsLast`). The
  closing task is run last if and only if no thread pushes between its push and the end
  (`AsyncDatabase.CloseIsRunLastIff`).
* setPHash changes a photo without any signal (`SignalRuns.SetPHashIsSilent`).

## Model

| member | source | states |
|---|---|---|
| SortActions.OnPhotos | src/database/backends/memory_backend/memory_backend.cpp:854-909 | the recursive chain of in-place sorts, for any action tree over photos with distinct ids, ends and leaves the range stably sorted by the tree's keys in lexicographic order, first action dominant, ties in input order; no photo stands before one that the action wants in front of it |
| SortActions.KeysMean | src/database/backends/memory_backend/memory_backend.cpp:854-909 | a photo is less than another by the keys of an action exactly when the action does not let the other one come first, said of the tags, hashes and ids themselves |
| SortActions.SortedMeans | src/database/backends/memory_backend/memory_backend.cpp:854-909 | in the sorted range no photo comes before one that the action wants in front of it, and photos it does not tell apart keep their order |
| SortActions.FirstToTellDecides | src/database/backends/memory_backend/memory_backend.cpp:863-868 | of the actions of a group the first one that tells two photos apart decides |
| SortActions.TimestampMeans | src/database/backends/memory_backend/memory_backend.cpp:880-885 | sorted by timestamp, the text of tag 3 decides and, where it is the same, that of tag 4, in either direction, a missing tag counting as an empty text |
| SortActions.TagSortMeans | src/database/backends/memory_backend/memory_backend.cpp:856-862 | sorted by a tag, no later text is less (greater, if descending) |
| SortActions.HashSortMeans | src/database/backends/memory_backend/memory_backend.cpp:873-877 | sorted by hash, no later value is less (greater), and photos without one stand at 0, before those with it |
| SortActions.IdSortMeans | src/database/backends/memory_backend/memory_backend.cpp:890-903 | sorted by id, the ids ascend or descend |
| Strings.FirstDifferenceDecides | src/database/backends/memory_backend/memory_backend.cpp:67-84 | of two texts the first difference decides, and one that ends there is less |
| SortActions.ChainIsLexicographicSort | src/database/backends/memory_backend/memory_backend.cpp:863-868 | the result of the chain is exactly the one that a single stable sort by the lexicographic order would give |
| SortActions.SortThenSort | src/database/backends/memory_backend/memory_backend.cpp:880-885 | stably sorting by less significant keys and then by more significant ones is a stable sort by their concatenation |
| SortActions.StableSortIsUnique | src/database/backends/memory_backend/memory_backend.cpp:854-909 | for distinct photos there is only one stable sort |
| SortActions.StableSortFromTheBack | src/database/backends/memory_backend/memory_backend.cpp:876-877 | sorting the reversed range in ascending order is a stable descending sort: ties stay in input order |
| SortActions.KeyOrder | src/database/backends/memory_backend/memory_backend.cpp:67-84 | every comparison (tag with missing ones as empty, hash, id, either direction) is asymmetric and negatively transitive, as sorting demands |
| PhotoFilter.FilterSimilar | src/database/backends/memory_backend/memory_backend.cpp:95-110 | the filter returns exactly the photos whose valid perceptual hash is shared by another photo, each once |
| PhotoQueries.GetPhotos | src/database/backends/memory_backend/memory_backend.cpp:760-770 | exactly the stored photos that pass the filter, each once |
| PhotoQueries.OnPhotos | src/database/backends/memory_backend/memory_backend.cpp:741-757 | exactly the stored photos that pass the filter, each once, in the order of the action's keys; with the filters that do not sort, the one stable sort of the id-ordered list |
| ContainersUtils.RemoveUnique | src/core/containers_utils.hpp:148-185 | although it overwrites the range it reads, the compacted range is the elements that equal an original neighbour |
| ContainersUtils.TwinsAreInOrder | src/core/containers_utils.hpp:148-185 | the kept elements are those with a twin, all of them, at ascending original positions |
| ContainersUtils.Compare | src/core/containers_utils.hpp:44-97 | the loops output the removed, changed and added entries with their values from the right side |
| ContainersUtils.DiffIsExact | src/core/containers_utils.hpp:58-96 | the three outputs list, in ascending order, exactly the keys only on the left, on both sides with differing values, and only on the right |
| ContainersUtils.DiffIsApplicable | src/core/containers_utils.hpp:44-97 | applying the diff to the left map gives the right map, up to values that do not differ |
| ContainersUtils.SetDifferenceIsExact | src/core/containers_utils.hpp:58-72 | the merge walk over two ascending key ranges gives exactly the keys missing from the other one |
| ContainersUtils.SetIntersectionIsExact | src/core/containers_utils.hpp:74-81 | the merge walk gives exactly the common keys |
| ChangeLog.ProcessTags | src/database/implementation/aphoto_change_log_operator.cpp:118-146 | one entry per removed, changed and added tag, in that order, is appended |
| ChangeLog.DifferenceIsInOrder | src/database/implementation/aphoto_change_log_operator.cpp:118-146 | removals are logged first, then changes, then additions, each kind in the order of the tags |
| ChangeLog.GroupComesLast | src/database/implementation/aphoto_change_log_operator.cpp:80-100 | the entry about the group comes after those about the tags |
| ChangeLog.StoreDifference | src/database/implementation/aphoto_change_log_operator.cpp:80-100 | the tag entries and then the group entry are appended, each only if the delta carries the field |
| ChangeLog.ReplayTagsDifference | src/database/implementation/aphoto_change_log_operator.cpp:118-146 | replaying the logged difference turns the old raw tags into the new ones |
| ChangeLog.ReplayGroupDifference | src/database/implementation/aphoto_change_log_operator.cpp:149-177 | replaying the logged difference turns the old group info into the new one |
| ChangeLog.ReplayTagsOfUpdate | src/database/implementation/aphoto_change_log_operator.cpp:80-100 | the entries of one update affect the replayed tags of the updated photo only |
| ChangeLog.UpdateKeepsTagsReplay | src/database/backends/memory_backend/memory_backend.cpp:288-309 | one update keeps replayed and stored tags equal if and only if it carries tags or there were none |
| ChangeLog.UpdateKeepsGroupReplay | src/database/backends/memory_backend/memory_backend.cpp:288-309 | likewise for the group info |
| LogPast.TagsDifferenceTells | src/database/implementation/aphoto_change_log_operator.cpp:118-146 | every logged removal gives the text that was there, every change the old text, which differs from the new one, and every addition is of a tag that was not there |
| LogPast.GroupDifferenceTells | src/database/implementation/aphoto_change_log_operator.cpp:149-177 | a logged removal or change gives the group and the role that were there |
| LogPast.OperationTells | src/database/backends/memory_backend/memory_backend.cpp:240-314 | every operation keeps the past told by the log true to the audited photos |
| LogPast.PastIsToldInEveryRun | src/database/backends/memory_backend/memory_backend.cpp:600-604 | after any run with nested and aborted transactions, what an entry says of the past is the replay of the entries before it, for every photo whose effective updates all carried the field |
| LogText.TagRoundTrip | src/database/implementation/aphoto_change_log_operator.cpp:17-57 | decodeTag2 reads back every tag and raw value that encodeTag wrote; its item-count assertions hold |
| LogText.TagChangeRoundTrip | src/database/implementation/aphoto_change_log_operator.cpp:26-73 | decodeTag3 reads back every tag with its old and new value; its assertions hold |
| LogText.GroupRoundTrip | src/database/implementation/aphoto_change_log_operator.cpp:161-176 | the id and role written for an added or removed group are the items dataToStr cuts out |
| LogText.GroupChangeRoundTrip | src/database/implementation/aphoto_change_log_operator.cpp:151-160 | likewise for the two ids and two roles of a modified group |
| LogText.Base64RoundTrip | src/database/implementation/aphoto_change_log_operator.cpp:10-43 | decoding the base64 form of any bytes gives the bytes, padding included |
| LogText.Utf8RoundTrip | src/database/implementation/aphoto_change_log_operator.cpp:10-43 | decoding the UTF-8 form of any text gives the text |
| LogText.QuadIsNumber | src/database/implementation/aphoto_change_log_operator.cpp:10-43 | four base64 digits are the number that the three bytes are, as section 4 of RFC 4648 has it |
| LogText.KnownDigits | src/database/implementation/aphoto_change_log_operator.cpp:10-43 | the alphabet of section 4 of RFC 4648 |
| LogText.KnownUtf8 | src/database/implementation/aphoto_change_log_operator.cpp:10-43 | examples of section 7 of RFC 3629 of characters of one to four bytes |
| LogText.LoggedTextIsReadable | src/database/implementation/aphoto_change_log_operator.cpp:219-289 | every entry an update logs is read back from its text, by its own field and operation, as it was meant |
| PeopleInfo.Store | src/database/implementation/apeople_information_accessor.cpp:6-48 | a removal drops the row; otherwise the first match in id order is rewritten, or a row is added |
| PeopleInfo.StoredMeans | src/database/implementation/apeople_information_accessor.cpp:6-48 | written out for the rows: with an id that row is dropped or written; without one, the first row of the photo with the same valid rectangle, or the same person and no rectangle, or else a new row |
| PeopleInfo.ResolvedIsNoRemoval | src/database/implementation/apeople_information_accessor.cpp:41-42 | the second drop branch is unreachable |
| PeopleInfo.StoredKeepsWellFormed | src/database/backends/memory_backend/memory_backend.cpp:581-597 | rows carry their own ids below the counter, as long as supplied ids exist |
| PeopleInfo.StoredWithoutId | src/database/implementation/apeople_information_accessor.cpp:19-45 | without an id exactly one row is written: the first match in id order, or one fresh row |
| PeopleInfo.StoreTwice | src/database/implementation/apeople_information_accessor.cpp:6-48 | storing the same info again returns the same id and changes nothing, if and only if it names a place or a person |
| Notifications.NotificationsAccumulator.FireChanges | src/database/implementation/notifications_accumulator.cpp:32-46 | emits at most one signal of each kind, none empty, after deletions took precedence, and clears everything |
| Notifications.NotificationsAccumulator.RaiseDeletion | src/database/implementation/notifications_accumulator.cpp:63-70 | the loop erases every removed id, all its occurrences, from the added and modified ones |
| Notifications.NotificationsAccumulator.RemovePhotos | src/database/implementation/notifications_accumulator.cpp:26-29 | removed ids are collected in report order, nothing is emitted before the commit |
| Notifications.DeletionWins | src/database/implementation/notifications_accumulator.cpp:32-70 | a photo is named added (modified) exactly if it was reported so and not removed, and removed exactly if reported so |
| Notifications.AllErasedInParts | src/database/implementation/notifications_accumulator.cpp:63-70 | erasing the removed ids from a list is erasing them from its parts, so the others keep their order |
| InMemoryBackend.MemoryBackend.OpenTransaction | src/database/transaction_wrapper.hpp:38-51 | the first handle takes the snapshot, later ones share it |
| InMemoryBackend.MemoryBackend.Release | src/database/transaction_wrapper.hpp:17-23 | only the last handle ends the transaction: rollback to the snapshot and silence, or commit and signals |
| InMemoryBackend.MemoryBackend.Abort | src/database/transaction_wrapper.hpp:25-28 | any handle marks the shared transaction as aborted |
| InMemoryBackend.MemoryBackend.AddPhotos | src/database/backends/memory_backend/memory_backend.cpp:240-280 | photos get consecutive ids in place, rows and people are stored, the ids are pending as added, all in a handle of its own |
| InMemoryBackend.MemoryBackend.Update | src/database/backends/memory_backend/memory_backend.cpp:283-314 | each delta logs its difference and replaces the row; the ids are pending as modified |
| InMemoryBackend.MemoryBackend.Set | src/database/backends/memory_backend/memory_backend.cpp:370-375 | the flag is set and the photo pending as modified |
| InMemoryBackend.MemoryBackend.SetPHash | src/database/backends/memory_backend/memory_backend.cpp:801-812 | the hash of a stored photo is replaced, nothing becomes pending |
| InMemoryBackend.MemoryBackend.StoreName | src/database/backends/memory_backend/memory_backend.cpp:528-562 | renames a known id, refuses an unknown one, finds the first namesake or adds a person |
| InMemoryBackend.MemoryBackend.StorePerson | src/database/backends/memory_backend/memory_backend.cpp:581-597 | person info is stored by the match-or-insert rule |
| InMemoryBackend.MemoryBackend.WriteBlob | src/database/backends/memory_backend/memory_backend.cpp:416-419 | one blob is replaced |
| InMemoryBackend.MemoryBackend.AddGroup | src/database/backends/memory_backend/memory_backend.cpp:626-638 | a fresh id, an entry in the table, and an update of the representative |
| InMemoryBackend.MemoryBackend.RemoveGroup | src/database/backends/memory_backend/memory_backend.cpp:641-684 | clears every photo of the group by one update and returns the representative |
| InMemoryBackend.MemoryBackend.ListGroups | src/database/backends/memory_backend/memory_backend.cpp:711-726 | the group of every representative in photo order |
| Database.AddedRows | src/database/backends/memory_backend/memory_backend.cpp:247-275 | new rows are the filled deltas at the next ids; old rows, log, flags, groups and blobs stay, ids stay exactly those given out |
| Database.UpdatedRows | src/database/backends/memory_backend/memory_backend.cpp:288-309 | an update touches the named rows and the log and nothing else |
| Database.UpdatedRow | src/database/backends/memory_backend/memory_backend.cpp:302-306 | the last delta that names a photo decides its row |
| OperationEffects.PhotosAreAdded | src/database/backends/memory_backend/memory_backend.cpp:247-275 | each of the six fields of a new row is what the delta carries, or the default |
| OperationEffects.AddingKeepsPhotos | src/database/backends/memory_backend/memory_backend.cpp:240-280 | there are no photos but the old ones, unchanged, and the new ones at the next ids |
| OperationEffects.PhotosAreUpdated | src/database/backends/memory_backend/memory_backend.cpp:302-306 | each of the six fields of an updated row is what the last delta naming it carries, or the default |
| OperationEffects.UpdatingKeepsPhotos | src/database/backends/memory_backend/memory_backend.cpp:283-314 | photos that no delta names, and the other tables, stay |
| OperationEffects.AddedPhotoHasItsPeople | src/database/backends/memory_backend/memory_backend.cpp:257-271 | every person of a new photo, named without an id and at a place of its own, is found on it by name and place |
| OperationEffects.NameIsStored | src/database/backends/memory_backend/memory_backend.cpp:528-562 | written out for the names: a known id is renamed, an unknown one refused; without an id it is the first of that name, or a new one |
| OperationEffects.FlagIsSet | src/database/backends/memory_backend/memory_backend.cpp:370-375 | one flag of one photo is set and every other flag is what it was |
| OperationEffects.GroupIsFounded | src/database/backends/memory_backend/memory_backend.cpp:626-638 | the group is in the table under a fresh id with its kind; its representative keeps nothing else, other photos everything |
| OperationEffects.GroupIsRemoved | src/database/backends/memory_backend/memory_backend.cpp:641-684 | exactly the photos in the group are reset, and it leaves the table |
| BackendRuns.OperationInside | src/database/backends/memory_backend/memory_backend.cpp:283-314 | inside a transaction an operation changes the database and what is pending: no signal, snapshot or handle |
| BackendRuns.OperationOutside | src/database/backends/memory_backend/memory_backend.cpp:240-314 | outside one it takes effect, leaves no transaction behind, and signals at once exactly the ids it added and those it touched |
| BackendRuns.DuringTransaction | src/database/transaction_wrapper.hpp:35-56 | for every nesting and every operations in between: the snapshot stays the database at the outermost open, handles are counted, nothing is signalled |
| BackendRuns.TransactionEnds | src/database/backends/memory_backend/memory_backend.cpp:187-213 | releasing the last handle leaves the whole database as at the outermost open, and silence, if any handle aborted; else the operations stand and the pending changes are signalled |
| BackendRuns.AbortedTransactionsLeaveNoTrace | src/database/transaction_wrapper.hpp:10-56 | after any run the database is what the operations outside aborted transactions make of the start, in order |
| SignalRuns.OperationIsAccounted | src/database/backends/memory_backend/memory_backend.cpp:240-314 | every operation but setPHash keeps the pending changes complete against the snapshot |
| SignalRuns.CommitSignals | src/database/implementation/notifications_accumulator.cpp:32-46 | a commit emits at most one added and one modified signal; the added ids are exactly those the snapshot lacked, without repetition; the modified ones are exactly those the operations touched; every photo whose data or flags changed is named |
| SignalRuns.ModifiedAreTheTouched | src/database/implementation/notifications_accumulator.cpp:14-29 | throughout a transaction the photos pending as modified are exactly those updated, flagged, made representatives or cleared of a removed group |
| SignalRuns.SetPHashIsSilent | src/database/backends/memory_backend/memory_backend.cpp:801-812 | setPHash changes the photo exactly if the hash differs, and nothing becomes pending |
| SignalRuns.NothingPendingOutside | src/database/implementation/notifications_accumulator.cpp:32-60 | in every run nothing is pending outside transactions |
| GroupRuns.UpdateKeepsAgreement | src/database/group.hpp:31-38 | an update keeps photos and group table in agreement if and only if a representative keeps its group and others end ungrouped or members of a live one |
| GroupRuns.AddPhotosKeepsAgreement | src/database/backends/memory_backend/memory_backend.cpp:240-280 | adding photos keeps it if and only if each is ungrouped or a member of a live group |
| GroupRuns.AddGroupKeepsAgreement | src/database/backends/memory_backend/memory_backend.cpp:626-638 | founding a group keeps it if and only if the photo does not represent another one |
| GroupRuns.RemoveGroupKeepsAgreement | src/database/backends/memory_backend/memory_backend.cpp:641-684 | removing a live group returns its representative, resets the rows of its photos, changes no other row and keeps the agreement |
| GroupRuns.EachGroupListedOnce | src/database/backends/memory_backend/memory_backend.cpp:711-726 | listGroups gives each live group exactly once and nothing else |
| GroupRuns.GroupsAgreeInEveryRun | src/database/backends/memory_backend/memory_backend.cpp:626-726 | photos and groups agree after every run, rollbacks included, whose effective operations met those conditions |
| ReplayRuns.OperationReplays | src/database/backends/memory_backend/memory_backend.cpp:240-314 | every operation keeps the log faithful for the photos all of whose updates carried the field |
| ReplayRuns.LogReplaysInEveryRun | src/database/backends/memory_backend/memory_backend.cpp:600-604 | after any run, rollbacks included, folding a photo's entries over its values at addPhotos gives its stored tags (group), if its effective updates all carried them |
| ReplayRuns.FoundingAGroupLosesTags | src/database/backends/memory_backend/memory_backend.cpp:626-638 | founding a group keeps the log faithful to the photo's tags if and only if it has none |
| TasksQueue.Queue.Push | src/core/task_executor_utils.hpp:180-187 | the given task is the next one ever pushed and the call is on the record; whatever the executor does inside it, it ends with the real queue as recorded, and either nothing waiting or no free slot |
| TasksQueue.Queue.TryToFire | src/core/task_executor_utils.hpp:240-249 | the loop ends, settled, even though fire may re-enter it |
| TasksQueue.Queue.Fire | src/core/task_executor_utils.hpp:251-261 | hands over the task that was at the front (Fifo) or the back (Lifo); the assertion holds, and the outstanding work shrinks, so the mutual recursion ends |
| TasksQueue.Queue.PassTaskToExecutor | src/core/task_executor_utils.hpp:256-260 | the executor gets just that task, and what it then calls is the task's reaction, all of it |
| TasksQueue.Queue.TaskFinished | src/core/task_executor_utils.hpp:263-277 | the notification of that task is on the record, the counter counts it, and on return the queue is settled |
| TasksQueue.Queue.Clear | src/core/task_executor_utils.hpp:194-198 | waiting tasks are dropped, executing ones untouched |
| QueueRecord.SoundInEveryRun | src/core/task_executor_utils.hpp:152-278 | in every record each pushed task is exactly once waiting, executing, finished or dropped; tasks are passed in push order (Fifo) or newest waiting first (Lifo); never more execute than allowed; with nothing under way the queue is settled |
| QueueRecord.WorkIsConserved | src/core/task_executor_utils.hpp:152-278 | the pushed tasks are, as a multiset, those waiting, executing, finished and dropped; no ticket is passed twice |
| QueueRecord.PushesAreAccounted | src/core/task_executor_utils.hpp:152-278 | the pushed tasks are those pushed from outside and those pushed by tasks handed over, less what tasks under way have still to push |
| QueueRecord.OnlyOneWayOn | src/core/task_executor_utils.hpp:240-277 | while anything is under way only one thing can happen next, so the calls from outside determine the whole record |
| QueueRecord.FinishTakesItsTask | src/core/task_executor_utils.hpp:263-277 | a notification takes exactly its own task out of those executing |
| QueueRecord.NothingIsForgotten | src/core/task_executor_utils.hpp:240-277 | with nothing under way or executing nothing waits, and every pushed task has finished or was dropped |
| TasksQueue.AnyRun | src/core/task_executor_utils.hpp:152-278 | any sequence of calls, with any re-entrant reactions, ends; the record has exactly these calls from outside and nothing under way, and the real queue holds the tasks the record says |
| TaskExecutor.TaskExecutor.Add | src/core/implementation/task_executor.cpp:147-160 | a new running process goes to the end of the ring and a wake-up is requested |
| TaskExecutor.TaskExecutor.Resume | src/core/implementation/task_executor.cpp:65-75 | a process that has not finished is running again, and a wake-up is requested |
| TaskExecutor.TaskExecutor.Terminate | src/core/implementation/task_executor.cpp:50-62 | its work flag is cleared for good, and it is resumed |
| TaskExecutor.TaskExecutor.Stop | src/core/implementation/task_executor.cpp:169-187 | the first stop clears the working flag and requests a wake-up |
| TaskExecutor.AddIsItsSteps | src/core/implementation/task_executor.cpp:147-160 | an undisturbed add is the three critical sections of its thread in a row, and the notification |
| TaskExecutor.TerminateIsItsSteps | src/core/implementation/task_executor.cpp:50-62 | an undisturbed terminate is its steps |
| TaskExecutor.ResumeIsItsSteps | src/core/implementation/task_executor.cpp:65-75 | an undisturbed resume is its steps |
| TaskExecutor.StopIsItsSteps | src/core/implementation/task_executor.cpp:169-187 | an undisturbed stop is its steps |
| ExecutorProgress.MadeRunning | src/core/implementation/task_executor.cpp:50-75 | in every run a process that is resumed or terminated is running afterwards unless it had finished; no other process and no work flag changes |
| ExecutorProgress.ResumedIsRun | src/core/implementation/task_executor.cpp:65-75 | from any reachable state that is not stopped, resuming a suspended process of the ring and then the runner's own steps lead to a run of it |
| ExecutorProgress.TerminatedIsRun | src/core/implementation/task_executor.cpp:50-62 | so does terminating it, with its work flag cleared and the runner expecting it to finish |
| ExecutorProgress.AddedIsRun | src/core/implementation/task_executor.cpp:147-160 | so does adding a process |
| ExecutorProgress.StoppedComesOut | src/core/implementation/task_executor.cpp:169-187 | after a stop the runner leaves its loop by its own steps |
| ExecutorProgress.GoesToSleep | src/core/implementation/task_executor.cpp:283-358 | a runner whose coroutines all want to rest goes to sleep by its own steps |
| TaskExecutor.TaskExecutor.RunPass | src/core/implementation/task_executor.cpp:283-347 | one undisturbed pass runs each running process of the ring exactly once, in ring order; the finished ones leave the ring, and the flag tells whether one still runs |
| TaskExecutor.TurnsTakenOnce | src/core/implementation/task_executor.cpp:299-333 | the turns of a pass over distinct processes do not get into each other's way |
| TaskExecutor.PassIsItsSteps | src/core/implementation/task_executor.cpp:283-347 | a snapshot, then only steps of that pass, then its end: shared state, runs and flag are those RunPass gives |
| TaskExecutor.PassComesToItsEnd | src/core/implementation/task_executor.cpp:299-334 | from anywhere in an undisturbed pass its steps alone lead to its end |
| TaskExecutor.TaskExecutor.EraseFromRing | src/core/implementation/task_executor.cpp:339-347 | keeps the processes not to be removed, in ring order |
| TaskExecutor.KeptInParts | src/core/implementation/task_executor.cpp:339-347 | what is kept of the ring is what is kept of its parts, so it stays in its order |
| TaskExecutor.TaskExecutor.TryToLeaveWait | src/core/implementation/task_executor.cpp:349-358 | the wait ends exactly when stopped or asked to wake, and clears the flag only then |
| TaskExecutor.NoWakeUpIsLost | src/core/implementation/task_executor.cpp:283-371 | in every interleaving, while the runner is parked with the flag clear each running process of the ring has a thread about to run wakeUpScheduler; a sleeper that should wake is about to be notified |
| TaskExecutor.QuietSleep | src/core/implementation/task_executor.cpp:347-371 | with no thread inside add, resume, terminate or stop, a sleeping runner has only suspended processes and was not stopped |
| TaskExecutor.FinishedIsAbsorbing | src/core/implementation/task_executor.cpp:50-107 | no step of any thread takes a process out of Finished |
| TaskExecutor.FinishedForGood | src/core/implementation/task_executor.cpp:50-107 | nor does any continuation of a run |
| TaskExecutor.FinishedIsNeverRun | src/core/implementation/task_executor.cpp:283-345 | no finished process is in the ring between passes, a pass never meets one, so "Should not happen" is unreachable, and what is run is running |
| TaskExecutor.StopAssertion | src/core/implementation/task_executor.cpp:308-314 | the assertion after a run holds if and only if the coroutine finished or was not to be stopped, whatever other threads do in between |
| TaskExecutor.ObedientCoroutinesPass | src/core/implementation/task_executor.cpp:308-314 | whoever was told to stop by the time the runner asked still is when it runs, so coroutines that finish when they see it never break the assertion |
| TaskExecutor.EachRunOncePerPass | src/core/implementation/task_executor.cpp:287-334 | in every interleaving, between two snapshots each process is run at most once, in ring order |
| TaskExecutor.SnapshotHasNoRepeats | src/core/implementation/task_executor.cpp:287-293 | a pass works on the front of the ring, which has no process twice |
| SignalPostponer.SignalPostponer.Notify | src/core/implementation/signal_postponer.cpp:34-40 | restarts the laziness timer and starts the patience timer only if the former was idle |
| SignalPostponer.LazyConnect | src/core/signal_postponer.hpp:95-125 | the connection starts idle with the given delay and patience, by default 250 and 1000 |
| SignalPostponer.LogIsWhatHappened | src/core/signal_postponer.hpp:40-54 | every notification and every timeout is on the log with its time, and nothing else |
| SignalPostponer.BurstsAreAnswered | src/core/signal_postponer.hpp:40-54 | in every timed run each call answers exactly one burst, at min(first + patience, last + delay); the timers are active or idle together; no waiting burst is overdue |
| SignalPostponer.PendingIsTheBurst | src/core/signal_postponer.hpp:72-82 | a burst is the notifications since just after the previous call |
| SignalPostponer.EveryNotificationIsAnswered | src/core/signal_postponer.hpp:88-93 | every notification is followed by a call within the patience |
| SignalPostponer.CallsAreSpaced | src/core/signal_postponer.hpp:72-82 | calls are at least min(delay, patience) apart |
| SignalPostponer.SilenceEndsTheBurst | src/core/signal_postponer.hpp:40-54 | from any reachable state with a waiting burst, time and timeouts alone can go on and lead to the call at the due time |
| SignalBlocker.SignalBlocker.TryFire | src/core/implementation/signal_postponer.cpp:71-82 | fires if and only if unlocked and dirty, with a new locker, clean and locked |
| SignalBlocker.SignalBlocker.Unlock | src/core/implementation/signal_postponer.cpp:99-106 | unlocks and then tries to fire |
| SignalBlocker.LockedWhileHeldOrCooling | src/core/implementation/signal_postponer.cpp:62-106 | in every run at most one locker is alive; locked holds exactly while it is, or the timer runs or its start is queued, exclusively; unlocked implies clean; the assertions hold |
| SignalBlocker.CallsDoNotOverlap | src/core/signal_postponer.hpp:176-188 | between two calls the earlier one's locker was destroyed and the block time went by before the unlock |
| SignalBlocker.OneCallAfterUnlock | src/core/implementation/signal_postponer.cpp:99-106 | an unlock is followed at once by a call if and only if someone notified since the last call, however often |
| SignalBlocker.CallAtNotify | src/core/implementation/signal_postponer.cpp:62-82 | a notification calls the slot at once if and only if the blocker is free |
| SignalBlocker.NoCallUnasked | src/core/implementation/signal_postponer.cpp:71-82 | every call was asked for since the previous one, and made while free |
| BlockerProgress.EveryNotificationIsLogged | src/core/implementation/signal_postponer.cpp:62-68 | every notification is on the log with its time, and no other |
| BlockerProgress.LockerLivesWhileHeld | src/core/implementation/signal_postponer.cpp:85-96 | the locker lives exactly as long as one of its holders, counted by calls, copies and drops |
| BlockerProgress.LockComesToItsEnd | src/core/signal_postponer.hpp:176-188 | from any locked state, once emissions end and holders let go, the blocker is unlocked within the block time, and whoever notified meanwhile is answered by a call |
| TsQueue.TS_Queue.Push | src/core/ts_queue.hpp:87-91 | with room, the item goes to the end |
| TsQueue.TS_Queue.PushAtOnce | src/core/ts_queue.hpp:81-93 | an undisturbed push appends the item, or silently gives it up once the queue is stopped |
| TsQueue.TS_Queue.Pop | src/core/ts_queue.hpp:101-116 | the oldest item, or nothing when drained |
| TsQueue.TS_Queue.PopFor | src/core/ts_queue.hpp:125-140 | the oldest item, or nothing when there is none as the wait ends |
| TsQueue.FifoInEveryRun | src/core/ts_queue.hpp:81-140 | in every interleaving the limit holds, the queue is the newest of the pushed items, and consumers got the others in push order, save those cleared |
| TsQueue.PoppedThenQueued | src/core/ts_queue.hpp:81-116 | without clear, popped followed by queued is what was pushed |
| TsQueue.EmptyAnswer | src/core/ts_queue.hpp:189-198 | pop answers with nothing exactly when stopped and drained |
| TsQueue.ClearedAreLost | src/core/ts_queue.hpp:159-163 | clearing empties the queue, and exactly the items in it are never delivered |
| TsQueue.ProducerWaitsWhenFull | src/core/ts_queue.hpp:87-90 | in every run a producer inside push waits exactly while the queue is at its limit |
| TsQueue.ConsumerWaitsWhenEmpty | src/core/ts_queue.hpp:189-198 | a consumer waits exactly while the queue is empty and nobody has stopped it |
| TsQueue.PushedIsOffered | src/core/ts_queue.hpp:81-93 | the pushed items are those the producers came with before the stop, in the order of their pushes |
| AsyncDatabase.Executor.Begin | src/database/implementation/async_database.cpp:55-85 | with the queue stopped, the loop runs what is left in order and ends with it empty |
| AsyncDatabase.InOrderAndClosed | src/database/implementation/async_database.cpp:55-95 | in every interleaving queued tasks run in push order, and once the thread has ended the closing task ran exactly once |
| AsyncDatabase.AddedInsideIsRunAtOnce | src/database/implementation/async_database.cpp:235-246 | tasks added from the database's own thread are run on the spot, in order, within the task that adds them |
| AsyncDatabase.AllTasksRunAndCloseIsLast | src/database/implementation/async_database.cpp:281-296 | with nobody inside addTask as the stop begins, the ended thread ran every queued task once, in push order, the closing one last, and none was given up |
| AsyncDatabase.NoTaskVanishes | src/database/implementation/async_database.cpp:235-246 | in every run the added tasks, the closing one included, are those run, queued, held by threads inside addTask, and given up at the stopped test |
| AsyncDatabase.AllRunIff | src/database/implementation/async_database.cpp:281-296 | in a run whose database thread has ended, every added task was run if and only if no stopped test came after the stop, no push after the end, and nobody is inside addTask |
| AsyncDatabase.EndsDrained | src/database/implementation/async_database.cpp:55-85 | the thread ends only when all that was pushed has run; what is in the queue later was pushed later |
| AsyncDatabase.CloseIsRunLastIff | src/database/implementation/async_database.cpp:281-296 | the closing task is the last one run if and only if no thread pushes between its push and the thread's end |
| AsyncDatabase.ClosingComesToItsEnd | src/database/implementation/async_database.cpp:281-296 | from any reachable state in which closing has begun, the closing thread and the database thread alone come to the join, however full the queue |
| AsyncDatabase.TooLate | src/database/implementation/async_database.cpp:235-296 | a run in which a thread inside addTask pushes too late, and its task stays in the queue |
| AsyncDatabase.GivenUp | src/core/ts_queue.hpp:81-93 | a run in which a thread that called addTask in time comes to the stopped test too late, and its task is given up |
| ConfigStorage.Storage.Save | src/config_storage.cpp:43-66 | writes every entry in map order; nothing is left where another key leads further down, elsewhere the deepest key on the way decides the leaf, and there are no others; the assertion on the descent holds if and only if no such deepest value is in the way, which for plain values means prefix-free keys; for prefix-free keys the tree holds all leaves of all values |
| ConfigStorage.SavedAtItsPath | src/config_storage.cpp:53-57 | a key put together from components without a colon is saved at exactly the path of these components, unless another key goes on from it or it from another |
| ConfigStorage.WriteTo | src/config_storage.cpp:69-92 | writes one value, object or not, at its path, leaving everything beside the path alone, and says exactly when the assertion on the descent holds |
| ConfigStorage.ReadNode | src/config_storage.cpp:95-121 | every leaf of the tree that is not an object is read under its joined name, and nothing else; of leaves with the same name the first in member order is kept; its assertions hold if and only if there is no array and no null |
| ConfigStorage.SaveThenLoad | src/config_storage.cpp:43-121 | loading gives the saved map back if and only if no path is a prefix of another, no multi-component key starts with an empty one and no value is an object; with prefix-free keys all assertions hold if and only if no value has an array or a null in it, and without object values they fail for all other keys |
| ConfigStorage.DeeperIsLater | src/config_storage.cpp:53-57 | in the order of the map a key comes before every key that leads further down its path |
| ConfigStorage.SaveTwice | src/config_storage.cpp:51-57 | for prefix-free keys the tree is the same for any order of the entries |
| ConfigTree.TreesAgree | src/config_storage.cpp:69-92 | a tree is determined by the leaves at its paths |
| ConfigTree.JoinOfSplit | src/config_storage.cpp:53-57 | joining the parts of a split key gives the key |
| ConfigTree.SplitOfJoin | src/config_storage.cpp:55 | components without a colon, joined by separators, are what the key is cut into |
| ConfigTree.CutAtLeftmost | src/config_storage.cpp:55 | a key is cut at its leftmost separator, and what follows is cut in the same way |
| ConfigTree.NoSeparatorLeft | src/config_storage.cpp:55 | no part of a cut key has a separator in it |
| ConfigTree.FullNameIsJoin | src/config_storage.cpp:107 | a leaf is read under its names joined by separators, if the first is not empty |
| ConfigTree.EmptyHeadIsLost | src/config_storage.cpp:107 | a leading empty name is lost |

## Left out

- Library algorithms: `std::stable_sort`, `std::sort`, `set_difference`, `remove_if` and the like are modelled by what
  they promise or by a short functional equivalent; nothing is assumed of the order of ties after `std::sort`.
- SortActions.UnstableSort: promises a sorted permutation only, as `std::sort` does.
- Moves are copies: `remove_unique` is used on records without a move assignment.
- Integer width: ids, counters, flags and times are unbounded.
- InMemoryBackend.MemoryBackend.Update: requires the photos to be stored; the source has no defined behaviour for a
  missing one.
- Updating a row merges with the defaults only; the people of a photo are kept in their own table, not in the row.
- Fingerprints: the in-memory backend keeps none, so their ids are always invalid.
- Filters other than the hash ones, flag bits, tag listing, removal of photos, and reads that only look a value up:
  they would add easy members only.
- PhotoQueries.OnPhotos: leaves the order of ties open for the similar-photos filter, which sorts with `std::sort`.
- Strings hold Unicode scalar values; lone surrogates, which a QString may hold and UTF-8 cannot, are not modelled.
- Strings.StringLess: compares scalar values where QString compares UTF-16 code units; the two orders differ between
  U+E000 to U+FFFF and the characters above U+FFFF, in sorting by a tag and in the order of configuration keys.
- No operation of the in-memory backend reports a removal, so a commit with removals does not occur in the runs; what
  it does is said by Notifications.DeletionWins for any pending changes.
- The readable form of the log (`format`, names of tags, `QString::arg` with place markers inside values).
- ConfigStorage: the top-level values are not null, as the source asserts; JSON text, the file system and the
  conversion between QVariant and JSON are not modelled. After a failed assertion the model goes on as a build
  without assertions does.
- Re-entrant slots: a handler that calls back into the backend during commit or into the postponer during its call.
- SignalPostponer.BurstsAreAnswered: delay and patience stay as they were set before connecting, and timers go off
  in time on a discrete clock.
- SignalBlocker: destruction of the blocker while lockers are alive.
- TasksQueue.Queue.TaskFinished: the source counts the executing tasks only; which of them finishes is known to the
  record alone. The thread that waits for pending tasks, and other threads blocked on the recursive mutex, are not
  modelled.
- TasksQueue.Queue.Push: what a task makes happen while it is passed is fixed with the task, as its reaction.
- TaskExecutor: the pool of heavy tasks (`eat`), coroutines that resume themselves while running, and exceptions
  thrown by a coroutine.
- ExecutorProgress: progress is said of the runner's own steps; how long other threads may keep it from them is not.
- OperationEffects.AddedPhotoHasItsPeople: is about people named without an id, at places of their own, of one added
  photo; a person given by id may be renamed by a later one.
- TaskExecutor.TaskExecutor.RunPass: is about a pass no other thread interrupts; interleavings are the events of
  the runs.
- AsyncDatabase.Executor.Begin: is about a stopped queue; a thread that waits for tasks is covered by the runs.
- TsQueue: liveness of `stop` and of producers after `clear`, which the source does not promise: both notify
  without the waiter's mutex or not at all.
- TsQueue.TS_Queue.Push: the wait for room is a precondition; in runs a full queue delays the step.
- AsyncDatabase: the assertions in `addTask` and in the queue's push are not guards: a thread that fails them goes on,
  as in a build without assertions. Clients attaching and closing, whose test of the accept flag is outside the
  lock, are not modelled.
- SQL backends, GUI, plugins, media readers, face recognition and all input and output.
