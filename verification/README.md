# The relay's packet store, its compaction protocol and its limiters

The relay keeps, per account, one stream of numbered packets for each origin
device. It cannot read a packet. It accepts a packet only as the next counter of
its stream, serves pulls page by page, and deletes packets that a snapshot
upload declares redundant. The program runs its SQL statements one by one
without a transaction. Beside the store stand two in-memory limiters with
bounded maps.

This project models those parts and proves what they promise.

## How it is built

- `Tables`, `Pruning`, `Paging` and `Handlers` are the specification: a
  database as a value, each SQL statement as a function on it, what a prune
  removes and a pull returns without any order of iteration, and what one
  handler does when it runs alone. Their lemmas say what those functions mean.
- `Stores.Store` and `Servers.Server` are the objects, method by method, loops
  included. Each method is proved to compute the specification.
- `Statements` is the same program at the granularity of single statements: any
  number of uploads in flight, in any order, any of which may die between two
  statements; accounts and blobs come and go meanwhile. `Statements.Inv` is the
  program's unwritten argument for doing without transactions. `Interleaving`,
  `Compaction`, `LivePaging`, `Leaders`, `SnapshotFirst`, `Dangling` and
  `Overshoot` draw the consequences over whole runs; `WindowRun` is one such run.
  `Alone` connects the two granularities: an upload that nothing interleaves with
  does what its handler specification says.
- `Answers` says when each answer of an upload is given and what it means, and
  `Retries` what sending an upload again does. `References` is about how a recorded
  reference may go. `Accounts`, `Attachments` and `StreamTops` are about runs in which
  handlers take turns. `Walking` is a client's paging loop over a fixed store.
  `Migration` is about what opening a store leaves in it.
- `RateLimit` and `Backoffs` model the limiters as classes over a map, prove
  each method against a function on the map, and compare whole runs with ideal
  limiters that have room for every key. `Crowding` is about what a full map costs
  the backoff.

Some promises turned out not to hold as stated. The project shows an input that
fails each and says exactly when it holds:

- A comment in the schema says that a blob no stored packet declares is
  collected, which takes references to belong to stored packets. Re-sending a
  pruned slot records references for it again (`Attachments.WhenReferencesDangle`
  says exactly when, `Attachments.ResendingDangles` is such a run). And "stored
  packet, hence its blobs are stored" (go/internal/api/changes_handlers.go:133-135)
  holds while handlers take turns, but the check and the recording of a blob are
  separate statements: `Dangling.DanglesIff` says exactly when a reference is left
  to a blob that is gone, and `WindowRun.WindowRunDangles` is such a run.
- The quota is read and written apart, as the program says; `Overshoot` says how
  far uploads that overtake each other can go, and `Overshoot.TwoBlobsOvershoot`
  is a run that goes there.
- The rate limiter lets a key through when its map is full. That key pays for it
  later: it can be refused where a limiter with room for every key would allow
  it (`RateLimit.FailingOpenIsObservable`). `RateLimit.NeverStricterIff` says
  exactly when this cannot happen, and `RateLimit.LessThanOneTokenBehind` how
  far it can go.
- A pull reads its version vector and its rows in two statements, so a page that
  says there is no more speaks of the moment the vector was read
  (`LivePaging.NoMoreMeansAll`). `LivePaging.WhatTheLastPageMisses` is exact about
  what it may leave out, and `LivePaging.NewDeviceIsMissed` is such a run; nothing
  is left out if nothing happened in between (`LivePaging.NoMoreAtOnce`).

Where a document and the code differ, the code is followed.

## Model

| member | source | states |
|---|---|---|
| `Statements.StepKeepsInv` | go/internal/store/store.go:507-573 | Every event, a statement of any upload, a crash, a refusal, a blob upload, a new or deleted account, keeps the invariant that stands in for transactions: accepted counters of a live account's stream are exactly 1..mark, rows hold what was first accepted, and every upload in its prune has persisted the mark it is about to delete under |
| `Statements.DeleteKeepsMarks` | go/internal/store/store.go:727-747 | Once the mark is re-asserted at or above the cut, deleting at or below it changes no stream's mark |
| `Statements.NextRows` | go/internal/store/store.go:521-573 | One statement leaves each row's payload, hash and a set snapshot flag as they were; a row that is new is the uploader's own slot with its own bytes |
| `Interleaving.ReachableInv` | go/internal/store/store.go:507-547 | From an empty store, every interleaving and every crash point reaches only states satisfying that invariant |
| `Interleaving.AcceptedIsUpToMark` | go/internal/store/store.go:484-505 | In every reachable state the accepted counters of a stream are exactly 1..mark and the stored ones are among them |
| `Interleaving.MarkNeverFalls` | go/internal/store/store.go:674-684 | Over any run a stream's mark never falls while its account lives |
| `Interleaving.InsertedAtMostOnce` | go/internal/store/store.go:507-532 | No slot is inserted twice in a run, even after its packet was pruned |
| `Interleaving.OneUploaderCreates` | go/internal/api/changes_handlers.go:181-187 | Whoever stands answered 201 for a slot at one moment of a run and whoever does at any later moment are the same, dead or not in between, and the slot holds that uploader's bytes for as long as it is stored |
| `Interleaving.AnswersAreTrue` | go/internal/api/changes_handlers.go:162-187 | 200 and 201 are answered only for slots that were accepted |
| `Interleaving.SlotsAreWriteOnce` | go/internal/store/store.go:260-289 | Over any run, whatever is stored under an identity has the payload and hash of the first accepted upload, and a snapshot flag is never cleared while the packet is stored |
| `Interleaving.FlagsWereDeclared` | go/internal/store/store.go:561-572 | Over every run a stored packet is flagged as a snapshot only if some upload of its slot declared coverage |
| `Retries.AnswerTellsMark` | go/internal/store/store.go:493-514 | 201 exactly at the next counter, 200 at or below the mark, 409 beyond with the next counter expected; a mark moves with a 201 only, and a 409 changes nothing |
| `Retries.RetryChangesNothing` | go/internal/api/changes_handlers.go:169-187 | Past its checks, sending an answered upload again, declaration and blobs included, is answered 200 with nothing pruned and leaves the database as it is |
| `Retries.UploadAgain` | go/internal/api/changes_handlers.go:131-187 | So does the whole handler: an accepted upload sent again passes the missing-blob and storage checks, whatever the disk says by then, is answered 200 and changes nothing |
| `Retries.PruneTwice` | go/internal/store/store.go:705-766 | Repeating a prune changes nothing and reports nothing |
| `Answers.RefusedIff` | go/internal/api/limits.go:145-189 | An acceptable upload whose blobs are held is answered 507 if and only if it is the next of its stream and the disk refuses, or it would begin a stream and the version vector already has as many as the cap, or its payload exceeds the packet bytes its own prune will take away, from every stream it covers, and with them deducted still exceeds the quota |
| `Answers.CreditIsReclaimed` | go/internal/store/limits.go:22-46 | The credit a declaration earns is what the account will have lost in packet bytes, over all covered streams, once the upload is stored and pruned |
| `Answers.UploadAnswers` | go/internal/api/changes_handlers.go:103-187 | Each other answer exactly when: 413 by size, 400 by an empty payload or a counter below 1, 409 for blobs by one not held, and past those 200, 201 or 409 as the stream's mark decides; a refusal changes nothing |
| `Answers.InsertIs` | go/internal/store/store.go:521-573 | Everything storing a packet changes before any prune, table by table: a new slot's row, mark and references, a held slot's flag if coverage was declared and its references, and nothing else |
| `Answers.PrunedIsReported` | go/internal/api/changes_handlers.go:169-187 | The pruned object is present exactly when coverage was declared, and its numbers are what left the tables |
| `Answers.MissingInOrder` | go/internal/store/store.go:627-639 | The ids reported missing come in the order and as often as declared |
| `Answers.BlobAnswers` | go/internal/api/blobs_handlers.go:29-61 | Each answer exactly when: 201 if and only if the blob was not held and now is, with the bytes sent and nothing else changed; 200 if and only if the body is acceptable and the blob was held, whatever disk and quota say; 507 if and only if it is not held and the disk or the bytes forbid it |
| `Answers.BlobAgain` | go/internal/api/blobs_handlers.go:20-22 | An admitted blob sent again, with any bytes, is answered 200 and changes nothing |
| `Alone.AloneIsAtomic` | go/internal/api/changes_handlers.go:157-187 | An upload whose statements run without interleaving, in whatever order the declaration is walked, leaves the database and gives the answer, prune totals included, of the one-step specification |
| `Alone.AloneCompletes` | go/internal/store/store.go:705-766 | Such a run can always be completed, within a bound given by the declaration and the blobs |
| `Alone.AloneFromTheStart` | go/internal/api/changes_handlers.go:141-187 | From its blob check on: a lone upload not refused for storage does what the specification says if every declared blob is held, and otherwise changes nothing and names the first that is not |
| `Alone.StartCompletes` | go/internal/api/changes_handlers.go:141-187 | Such a run can always be completed too |
| `Alone.StepAlone` | go/internal/store/store.go:705-766 | Every statement of a lone upload keeps the relation between where it stands and where it began |
| `Compaction.CompactionLosesNothing` | go/internal/store/store.go:695-757 | If each slot's declaration is fixed and coverage is transitive, then in every reachable state, with statements interleaved, uploads dying and pruned slots re-sent, every accepted packet is stored or superseded by one that is |
| `Compaction.DeleteKeepsRepresented` | go/internal/store/store.go:709-747 | Deleting what an accepted packet supersedes leaves every packet represented, even when that packet is itself already gone |
| `Compaction.WhatAStatementDeletes` | go/internal/store/store.go:743-747 | Only one statement deletes packets, and all it deletes the upload's own packet supersedes |
| `LivePaging.PagingStrandsNothing` | go/internal/store/store.go:846-919 | Pages interleaved with single statements of any uploads and prunes: at every moment each stored packet above the client's starting vector was delivered exactly once, with the bytes first accepted, or is still above its vector |
| `LivePaging.NoMoreMeansAll` | go/internal/store/store.go:857-873 | A page without has_more leaves nothing undelivered of what was stored when the pull read its vector and still is |
| `LivePaging.WhatTheLastPageMisses` | go/internal/store/store.go:857-873 | Of everything stored when its rows are read, such a page leaves a packet undelivered if and only if it is above the client's vector and its device was not ahead when the vector was read |
| `LivePaging.MoreIsThere` | go/internal/store/store.go:902-907 | When a page says that there is more, a packet is stored that it did not deliver and that is still above the client's vector |
| `LivePaging.NewDeviceIsMissed` | go/internal/store/store.go:857-873 | Such a packet exists: a run in which a new device's first packet is stored between the two statements |
| `LivePaging.NoMoreAtOnce` | go/internal/store/store.go:900-918 | If the two statements of the pull see one database, it leaves nothing undelivered of what is stored at that moment |
| `Walking.Walk` | go/internal/api/api_test.go:932-949 | The client's loop over a fixed store ends, delivers every packet above its vector exactly once, ascending within each device, with its stored bytes, in at most n / limit + B / maxBytes + 1 pages |
| `Walking.OneStep` | go/internal/store/store.go:850-856 | A page that promises more strictly shrinks what is eligible; one that does not leaves nothing eligible |
| `Stores.Store.Pull` | go/internal/store/store.go:857-919 | The page is the longest prefix of the filtered total order within both bounds, and has_more says whether it is proper |
| `Servers.Server.PullPackets` | go/internal/api/changes_handlers.go:288-308 | A limit outside 1..1000 is refused; otherwise the page is the longest bounded prefix and is empty only when nothing is eligible |
| `Paging.SkippingLosesNothing` | go/internal/store/store.go:863-870 | Leaving out the devices whose vector entry is not ahead of the caller loses no row |
| `Paging.PageMakesProgress` | go/internal/store/store.go:850-856 | A page is not empty while something is eligible, and one that ends early is full in packets or in bytes |
| `Paging.PageStrandsNothing` | go/internal/store/store.go:885-893 | Raising the vector to the greatest counter of a page passes over exactly the packets the page holds, although hoisted streams are moved to the front |
| `Paging.AdvanceTakesMaximum` | go/internal/api/api_test.go:941-945 | The client's vector after a page is, per device, the greater of what it had and what it saw |
| `Paging.Ordered` | go/internal/store/store.go:892-893 | The ORDER BY is a total order on an account's rows: all rows, each once, hoisted streams first, then device, then counter |
| `Paging.PullOrder` | go/internal/store/store.go:876-893 | In a pull, by what is stored alone: every row of a device with a flagged eligible packet, wherever in its stream that lies, comes before every row of a device with none; otherwise devices ascend by their first differing character, a proper prefix first, and counters within a device |
| `Leaders.CompactionMakesLeader` | go/internal/store/store.go:561-572 | An upload run in one step that covers its own stream below itself, new or re-sent, leaves its packet flagged and the lowest stored of its stream if it is stored |
| `Leaders.AnsweredSnapshotLeads` | go/internal/store/store.go:709-745 | The same over every run of interleaved statements and crashes: at every moment after such an upload was answered 200 or 201, its packet leads its stream if it is stored |
| `Leaders.PruneCompletes` | go/internal/store/store.go:709-747 | Whichever statement of the prune comes next, once it has its own stream behind it nothing below the upload is stored there |
| `SnapshotFirst.LeaderComesFirst` | go/internal/store/store.go:879-893 | In any pull that selects such a packet, the rest of its stream and every stream the page does not hoist come after it |
| `SnapshotFirst.SnapshotArrivesFirst` | go/internal/store/store.go:876-893 | Across page boundaries, lost pulls and whatever happens between pages, a client below a leading snapshot, with no pull in progress that does not know of it, receives it before any other packet of its stream and of every stream without a flagged packet above the client's vector when a page is selected; the snapshot need only stay stored until it is delivered |
| `SnapshotFirst.CompactedArrivesFirst` | go/internal/store/store.go:879-893 | From any reachable state, with a client paging meanwhile: once an upload covering its own stream below itself is answered and its packet stored, a client below it receives it first in that sense |
| `Pruning.PruneBlastRadius` | go/internal/store/store.go:695-757 | A prune removes exactly the packets at or below their declared counter, never the authorising one, and keeps every other row, every stream's mark, and other accounts' blobs |
| `Pruning.PrunedRefs` | go/internal/store/store.go:740-754 | A prune releases exactly the references of covered slots, at or below the mark, in the streams that lose a packet |
| `Pruning.PrunedMarks` | go/internal/store/store.go:712-731 | It persists exactly the marks of the declared streams that ever held a packet and that the declaration reaches, and touches no other |
| `Pruning.PrunedBlobsAre` | go/internal/store/store.go:758-764 | It collects no blob if it removed no packet, and otherwise exactly the account's blobs that no remaining reference names |
| `Pruning.PruneTallyIsConservation` | go/internal/store/store.go:733-764 | The reported packets, bytes, blobs and blob bytes are exactly the differences between the tables before and after |
| `Pruning.DoomedIsCovered` | go/internal/store/store.go:724-726 | Clamping the cut to the mark changes nothing in what is deleted |
| `Pruning.CreditMatchesPrune` | go/internal/store/limits.go:22-46 | The credit computed before the snapshot's insert is the number of packet bytes the prune after the insert frees |
| `Stores.Store.PruneCovered` | go/internal/store/store.go:705-766 | The loop over the declaration, in any order, computes the order-free outcome and its totals |
| `Stores.Store.CoveredBytes` | go/internal/store/limits.go:27-46 | The loop's total is the bytes of the stored packets the declaration covers, each counted once |
| `Stores.Store.InsertPacket` | go/internal/store/store.go:521-573 | The statements together insert exactly at the next counter, record references for a new or held slot, adopt the snapshot flag for a held one, and do nothing past a gap |
| `Stores.Store.StreamMark` | go/internal/store/store.go:478-491 | The mark is the greatest of 0, the stored counters and the remembered mark |
| `Stores.Store.UserVector` | go/internal/store/store.go:448-472 | The vector has exactly the devices with a positive mark, each at its mark |
| `Stores.Store.StreamCounter` | go/internal/store/admin.go:97-105 | The dashboard's counter is the stream's mark |
| `Stores.Store.StreamCount` | go/internal/store/limits.go:48-61 | The union loop counts the devices with a remembered or stored counter, which is as many as the version vector lists |
| `Stores.Store.UserStorageBytes` | go/internal/store/limits.go:12-20 | The sum is the account's packet bytes plus its blob bytes |
| `Stores.Store.StreamHashes` | go/internal/store/store.go:267-289 | The answer has exactly the stored, hashed counters of the range, each with its row's hash |
| `Stores.Store.MissingBlobs` | go/internal/store/store.go:627-639 | The answer lists, in order, exactly the ids not held |
| `Stores.Store.CollectBlobs` | go/internal/store/store.go:643-662 | Exactly the blobs no reference names go, and the counts are theirs |
| `Stores.Store.DeleteUser` | go/internal/store/admin.go:157-190 | Every row of the account goes, blobs and references by cascade, and no other |
| `Stores.Store.BackfillHashes` | go/internal/store/store.go:212-250 | The batched loop ends with every packet hashed and hashed rows as they were |
| `Stores.Store.Migrate` | go/internal/store/store.go:191-207 | Backfill and seeding together compute the migrated database |
| `Migration.MigrationKeepsMarks` | go/internal/store/store.go:195-207 | Migration changes no stream's effective mark |
| `Migration.MigrationKeepsPackets` | go/internal/store/store.go:176-193 | Every packet keeps payload, flag and an existing hash, and an unhashed one gets its payload's hash |
| `Migration.MigrationSeedsMarks` | go/internal/store/store.go:195-206 | Every stored counter ends at or below a remembered mark, no remembered mark falls, and no mark is made for a stream without packets |
| `Migration.MigrationIsIdempotent` | go/internal/store/store.go:154-156 | Migrating again changes nothing |
| `Migration.BackfillResumes` | go/internal/store/store.go:242-248 | A backfill that stopped after any of its writes is completed by the next to the same database |
| `Servers.Server.UploadPacket` | go/internal/api/changes_handlers.go:105-187 | The checks in their order, the insert and the prune together compute the specified database and answer |
| `Servers.Server.CheckPacketStorage` | go/internal/api/limits.go:153-189 | An upload is refused exactly when it would take a slot and the disk, the stream cap or the quota net of credit forbids it |
| `Servers.Server.CheckBlobStorage` | go/internal/api/limits.go:193-206 | A held blob passes; a new one needs disk and quota |
| `Servers.Server.PutBlob` | go/internal/api/blobs_handlers.go:29-61 | The handler stores a new admitted blob, leaves a held one as it is, and answers which |
| `Accounts.RunRespectsQuota` | go/internal/api/limits.go:145-189 | Over any run of handlers under a quota, an account's bytes never end a handler above the greater of where it began and the quota |
| `Accounts.UploadRespectsQuota` | go/internal/api/changes_handlers.go:153-179 | So for one upload, credit and prune included, for the uploader's and every other account |
| `Accounts.SnapshotPassesAboveQuota` | go/internal/api/limits.go:149-152 | Between its insert and its prune a snapshot may stand above the quota: a concrete account and upload |
| `Accounts.StoredBytes` | go/internal/api/changes_handlers.go:157-179 | Past its checks, an upload changes the bytes of its own account by exactly its payload, if it was inserted, less the packet and blob bytes its prune reports, and no other account's |
| `Overshoot.OvershootIsBounded` | go/internal/api/limits.go:145-189 | Packet and blob uploads reading, deciding and writing in separate statements, interleaved and dying anywhere: an account exceeds its quota by at most what has been charged since it last stood within it, the full size for each packet or blob that was overtaken by another addition between its first read and its write, at most the credit it was given for any other packet, and nothing for any other blob, unless it was held when looked for |
| `Overshoot.WhoGoesOver` | go/internal/api/limits.go:191-241 | Whatever takes an account over its quota, or further over, was overtaken, or had been given positive credit at its check, or is a blob that was held when it was looked for and collected before it was put |
| `Overshoot.TwoBlobsOvershoot` | go/internal/api/blobs_handlers.go:49-52 | Two blobs, each the size of the quota, put after both read an empty account: the account ends at twice its quota, exactly as far over as the bound allows |
| `Attachments.RunKeepsRefs` | go/internal/api/changes_handlers.go:133-151 | Over any run of handlers every recorded reference resolves to a held blob |
| `Attachments.SurvivorsKeepBlobs` | go/internal/store/store.go:748-764 | A prune leaves a surviving packet its references and the blobs they name |
| `Attachments.PruneLeavesNamedBlobs` | go/internal/store/store.go:641-662 | A prune that removed a packet leaves of the account exactly the blobs some remaining reference names |
| `Attachments.NothingMissing` | go/internal/store/store.go:625-639 | Nothing is reported missing exactly when every declared blob is held |
| `Attachments.WhenReferencesDangle` | go/internal/store/store.go:556-560 | An upload leaves every reference with a stored packet if and only if it does not re-send, with blobs, a slot that was pruned |
| `Attachments.ResendingDangles` | go/internal/store/store.go:556-560 | A run of handlers from an empty store, every upload passing its checks, that ends with such a reference: packet, snapshot, blob, packet again |
| `Dangling.DanglesIff` | go/internal/api/changes_handlers.go:141-157 | Over every run of interleaved statements, a recorded reference names a blob that is not held if and only if an upload found the blob, then a prune of the account collected it, then the upload recorded the reference, and nobody has put the blob again |
| `Dangling.LostSince` | go/internal/store/store.go:655-660 | A blob that was held and is not, of an account that lives on, was collected by a prune of that account and not put again |
| `Dangling.FoundBefore` | go/internal/store/store.go:627-639 | An upload past its check of a declared blob found that blob held when it looked |
| `References.HowRefsGo` | go/internal/store/store.go:748-754 | Over every event, a reference leaves if and only if a prune releases its own stream at or above its counter or its own account is removed |
| `References.StoredKeepsRefs` | go/internal/store/store.go:748-754 | Over every run, a recorded reference of a stored packet stays for as long as the packet does |
| `References.AnsweredIsReferenced` | go/internal/store/store.go:516-520 | In every reachable state, whoever stands answered 200 or 201 has every blob it declared recorded for its packet, if that is stored |
| `References.RemovalSparesOthers` | go/internal/store/admin.go:157-190 | Removing an account removes its rows in every table and leaves every other account's rows, and which of its blobs nothing names, as they were |
| `WindowRun.WindowRunDangles` | go/internal/api/changes_handlers.go:141-157 | Such a run, statement by statement, from an empty relay |
| `StreamTops.ViewsAgree` | go/internal/store/store.go:441-491 | The vector, the marks and the stream count describe the same streams with the same tops |
| `StreamTops.PruneKeepsStreams` | go/internal/store/store.go:719-723 | A prune neither creates nor loses a stream, whatever devices it names |
| `StreamTops.RunRespectsCap` | go/internal/api/limits.go:168-179 | Over any run of handlers no account exceeds the cap on its streams |
| `RateLimit.Rate.Allow` | go/internal/limit/limit.go:44-71 | The method gives the answer and leaves the map of the bounded limiter |
| `RateLimit.Rate.Sweep` | go/internal/limit/limit.go:75-81 | Exactly the buckets that have refilled completely go |
| `RateLimit.SweepIsUnobservable` | go/internal/limit/limit.go:73-74 | After a sweep every key can spend, at every later time, what it could have spent without it |
| `RateLimit.BoundedIsIdeal` | go/internal/limit/limit.go:44-71 | A key that has not failed open gets the ideal limiter's answers and waits, whatever was swept and whatever other keys did |
| `RateLimit.NeverStricterIff` | go/internal/limit/limit.go:51-58 | The limiter refuses nothing the ideal one would allow, on all runs over given keys, if and only if there are no more keys than it has room for or it is disabled |
| `RateLimit.FailingOpenIsObservable` | go/internal/limit/limit.go:55-57 | For every enabled limiter and more keys than it has room for, a run on which a key that failed open is refused where the ideal limiter allows |
| `RateLimit.LessThanOneTokenBehind` | go/internal/limit/limit.go:44-71 | On every run, failing open included, no key is ever a whole token behind the ideal limiter |
| `RateLimit.GrantsAtLeastIdeal` | go/internal/limit/limit.go:51-67 | At every point of every run each key has been granted at least as many requests as by the ideal limiter |
| `RateLimit.MemoryIsBounded` | go/internal/limit/limit.go:16-17 | The map never holds more than maxKeys buckets |
| `RateLimit.FailsOpenOnlyWhenFull` | go/internal/limit/limit.go:51-58 | A request fails open only if maxKeys other keys have each made one within the last minute |
| `RateLimit.RunIsSound` | go/internal/limit/limit.go:62-66 | On every run tokens stay between 0 and the burst |
| `RateLimit.WindowBound` | go/internal/limit/limit.go:19-20 | In any window in which it does not fail open itself, a key is granted at most perMinute requests and perMinute more a minute, whatever befalls other keys |
| `RateLimit.BucketIsWindow` | go/internal/limit/limit.go:19-20 | The limiter without its buckets: a request of a key that never failed open is granted if and only if no window from one of the key's requests to this one would hold more than perMinute requests and perMinute more a minute |
| `RateLimit.RefusalTellsWhen` | go/internal/limit/limit.go:69-70 | After a refusal the key stays refused before the told wait and is allowed one nanosecond after it, if nothing was granted to it meanwhile |
| `Backoffs.Backoff.Wait` | go/internal/limit/limit.go:109-125 | The method gives the specified wait and forgets a quiet key |
| `Backoffs.Backoff.Fail` | go/internal/limit/limit.go:127-151 | The method records the failure, restarting a quiet key, sweeping for a new one, or dropping it when there is no room |
| `Backoffs.ShiftExactIff` | go/internal/limit/limit.go:144-149 | The guarded int64 shift is doubling up to max, for every count, if and only if base·2^30 < 2^63 and base·2^31 >= max |
| `Backoffs.LoginShiftIsSafe` | go/internal/api/limits.go:28-33 | The login constants satisfy that, and max <= forget |
| `Backoffs.NeverLonger` | go/internal/limit/limit.go:109-151 | On no run is a wait longer than that of a backoff with room for every key and no forgetting in Wait |
| `Backoffs.SameWait` | go/internal/limit/limit.go:109-166 | The waits are equal when no failure of the key was dropped and max <= forget + 1 |
| `Backoffs.ForgettingHarmlessIff` | go/internal/limit/limit.go:117-124 | No run forgets a pending wait if and only if max <= forget + 1 nanosecond |
| `Backoffs.MemoryIsBounded` | go/internal/limit/limit.go:132-141 | The map never holds more than maxKeys entries |
| `Backoffs.WaitDoubles` | go/internal/limit/limit.go:109-151 | The wait of a key that has failed n times without a break: none while failures are free, then base, doubling with each up to max, counted from its last failure |
| `Backoffs.SuccessClears` | go/internal/limit/limit.go:153-158 | A success ends the key's wait at once and touches no other key's |
| `Backoffs.AskingForgetsQuiet` | go/internal/limit/limit.go:117-120 | Asking drops the key's entry exactly when it has been quiet for longer than forget, and no other |
| `Crowding.UnrecordedOnlyWhenFull` | go/internal/limit/limit.go:132-138 | Over every run a failure goes unrecorded only if maxKeys other keys have each failed within forget before it |
| `Crowding.AlwaysSameIff` | go/internal/limit/limit.go:127-151 | With max at most forget + 1, all runs over given keys show the ideal waits if and only if there are no more keys than the map has room for or max is 0 |
| `Backoffs.SlowsGuessing` | go/internal/limit/limit.go:83-88 | n failures of a key, each after a zero wait, with no success, forgetting or drop, take at least the sum of the first n-1-free doubling waits |
| `Backoffs.LoginGuessesAreSlow` | go/internal/api/limits.go:26-33 | With the login constants fifteen guesses take at least 511 s and each further one 300 s more |

## Left out

- LivePaging.NoMoreMeansAll: speaks of the moment at which the pull read its
  vector, because a device first heard of between its two statements is not
  selected; `LivePaging.WhatTheLastPageMisses` is exact.
- HTTP routing, JSON and header parsing, error texts, JWT, bcrypt and its slots,
  registration, login, device management, client addresses, the clamp of the hash
  range, configuration, the dashboard: requests arrive decoded and authenticated.
- `Handlers.Missing` and `Statements.Next` differ on the answer for missing blobs:
  a handler lists all of them, an upload of single statements answers with the first.
- The storage checks at statement granularity: there an upload may be refused at
  its check for no stated reason. `Overshoot` takes the check's reads, mark,
  covered bytes device by device and account size, as made at positions of the run
  of their own. The stream cap is proved for handlers that take turns.
- Free disk space is an input (`diskOk`), as is the time of each limiter call,
  which never goes back.
- SQL errors and cancelled requests appear only as an upload that dies; a handler
  alone never meets one.
- Adding the two columns to an old schema; `stored_at` and row ids; usage reports.
- int64: counters, byte totals and times do not overflow. The one shift that can
  overflow is modelled on 64 bits.
- Floating point: `RateLimit` computes with reals, so rounding of tokens and waits
  is not captured. Rates are below one request per nanosecond in
  `RateLimit.NeverStricterIff`.
- SHA-256 is any function from payloads to non-empty strings.
- Buckets and failure entries are values in a map that the methods replace; the
  program updates them through pointers under a lock held for the whole call.
- Calls into the limiters are serialised by their locks and modelled as steps.
- Account ids are never used twice at statement granularity; the handler runs
  allow it.
- Prune totals are proved for a prune that nothing interleaves with; interleaved
  prunes may count the same packet twice, since the count and the delete are
  separate statements.
- GetBlob, the admin listings other than the stream counter, and retrieval of
  usage: reads with no property beyond their query.
