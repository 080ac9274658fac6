# WisDB in Dafny

A model of WisDB, a small transactional storage engine, with proofs of what its parts promise.
`dafny verify dfyconfig.toml` checks everything.

The model follows the engine from the bottom up.

- **Pages, log and recovery.** `Bytes`, `LogRecords`, `DataItems` describe the stored forms. `Recovery` says
  what redo and undo make of pages and `RecoveryPass` holds the passes themselves. `LogFile` and `Logger` are
  the checksummed log file. `PageCaching`, `PageFetching` and `PageCacher` are the reference-counted cache, as
  runs and as objects that are proved to be where such a run leads.
  `PageIndex` and `Allocation` are the free-space index and the question who has which page. `DataRuns` puts
  these together: insertions and item changes of many clients, interleaved step by step, over pages in memory,
  pages on disk and the log. `DataGuarantees` draws the conclusions: the write-ahead rule, the refinement of a
  plain map, conservation of pages, and what survives a crash in any reachable state. `CacheRefinement` shows
  that the pages of the data manager are those of the cache, `DataTraces` where its log comes from. `DataManager` is the object used by one client.
- **Index.** `BLink` and `BLinkTree` describe a B-link tree of two levels and what every rewrite of a node
  keeps. `BLinkRuns` lets any number of inserters and scans walk it one node at a time. `BPlusTree` is the tree
  object and `NodeBytes` its nodes as bytes. `BLinkFates` says which pairs such a run stores, that walks come to
  an end, and where the separators go.
- **Transactions.** `LockGraph`, `LockRuns` and `LockTable` are the lock table with its deadlock detection.
  `Mvcc` and `MvccRuns` are visibility and the transaction steps, over whole runs, against an abstract database
  with snapshots; `SerializabilityManager` is the object, which carries that database as its history.
- **Queries.** `Fields` and `WhereClauses` compile conditions to key intervals, `TableSearch` compares the
  index with a full scan, `RowCodec` stores rows. `Lexer`, `Tokener`, `Parser`, `Grammar`,
  `Sentences`, `Leftovers` and `StatementParser` are the query language; `Sentences` says without the parser
  which texts it accepts.

Objects whose methods change fields are classes, and their methods are proved against functions on values;
the runs are folds of those functions over sequences of operations.

## Where the code departs from its intent

The model does what the code does. Each of these is stated by a lemma named in the table below.

- Commit leaves the transaction table, frees locks and marks the status in three actions. A repeatable-read
  transaction that begins between the first and the last keeps its snapshot exactly if the commit brings and
  takes away no row. A Delete that resumes between the second and the last on a row the commit has stamped
  loses an update.
- A read-committed transaction checks for no skipped version: its resumed Delete replaces a committed XMAX, and
  an update is lost, exactly if it finds one.
- A lock handed over is entered in one direction only: at the removal of its owner it is kept, while every lock
  acquired directly is released; and a deadlock among such owners is not seen.
- Removing a refused waiter from a queue ends only if it stands at the front; otherwise the call never returns.
- The split of an inner node is not reported upwards, so the tree never has more than two levels; searches stay
  right through sibling links.
- A search that starts exactly at a key that straddles a split misses the copies to the left.
- A free-space offset out of bounds is not repaired by recovery, although the comment in `pageX.go` says so.
- Undone transactions are marked aborted and their records stay in the log, so the next recovery redoes exactly
  those that are no longer active.
- The page index may select a page that is too small for 8161 to 8190 bytes, and only for these.
- The size of the log file is remembered from before its tail is cut.
- Only `<`, `=` and `>` are compiled to intervals, and a second condition is compiled for the first one's field.
- An index list that is not closed keeps the parser going for ever.
- A quoted empty token is taken for the end of the text, and something that is no token goes unnoticed behind a
  LIMIT; nothing else is accepted unread.

## Model

| member | source | states |
|---|---|---|
| `LockGraph.ScanEndsIff` | src/main/backend/sm/locktable/lock_table.go:181-194 | the removal loop, which never advances, ends if and only if the list is empty or the xid stands at its front |
| `LockGraph.RevisitHasCycle` | src/main/backend/sm/locktable/lock_table.go:74-91 | if following wait edges revisits an xid, some xid lies on a cycle of wait edges |
| `LockGraph.CycleRevisits` | src/main/backend/sm/locktable/lock_table.go:74-91 | conversely an xid on a cycle is revisited |
| `LockGraph.NoNewCycle` | src/main/backend/sm/locktable/lock_table.go:108-136 | if every edge of a new graph whose target still waits was an edge of the old one, an acyclic graph stays acyclic |
| `LockRuns.AddKeeps` | src/main/backend/sm/locktable/lock_table.go:42-72 | a request that comes back keeps the invariant: holdings point back to their holder, every waiter is queued once, with a channel, on an owned uid |
| `LockRuns.RefusedRestores` | src/main/backend/sm/locktable/lock_table.go:61-67 | a refused request leaves the table exactly as it was |
| `LockRuns.AddStuckIff` | src/main/backend/sm/locktable/lock_table.go:63-66 | a request never comes back if and only if the uid is owned by somebody else, somebody is queued for it and the new edge closes a cycle that is seen |
| `LockRuns.StuckRun` | src/main/backend/sm/locktable/lock_table.go:63-66 | a legal run that ends in a request which never comes back |
| `LockRuns.AddFrame` | src/main/backend/sm/locktable/lock_table.go:42-72 | no other xid gains or loses a lock or a wait through a request, and the caller gains at most the uid it asked for |
| `LockRuns.AddAnswer` | src/main/backend/sm/locktable/lock_table.go:42-72 | each answer told from the table: granted if the uid is free or held directly by the caller; else it waits if and only if nobody who holds a uid directly would then come to an xid twice along the wait edges, whatever the caller holds; refused if so and nobody is queued |
| `LockRuns.SelectNewShape` | src/main/backend/sm/locktable/lock_table.go:108-136 | under the invariant the first in the queue gets the uid; its assertions hold |
| `LockRuns.SelectNewKeeps` | src/main/backend/sm/locktable/lock_table.go:108-136 | a hand-over keeps the invariant when the released uid leaves its holder |
| `LockRuns.SelectNewAcyclic` | src/main/backend/sm/locktable/lock_table.go:108-136 | a hand-over creates no cycle |
| `LockRuns.RemoveKeeps` | src/main/backend/sm/locktable/lock_table.go:139-156 | removal keeps the invariant and acyclicity, takes nothing from any other xid, and whoever stops waiting now owns what it waited for |
| `LockRuns.RemoveHands` | src/main/backend/sm/locktable/lock_table.go:139-156 | every uid the removed xid holds directly goes to the head of its queue, who then waits no longer, or is free if nobody is queued |
| `LockRuns.RemovedOwnerLosesIff` | src/main/backend/sm/locktable/lock_table.go:123-129 | at its removal an owner loses a uid if and only if it acquired it directly and not by hand-over |
| `LockRuns.InvariantOverRuns` | src/main/backend/sm/locktable/lock_table.go:42-156 | the invariant holds after every run in which a waiting xid makes no calls and a removed one does not return |
| `LockRuns.OwnerStep` | src/main/backend/sm/locktable/lock_table.go:42-156 | a uid changes hands only when its owner is removed while holding it directly |
| `LockRuns.GrantedOnlyAfterRemoval` | src/main/backend/sm/locktable/lock_table.go:42-156 | mutual exclusion over runs: if an owner is no longer the owner, it has been removed in between |
| `LockRuns.HandedOverLockIsKept` | src/main/backend/sm/locktable/lock_table.go:123-129 | a lock obtained by hand-over stays with its owner for ever, even after the owner is removed |
| `LockRuns.AddKeepsAcyclic` | src/main/backend/sm/locktable/lock_table.go:60-71 | a request of an xid that already holds something directly keeps the graph acyclic |
| `LockRuns.AcyclicOverRuns` | src/main/backend/sm/locktable/lock_table.go:42-156 | in every run where each waiter had acquired some uid directly, the wait-for graph stays acyclic |
| `LockRuns.ClosingWaitIsSeenIff` | src/main/backend/sm/locktable/lock_table.go:60-72 | on an acyclic graph a request for an owned uid is turned down if and only if the owner of the uid is blocked by the caller and the caller by somebody who owns something directly |
| `LockRuns.UnseenDeadlock` | src/main/backend/sm/locktable/lock_table.go:96-104 | a reachable deadlock of two owners by hand-over that is not detected |
| `LockTable.Locks.Request` | src/main/backend/sm/locktable/lock_table.go:42-72 | the method computes the specified answer and table |
| `LockTable.Locks.Dfs` | src/main/backend/sm/locktable/lock_table.go:74-91 | the stamped search terminates and answers whether following the wait edges revisits an xid |
| `LockTable.Locks.HasDeadLock` | src/main/backend/sm/locktable/lock_table.go:93-106 | true if and only if a revisit is ahead of some directly owning xid |
| `LockTable.Locks.SelectNewXid` | src/main/backend/sm/locktable/lock_table.go:109-136 | the loop over the queue computes the specified hand-over |
| `LockTable.Locks.Drop` | src/main/backend/sm/locktable/lock_table.go:139-156 | the release loop computes the specified removal |
| `MvccRuns.StepInv` | src/main/backend/sm/serializability_manager.go:65-223 | every step of Begin, Insert, Delete (before and after the wait), Commit (three parts) and abort (two parts) keeps the invariant, but for a Begin at a level other than 0 beside a commit under way that inserts or deletes a row, and for a resumed Delete on a row stamped by a commit past its lock release or, at level 0, by a committed transaction |
| `MvccRuns.SnapshotIsolation` | src/main/backend/sm/visibility.go:55-77 | in every such run an active level-1 transaction sees exactly the rows committed at its Begin, minus those it deleted, plus those it inserted and did not delete, at every moment |
| `MvccRuns.BaseIsDatabaseAtBegin` | src/main/backend/sm/transaction.go:17-38 | what a transaction counts as committed before it is the database of its Begin, for good |
| `MvccRuns.BeginBases` | src/main/backend/sm/serializability_manager.go:175-186 | the snapshot taken at Begin separates exactly the committed rows of that moment |
| `MvccRuns.MarkedBefore` | src/main/backend/sm/serializability_manager.go:199-203 | a commit changes nothing about which rows were there when a running transaction began |
| `MvccRuns.ReadCommittedSeesDatabase` | src/main/backend/sm/visibility.go:31-53 | a level-0 transaction sees the database of the moment and its own rows: no dirty read |
| `MvccRuns.WakeReplacesDeadStamp` | src/main/backend/sm/serializability_manager.go:107-133 | the XMAX that a resumed Delete overwrites belongs to nobody who committed or still could |
| `MvccRuns.CommittedStampIsFinal` | src/main/backend/sm/serializability_manager.go:120-131 | once a row carries the XMAX of a committed transaction it never changes |
| `MvccRuns.NoLostUpdate` | src/main/backend/sm/serializability_manager.go:65-134 | no two committed transactions both deleted the same row |
| `MvccRuns.DeleteStampsIff` | src/main/backend/sm/serializability_manager.go:107-133 | in every disciplined run a Delete that has its lock, on a row the transaction has not deleted itself, stamps the row if and only if the transaction has level 0 or nobody who had not committed at its Begin has since committed a delete of the row; otherwise the transaction fails |
| `MvccRuns.LoneDelete` | src/main/backend/sm/serializability_manager.go:65-133 | a Delete of a visible row whose lock is free or the caller's own need not wait; it returns true, and the row is gone for its transaction, unless a committed transaction has deleted it, which only matters above level 0 |
| `MvccRuns.DeleteAnswers` | src/main/backend/sm/serializability_manager.go:65-104 | what the first half of a Delete comes to: nothing if the row cannot be seen, else the lock, a wait, a failure or a hanging call, each told from the lock table |
| `MvccRuns.EndFreesLocks` | src/main/backend/sm/serializability_manager.go:202-222 | the lock release of a commit or an abort: nothing is held directly any more, each such lock is with the head of its queue, who may resume, or free, and every other lock stays |
| `MvccRuns.EndedHoldsNothing` | src/main/backend/sm/serializability_manager.go:202-222 | in every disciplined run a transaction past its commit or abort holds no lock directly |
| `MvccRuns.CommitTakesEffect` | src/main/backend/sm/serializability_manager.go:188-207 | a transaction that has not failed can commit, and the database then has its inserts and lacks its deletes |
| `MvccRuns.AbortTakesEffect` | src/main/backend/sm/serializability_manager.go:209-223 | a transaction not yet aborted can abort; the database stays, its locks are freed, and nobody sees what it inserted |
| `MvccRuns.WakeGuardIsExact` | src/main/backend/sm/serializability_manager.go:107-131 | the excluded wake-ups are exactly those that replace the XMAX of a transaction which has committed or is past its lock release |
| `MvccRuns.UndisciplinedWakeLosesUpdate` | src/main/backend/sm/serializability_manager.go:107-131 | each of them, in whatever state, leads to two committed transactions that both deleted the row |
| `MvccRuns.CommittedStampReplacedIff` | src/main/backend/sm/visibility.go:12-20 | outside the window a resumed Delete replaces a committed XMAX if and only if the transaction has level 0 and the XMAX is a committed xid other than the super transaction |
| `MvccRuns.BeginGuardIsExact` | src/main/backend/sm/serializability_manager.go:175-203 | at a level other than 0, what the new transaction sees stays the same when any commit under way is completed, whether it has freed its locks or not, if and only if the Begin is not an excluded one |
| `MvccRuns.SnapshotBrokenInWindow` | src/main/backend/sm/serializability_manager.go:199-203 | a run from the start in which a row appears to a transaction that began beside its commit |
| `MvccRuns.LostUpdateInWindow` | src/main/backend/sm/serializability_manager.go:199-203 | a run from the start that reaches such a lost update |
| `MvccRuns.LostUpdateAtLevelZero` | src/main/backend/sm/visibility.go:12-20 | a run with undivided commits in which a level-0 transaction overwrites a committed XMAX and commits too |
| `SerializabilityManager.NewTransaction` | src/main/backend/sm/transaction.go:17-30 | the loop copies exactly the active transactions for levels other than 0 |
| `SerializabilityManager.Manager.BeginTxn` | src/main/backend/sm/serializability_manager.go:175-186 | the method performs the Begin step, and after a disciplined run the object is again where one leads |
| `SerializabilityManager.Manager.InsertRow` | src/main/backend/sm/serializability_manager.go:136-147 | the method performs the Insert step, or reports the failed transaction |
| `SerializabilityManager.Manager.ReadRow` | src/main/backend/sm/serializability_manager.go:149-173 | the row is returned exactly if it is visible and the transaction has not failed; after a disciplined run exactly if it is in the database of the Begin (at level 0: of the moment) or inserted by the transaction, and not deleted by it |
| `SerializabilityManager.Manager.DeleteBegin` | src/main/backend/sm/serializability_manager.go:65-104 | the part of Delete before the wait, with each of its answers |
| `SerializabilityManager.Manager.DeleteResume` | src/main/backend/sm/serializability_manager.go:107-133 | true exactly if the row is stamped anew; after a disciplined run, for a row the transaction has not deleted itself, exactly if it has level 0 or no committed transaction has deleted the row |
| `SerializabilityManager.Manager.Release` | src/main/backend/sm/serializability_manager.go:202-202 | the second part of Commit: every directly held lock is with the head of its queue, or free |
| `SerializabilityManager.Manager.Finish` | src/main/backend/sm/serializability_manager.go:217-222 | the part of abort behind the mutex: every directly held lock is with the head of its queue, or free, and the status is aborted |
| `BLink.PutSized` | src/main/backend/im/node.go:249-270 | nodes keep 63 or fewer keys, and 32 or more once their level has been split |
| `BLinkTree.LeafKeeps` | src/main/backend/im/node.go:188-270 | inserting into a leaf, with or without a split, keeps the tree in order |
| `BLinkTree.LeafPairs` | src/main/backend/im/node.go:216-247 | the chain of pairs gains exactly the new pair |
| `BLinkTree.NewLeafGuides` | src/main/backend/im/node.go:269-269 | the first key of a split-off leaf is a separator that may guide to it |
| `BLinkTree.InnerKeeps` | src/main/backend/im/node.go:238-245 | inserting a separator keeps the tree in order and leaves the pairs alone, though the split of an inner node goes unreported |
| `BLinkTree.RootKeeps` | src/main/backend/im/tree.go:88-99 | a new root over the old one and the split-off leaf keeps the tree in order |
| `BLinkTree.InnerLeads` | src/main/backend/im/node.go:238-245 | a separator that is taken up makes its leaf reachable from above, and no other leaf loses its fence |
| `BLinkTree.DescendInner` | src/main/backend/im/node.go:139-151 | descending leads to a leaf with nothing above the key before it |
| `BLinkTree.RightInner` | src/main/backend/im/tree.go:130-143 | moving right on the inner level is possible whenever a node does not know the way, for keys below INF |
| `BLinkTree.ScanMoves` | src/main/backend/im/tree.go:159-173 | reading a leaf and moving right keeps what the scan owes |
| `BLinkTree.ScanEnds` | src/main/backend/im/tree.go:168-170 | a scan that stops has read everything it owes |
| `BLinkRuns.StepKeeps` | src/main/backend/im/tree.go:130-257 | every step of any inserter or scan, one node at a time, keeps the tree and every other walker in order |
| `BLinkRuns.MoveIsEnabled` | src/main/backend/im/tree.go:130-257 | no walker is ever stopped: the node it is about to visit exists |
| `BLinkRuns.ConcurrentInserts` | src/main/backend/im/tree.go:178-257 | in every interleaving, with parent insertion or root replacement delayed or skipped, the leaf chain is sorted and holds exactly the inserted pairs |
| `BLinkRuns.ConcurrentScan` | src/main/backend/im/tree.go:149-176 | a finished scan holds no pair more often than the tree, only pairs in range in key order, every pair above its left bound that was there when it began, and the one at its left bound too if no two pairs with that key were inserted |
| `BLinkRuns.ScanBeginsWithContent` | src/main/backend/im/tree.go:149-176 | what a scan counts as its beginning is the content of the tree when it started |
| `BLinkRuns.EqualKeysAreMissed` | src/main/backend/im/node.go:146-146 | after 64 insertions of one pair a search starting at its key finds 32 of them |
| `BLinkFates.InsertsAreStored` | src/main/backend/im/tree.go:178-257 | in every interleaving the leaf chain holds exactly the pairs that inserters were sent out with and whose leaf step has ended with an address, once each |
| `BLinkFates.InsertionEndsOnce` | src/main/backend/im/tree.go:178-257 | an insertion ends once; until its walker is sent out again it inserts nothing |
| `BLinkFates.WalkersGetOn` | src/main/backend/im/tree.go:130-257 | every step of its own brings an inserter, a separator or a scan to the next stage, or leaves fewer nodes ahead of it in an unchanged tree |
| `BLinkFates.SeparatorsArrive` | src/main/backend/im/tree.go:191-238 | in every interleaving each leaf has a fence that leads to it, unless its separator is under way, or was given up, found no address, or came when the root was another one |
| `BPlusTree.Index.SearchNextFrom` | src/main/backend/im/tree.go:130-143 | the right-walk ends, and finds a way for every key below INF |
| `BPlusTree.Index.SearchLeaf` | src/main/backend/im/tree.go:109-127 | the leaf where a search begins: nothing above the key stands before it |
| `BPlusTree.Index.SearchRange` | src/main/backend/im/tree.go:149-176 | only pairs in range, in key order, none more often than in the tree, all pairs above the left bound, and those at the left bound exactly if none stands before the starting leaf, which holds if the key is there at most once |
| `BPlusTree.Index.ScanFrom` | src/main/backend/im/tree.go:157-175 | the loop over the leaves collects exactly what is owed |
| `BPlusTree.Index.InsertAndSplitLeaf` | src/main/backend/im/tree.go:241-257 | the pair is added, or nothing changes because a split found no address |
| `BPlusTree.Index.InsertAndSplitInner` | src/main/backend/im/tree.go:233-235 | the separator is added and the pairs stay |
| `BPlusTree.Index.Insert` | src/main/backend/im/tree.go:179-238 | the content gains exactly the pair, whatever becomes of the parent and the root; and when all is done no leaf is without a fence that was not so before |
| `BPlusTree.Index.ReplaceRoot` | src/main/backend/im/tree.go:88-99 | the new root leads to the leaf that was split off, and the content stays |
| `NodeBytes.LeafInsertRefines` | src/main/backend/im/node.go:232-236 | the byte-level insertion into a leaf is insertion into the sorted sequence |
| `NodeBytes.InnerInsertRefines` | src/main/backend/im/node.go:238-245 | the byte-level insertion into an inner node is the cutting of a fence |
| `NodeBytes.UpperHalfIs` | src/main/backend/im/node.go:254-259 | the new node of a split is the upper half |
| `NodeBytes.LowerHalfIs` | src/main/backend/im/node.go:266-267 | the old node is the lower half, linked to the new one |
| `NodeBytes.ShiftInPlace` | src/main/backend/im/node.go:81-87 | the shift loop moves every slot from kth on by one and nothing else |
| `NodeBytes.FindSlot` | src/main/backend/im/node.go:217-226 | the loop finds the first key not below the given one |
| `NodeBytes.Insert` | src/main/backend/im/node.go:216-247 | the node is the specified insertion, or unchanged if the key belongs further right |
| `NodeBytes.CopyUpper` | src/main/backend/im/node.go:254-259 | the copied bytes are the upper half |
| `NodeBytes.KeepLower` | src/main/backend/im/node.go:266-267 | the remaining bytes are the lower half |
| `NodeBytes.InsertAndSplit` | src/main/backend/im/node.go:188-214 | the verdict and both nodes as specified; a failed split restores the bytes exactly |
| `NodeBytes.SearchNextRaw` | src/main/backend/im/node.go:139-151 | the son with the first key above, or the sibling |
| `NodeBytes.LeafSearchRange` | src/main/backend/im/node.go:155-186 | the sons of the keys in range, and the sibling if the node ends first |
| `Bytes.ParsePut` | src/main/backend/utils/int_encoding.go:8-60 | a number written big-endian in its width is read back |
| `Bytes.PutParse` | src/main/backend/utils/int_encoding.go:8-60 | bytes read as a number are what writing it gives |
| `Bytes.PutDigit` | src/main/backend/utils/int_encoding.go:8-60 | the bytes are the base-256 digits, the most significant first |
| `LogRecords.AddressRoundTrip` | src/main/backend/dm/types.go:10-21 | page number and offset are recovered from the UUID |
| `LogRecords.DecodeEncode` | src/main/backend/dm/recovery.go:124-205 | every logged record is parsed as it was written |
| `Recovery.RecoveredItem` | src/main/backend/dm/recovery.go:22-224 | for a log whose updates start from the previous image and whose active writers are last, every item ends flagged if an active transaction inserted it, else with its last settled image, whatever the pages held and in whatever order transactions are undone |
| `Recovery.UndoLast` | src/main/backend/dm/recovery.go:111-121 | backwards undo leaves an item what the first record of its active writer says |
| `Recovery.RecoveredElsewhere` | src/main/backend/dm/pageX.go:59-91 | bytes outside all items are left alone |
| `Recovery.RecoveredFso` | src/main/backend/dm/pageX.go:73-91 | a free-space offset within bounds becomes the maximum of itself and the logged ends; one out of bounds is never repaired, contrary to the comment |
| `Recovery.RestartedRecovery` | src/main/backend/dm/recovery.go:22-59 | a recovery interrupted and started over gives the same items |
| `Recovery.SecondRecovery` | src/main/backend/dm/recovery.go:111-121 | since undone transactions are marked aborted and the log stays, at the next recovery an item is owed the same if its active writer is still active, and else that writer's last image |
| `Recovery.FlaggedInsertComesBackIff` | src/main/backend/dm/recovery.go:111-121 | an item flagged by recovery is valid after the next one if and only if its inserter is no longer active, whatever updates it has had |
| `Recovery.UndoneUpdateIsRedone` | src/main/backend/dm/recovery.go:111-121 | an undone update is redone by the next recovery exactly if its writer is no longer active |
| `RecoveryPass.MaxPgnoBounds` | src/main/backend/dm/recovery.go:27-48 | the page count is the largest page number in the log |
| `RecoveryPass.CollectActive` | src/main/backend/dm/recovery.go:88-109 | the cache holds the records of exactly the active transactions, in log order |
| `RecoveryPass.PageCache.RecoverUpdate` | src/main/backend/dm/pageX.go:59-62 | the bytes are put in place |
| `RecoveryPass.PageCache.RecoverInsert` | src/main/backend/dm/pageX.go:73-91 | the bytes are put in place and the offset is raised as specified |
| `RecoveryPass.PageCache.RedoTransactions` | src/main/backend/dm/recovery.go:61-84 | the pass applies the redo of every record of an inactive transaction, in order |
| `RecoveryPass.PageCache.UndoTransactions` | src/main/backend/dm/recovery.go:86-122 | the pass undoes the active transactions, each backwards, in some order, and marks just them aborted |
| `RecoveryPass.PageCache.Recover` | src/main/backend/dm/recovery.go:22-59 | the pages are those the specification gives for the resized file |
| `PageCaching.StepKeeps` | src/main/backend/utils/cacher/cacher.go:50-124 | every critical section keeps the cache invariant |
| `PageCaching.CountersCount` | src/main/backend/utils/cacher/cacher.go:50-124 | in every run count is cached plus loading entries and within its bound, and refs are the outstanding Gets |
| `PageCaching.HandlesAreShared` | src/main/backend/utils/cacher/cacher.go:50-124 | holders of a page share one handle; a handle is freed once, when nobody holds the page |
| `PageCaching.CacheIsTransparent` | src/main/backend/dm/pcacher/pcacher.go:101-166 | through the cache the file behaves as a plain page store, in every run |
| `PageCaching.HoldersSeeThePlainStore` | src/main/backend/dm/pcacher/pcacher.go:111-136 | whoever holds a page sees the contents a plain page store would have |
| `PageCaching.WrittenBackUnheld` | src/main/backend/dm/pcacher/pcacher.go:140-149 | an existing page is written back only by the release that leaves it unheld, with its current contents |
| `PageFetching.FetchMeans` | src/main/backend/utils/cacher/cacher.go:50-98 | Get gives the logical contents; it fails exactly for a full cache or a missing page, and then changes nothing |
| `PageFetching.FetchKeeps` | src/main/backend/utils/cacher/cacher.go:50-98 | Get as a whole keeps the cache invariant |
| `PageCacher.Cacher.Reserve` | src/main/backend/utils/cacher/cacher.go:50-79 | one turn of the loop in Get |
| `PageCacher.Cacher.Release` | src/main/backend/utils/cacher/cacher.go:110-124 | the last release writes a dirty page back and drops the entry |
| `PageCacher.Cacher.Get` | src/main/backend/utils/cacher/cacher.go:50-98 | reserving, loading and entering the page compose to the specified Get when nobody competes for it |
| `PageCacher.Pcacher.GetPage` | src/main/backend/dm/pcacher/pcacher.go:111-136 | the caller holds the page with the contents a plain page store has; it gets nothing exactly if the cache is full or the store has no such page, and then nothing changes |
| `PageCacher.Pcacher.ReleasePage` | src/main/backend/dm/pcacher/pcacher.go:140-153 | a caller that holds the page gives it back, and the plain store behind the cache stays as it is |
| `PageCacher.Pcacher.WritePage` | src/main/backend/dm/pcacher/page.go:49-55 | a holder's write changes that page of the plain store and not the file |
| `PageCacher.Pcacher.AddPage` | src/main/backend/dm/pcacher/pcacher.go:101-109 | the new page is one the plain store did not have |
| `PageCacher.FetchRuns` | src/main/backend/utils/cacher/cacher.go:50-98 | Get as one call is a few steps of the run behind the object, with its answer told from the plain store |
| `PageIndex.SelectMeans` | src/main/backend/dm/pindex/pindex.go:52-71 | one listed page is taken out, or no list from the start class on has one |
| `PageIndex.SelectFindsIff` | src/main/backend/dm/pindex/pindex.go:52-71 | a page is found if and only if some listed page has the next multiple of 204 above the size, or 8160; and it is of the lowest such class, and the oldest in it |
| `PageIndex.SelectFits` | src/main/backend/dm/pindex/pindex.go:56-59 | up to 8160 bytes the page found has the space, and below that strictly more |
| `PageIndex.AlwaysFitsIff` | src/main/backend/dm/pindex/pindex.go:52-71 | of all sizes up to 8190, every page found on any index has the space if and only if the size is at most 8160 |
| `PageIndex.SelectUndershoots` | src/main/backend/dm/pindex/pindex.go:56-59 | for every size from 8161 to 8190 some index yields a page that is too small |
| `PageIndex.AddMulti` | src/main/backend/dm/pindex/pindex.go:44-50 | exactly the given page is added to the lists |
| `PageIndex.Pindex.Take` | src/main/backend/dm/pindex/pindex.go:52-71 | the scan loop computes the specified selection |
| `Allocation.Conservation` | src/main/backend/dm/data_manager.go:168-228 | each data page is in exactly one place: listed once under its true free space, or with one insertion in flight |
| `Allocation.LoneInsertNotBusy` | src/main/backend/dm/data_manager.go:179-196 | without competition an insertion has its page after at most one new page |
| `Allocation.SeekFits` | src/main/backend/dm/data_manager.go:183-192 | the page an insertion holds has more than the space it needs |
| `DataItems.ReadWrap` | src/main/backend/dm/data_item.go:43-76 | a wrapped item is read back |
| `DataItems.ReadFlagged` | src/main/backend/dm/data_manager.go:230-244 | an item flagged invalid reads as nothing |
| `DataItems.PxInsertBytes` | src/main/backend/dm/pageX.go:45-51 | insertion puts the bytes at the free-space offset, moves it behind them and changes nothing else |
| `DataItems.InsertReadsBackIff` | src/main/backend/dm/pageX.go:45-51 | an insertion reads back if and only if the page had the room; otherwise the copy is cut off silently |
| `DataItems.ReplayItem` | src/main/backend/dm/recovery.go:134-147 | what the whole log makes of a page holds the last image of every item |
| `DataGuarantees.StepKeeps` | src/main/backend/dm/data_manager.go:168-253 | every step of any insertion or item change, failures included, keeps the data manager in order |
| `DataGuarantees.WriteAheadRule` | src/main/backend/dm/data_item.go:89-106 | in every reachable state a data page on disk is what a prefix of the log makes of an empty page, and an unheld page is what the whole log makes of it |
| `DataGuarantees.ReadsTheMap` | src/main/backend/dm/data_manager.go:230-244 | pages represent a plain map: every item reads as the map says |
| `DataGuarantees.ItemsAreApart` | src/main/backend/dm/data_manager.go:206-227 | items lie within their pages, behind the free-space offset, and do not overlap |
| `DataGuarantees.PagesAreConserved` | src/main/backend/dm/data_manager.go:168-228 | in every reachable state pages are neither lost nor handed out twice, and are listed with the space they really have |
| `DataGuarantees.ValKept` | src/main/backend/dm/data_item.go:89-106 | an item that nobody rewrites keeps its value, whatever else is inserted or changed |
| `DataGuarantees.InsertedReadsBack` | src/main/backend/dm/data_manager.go:168-244 | inserted data is read back at its address after any later operations that do not rewrite it |
| `DataGuarantees.CrashHolds` | src/main/backend/dm/recovery.go:26-51 | the log of any run is well formed, and recovery has the pages it needs |
| `DataGuarantees.CrashRecovers` | src/main/backend/dm/recovery.go:22-59 | after a crash in any reachable state recovery gives every logged item what it is owed |
| `DataGuarantees.FinishedWritesSurvive` | src/main/backend/dm/recovery.go:60-84 | an item that only finished transactions have written is read after recovery with the value it had, whether or not its page was written back |
| `DataGuarantees.UnfinishedInsertsVanish` | src/main/backend/dm/recovery.go:85-122 | an item inserted by a transaction active at the crash reads as nothing after recovery |
| `DataGuarantees.SecondRecoveryHidesIff` | src/main/backend/dm/recovery.go:85-122 | after a crash in any reachable state and two recoveries, an item of a transaction active at the crash reads as nothing if and only if that transaction is still active |
| `DataGuarantees.FreeSpaceIsRestored` | src/main/backend/dm/pageX.go:73-91 | recovery restores the free-space offset the log implies |
| `DataGuarantees.InsertionIsEnabled` | src/main/backend/dm/data_manager.go:183-227 | an insertion in flight can always take its next step, and a page it holds has the room |
| `DataGuarantees.LargeInsertReadsBackIff` | src/main/backend/dm/pageX.go:45-51 | in every reachable state an item above 8160 bytes, put on the page found for it, reads back if and only if the oldest page of the last list has room for it |
| `DataTraces.LogSaysWho` | src/main/backend/dm/data_manager.go:206-227 | in every run an insertion record has the xid and the wrapped data of an insertion that was begun, and an update record the xid of a change that was finished |
| `DataTraces.GivesUpIff` | src/main/backend/dm/data_manager.go:179-196 | in every run an insertion may give up if and only if five new pages of its own have gone to others |
| `CacheRefinement.CacheFollows` | src/main/backend/dm/pcacher/pcacher.go:111-153 | every step of the data manager, insertions and item changes alike, is a step or a few of its page cache, if that has a place for a page to be fetched: same pages, same file, same reference counts |
| `CacheRefinement.PagesAreCached` | src/main/backend/dm/pcacher/pcacher.go:140-153 | in every reachable state of the data manager its disk is the file of a page cache in some legal run, and a page is held exactly if the cache counts a reference; so that a page is written back when the last reference goes is the cache's doing |
| `CacheRefinement.DropDisk` | src/main/backend/utils/cacher/cacher.go:110-124 | the file gets a page just when its last reference goes, and then what is in memory |
| `DataManager.Store.Acquire` | src/main/backend/dm/data_manager.go:179-192 | the retry loop always ends with a page when nobody competes |
| `DataManager.Store.PutItem` | src/main/backend/dm/data_manager.go:206-227 | the item is logged, then put on the page, and the page is listed again |
| `DataManager.Store.Insert` | src/main/backend/dm/data_manager.go:168-228 | a new address now holds the data and all other items are as before, or the data is too large; never busy |
| `DataManager.Store.Read` | src/main/backend/dm/data_manager.go:230-244 | every item reads as last written |
| `LogFile.ChecksumAppend` | src/main/backend/dm/logger/logger.go:99-104 | the checksum of a concatenation continues that of the first part |
| `LogFile.ByteChangeIsSeen` | src/main/backend/dm/logger/logger.go:99-104 | changing a single byte always changes the checksum |
| `LogFile.ChangedRecordIsNotRead` | src/main/backend/dm/logger/logger.go:144-175 | a record with one byte of its payload changed is not read |
| `LogFile.ChangedLogOpensIff` | src/main/backend/dm/logger/logger.go:218-248 | a log with one byte of a payload changed is a bad log file, unless the records before it happen to have the checksum of all; then these are left |
| `LogFile.NextRecord` | src/main/backend/dm/logger/logger.go:144-175 | a whole record is read, whatever follows it |
| `LogFile.NextTorn` | src/main/backend/dm/logger/logger.go:144-175 | a proper prefix of a record is not read |
| `LogFile.LogKeepsForm` | src/main/backend/dm/logger/logger.go:106-131 | logging turns the file of some payloads into the file of one more |
| `LogFile.TornTailIsRemoved` | src/main/backend/dm/logger/logger.go:218-248 | under the old header any proper prefix of one more record is cut off, and the file is exactly the complete records |
| `LogFile.WholeFileOpens` | src/main/backend/dm/logger/logger.go:193-248 | a log that was closed in order opens unchanged |
| `LogFile.UnsealedRecordOpensIff` | src/main/backend/dm/logger/logger.go:113-120 | a record written before the header was replaced: the log opens if and only if the checksum happens to be the same, else it is a bad log file |
| `LogFile.NextAfterCutFailsIff` | src/main/backend/dm/logger/logger.go:144-155 | after a cut, reading on at the end is an error if and only if more than 8 bytes were cut |
| `LogFile.SessionsReadBack` | src/main/backend/dm/logger/logger.go:46-248 | whatever is logged over any number of openings, each followed by a torn prefix of one more record, is read back, all of it and in order |
| `Logger.Log.Append` | src/main/backend/dm/logger/logger.go:106-121 | the record is appended and the header replaced |
| `Logger.Log.Verify` | src/main/backend/dm/logger/logger.go:219-232 | the loop reads all records and their checksum |
| `Logger.Log.Init` | src/main/backend/dm/logger/logger.go:193-248 | the file is opened as specified |
| `WhereClauses.ExpPreserved` | src/main/backend/tbm/field.go:264-303 | for <, = and > on a number, a key is in the interval exactly if the row matches, also for empty and overflowing intervals |
| `WhereClauses.WherePreserved` | src/main/backend/tbm/table.go:370-400 | the intervals mean the clause with both conditions read on the first one's field |
| `WhereClauses.OneFieldPreserved` | src/main/backend/tbm/table.go:427-479 | on one field a key is in the intervals exactly if evaluateWhere accepts the row |
| `WhereClauses.CompiledRightIff` | src/main/backend/tbm/field.go:264-303 | a condition on a number field that compiles at all is compiled right for all rows if and only if its operator is <, = or >, or it is "at most 0" |
| `Fields.CompareIsOrder` | src/main/backend/tbm/field.go:228-259 | values of one kind are totally ordered: numbers as numbers, strings by their first difference |
| `WhereClauses.OperatorsAre` | src/main/backend/tbm/table.go:444-479 | on a row that can be tested the six operators mean what they say: = is equality, < and > are the order, and the others are their complements |
| `WhereClauses.OtherFieldIsMisread` | src/main/backend/tbm/table.go:380-387 | a clause over two fields that misses a row it should find |
| `WhereClauses.AndOfTwoFieldsRightIff` | src/main/backend/tbm/table.go:380-387 | for numbers and <, = or >, "and" over two fields is right for all rows if and only if the first condition cannot hold, or the second cannot hold on its field and the two have nothing in common on the first |
| `WhereClauses.OrOfTwoFieldsRightIff` | src/main/backend/tbm/table.go:380-387 | "or" over two fields is right for all rows if and only if the second condition cannot hold on its field and adds nothing on the first |
| `TableSearch.SearchIndex` | src/main/backend/tbm/table.go:347-365 | nothing outside the intervals is found, and everything inside, if no two rows share a left bound; it fails only for a left bound of INF |
| `TableSearch.FullScan` | src/main/backend/tbm/table.go:403-425 | every visible row that satisfies the clause, once |
| `TableSearch.IndexAgreesWithScan` | src/main/backend/tbm/table.go:319-366 | what the index finds, seen by a transaction, is the set of rows the full scan finds |
| `TableSearch.OrReportsTwiceIff` | src/main/backend/tbm/table.go:357-363 | the index reports a row twice exactly if both conditions of an "or" hold |
| `RowCodec.ValueRoundTrip` | src/main/backend/tbm/field.go:171-198 | a value is read back whatever follows it |
| `RowCodec.RowRoundTrip` | src/main/backend/tbm/table.go:642-658 | every row is read back from its stored form |
| `RowCodec.RowIsRead` | src/main/backend/tbm/table.go:650-658 | whatever bytes are read as a row, the row's stored form is those bytes |
| `RowCodec.WriteEntry` | src/main/backend/tbm/table.go:642-648 | the loop writes the specified bytes |
| `RowCodec.ReadEntry` | src/main/backend/tbm/table.go:650-658 | the loop reads the specified row |
| `Lexer.LexesBack` | src/main/backend/parser/tokener.go:69-131 | however tokens are quoted and spaced, they are read back |
| `Lexer.LexOne` | src/main/backend/parser/tokener.go:69-93 | every single character is a token, a blank, or neither, each named |
| `Tokener.Scanner.Peek` | src/main/backend/parser/tokener.go:25-41 | the next token, without taking it; an error sticks |
| `Tokener.Scanner.Pop` | src/main/backend/parser/tokener.go:44-46 | the peeked token is dropped; without one nothing happens |
| `Tokener.Scanner.NextToken` | src/main/backend/parser/tokener.go:69-93 | the three lexer states give the next token |
| `Tokener.Scanner.WordToken` | src/main/backend/parser/tokener.go:95-108 | the word in front |
| `Tokener.Scanner.QuotedToken` | src/main/backend/parser/tokener.go:110-131 | everything up to the same quote again |
| `Grammar.WhereBack` | src/main/backend/parser/parser.go:437-525 | a condition is parsed back, if nothing that belongs to it follows |
| `Grammar.RowsBack` | src/main/backend/parser/parser.go:218-265 | any number of bulk rows is parsed back |
| `Grammar.ReadBack` | src/main/backend/parser/parser.go:267-435 | a read statement is parsed back, written with read or select, with or without asc |
| `Grammar.CreateBack` | src/main/backend/parser/parser.go:559-660 | a create statement is parsed back, with or without a comma before the index list or an empty list |
| `Grammar.TokensBack` | src/main/backend/parser/parser.go:13-777 | every statement of the language is parsed back from its tokens, in every choice of the optional words, commas and lists |
| `Grammar.ParserRoundTrip` | src/main/backend/parser/syntax.txt:1-57 | however a statement is worded, quoted and spaced, its text is parsed back to it |
| `Grammar.EveryStatementHasAText` | src/main/backend/parser/syntax.txt:1-57 | every statement whose values do not hold both kinds of quotes has such a text |
| `Grammar.NumberBack` | src/main/backend/parser/parser.go:780-789 | a number below 2 to the 63 is read back from its digits |
| `Sentences.ParsedIff` | src/main/backend/parser/parser.go:13-777 | the parser accepts tokens as a statement if and only if they begin with a sentence of it, given word by word in one of its forms, and then end or stop where the parser takes them to end |
| `Sentences.TextIff` | src/main/backend/parser/parser.go:13-56 | the same for texts |
| `Sentences.OpIff` | src/main/backend/parser/parser.go:483-525 | the six operators and how each may be written |
| `Sentences.NumberIff` | src/main/backend/parser/parser.go:780-789 | digits stand for their decimal value in 64 bits, signed; nothing else is a number |
| `Grammar.ParseDivergesIff` | src/main/backend/parser/parser.go:637-650 | the parser comes back from every text but a create statement that is right up to an unclosed list of index names |
| `Leftovers.AcceptedUnreadIff` | src/main/backend/parser/parser.go:48-56 | a text is accepted although something is left unread if and only if a quoted empty token stands where the statement ends, or it is a read up to its limit (and offset) with something next that is no token |
| `Leftovers.BreaksOffIff` | src/main/backend/parser/parser.go:400-432 | a statement ends in front of something that is no token if and only if it is such a read |
| `Grammar.UnreadBehindEmptyToken` | src/main/backend/parser/parser.go:201-211 | a quoted empty token behind any statement hides everything after it |
| `Grammar.UnreadBehindLimit` | src/main/backend/parser/parser.go:418-431 | behind the limit of any read anything that is no token goes unnoticed |
| `Leftovers.CommitHidesDrop` | src/main/backend/parser/parser.go:48-56 | the text of a commit, an empty quoted token and the word drop is a commit |
| `Leftovers.LimitHidesJunk` | src/main/backend/parser/parser.go:418-431 | a read with a limit and a question mark behind it is the read |
| `StatementParser.ReadCondition` | src/main/backend/parser/parser.go:437-481 | the method parses a condition as specified |
| `StatementParser.ReadSingleExp` | src/main/backend/parser/parser.go:483-525 | the method parses a single comparison as specified |
| `StatementParser.ReadInsert` | src/main/backend/parser/parser.go:156-216 | the method parses an insert statement as specified |
| `StatementParser.ReadRows` | src/main/backend/parser/parser.go:218-265 | the loops parse bulk rows as specified |
| `StatementParser.ReadRead` | src/main/backend/parser/parser.go:267-359 | the method parses a read statement as specified |
| `StatementParser.ReadOrder` | src/main/backend/parser/parser.go:369-398 | the method parses ORDER BY as specified |
| `StatementParser.ReadLimit` | src/main/backend/parser/parser.go:400-432 | the method parses LIMIT and OFFSET as specified |
| `StatementParser.ReadCreate` | src/main/backend/parser/parser.go:559-660 | the method parses a create statement as specified |
| `StatementParser.ReadFieldList` | src/main/backend/parser/parser.go:579-627 | the field loop as specified |
| `StatementParser.ReadIndexList` | src/main/backend/parser/parser.go:637-650 | the index loop as specified, naming the case in which the original does not end |
| `StatementParser.ReadBegin` | src/main/backend/parser/parser.go:682-753 | the method parses a begin statement as specified |
| `StatementParser.ReadDelete` | src/main/backend/parser/parser.go:126-154 | the method parses a delete statement as specified |
| `StatementParser.ReadUpdate` | src/main/backend/parser/parser.go:70-124 | the method parses an update statement as specified |
| `StatementParser.ReadDrop` | src/main/backend/parser/parser.go:527-557 | the method parses a drop statement as specified |
| `StatementParser.ToNumber` | src/main/backend/parser/parser.go:780-789 | digit by digit, wrapping at 64 bits |
| `StatementParser.ParseText` | src/main/backend/parser/parser.go:13-56 | the whole parser as specified |

## Left out

- MvccRuns.StepInv: excludes the Begins and the wake-ups that do break isolation; `MvccRuns.BeginGuardIsExact`, `MvccRuns.WakeGuardIsExact` and `MvccRuns.UndisciplinedWakeLosesUpdate` show that these are all and only those.
- DataManager.Store.Insert: excludes, above 8160 bytes, a selection whose page is too small, since the item is then cut off; `DataGuarantees.LargeInsertReadsBackIff` says that exactly then the insertion does not read back.
- Grammar.ParserRoundTrip: names are letter-led words, values are not empty and no bare symbols, and ORDER BY and LIMIT go with at most one condition; what else the parser accepts, `Sentences.ParsedIff` says.
- WhereClauses.OneFieldPreserved: index ranges over strings have no order meaning, since strings are hashed to keys.
- TableSearch.SearchIndex: rows that share the key at a left bound may be missed, as `BPlusTree.Index.SearchRange` says exactly.
- Commit marks, XMIN and XMAX inside the bytes of a row: rows are pairs of transaction numbers in `Mvcc`, and their bytes are ordinary items in `DataRuns`.
- 64-bit wrap-around of transaction and page numbers, which needs more of them than can be handed out.
- Lock liveness, fairness and eventual wake-up: handed-over locks are never released by the code.
- Files as such: they are byte sequences and page maps, writes are atomic except for the torn log tail, and I/O errors appear only as failing page fetches and failing log writes of insertions.
- A failing log write of an item change, whose error the code drops.
- Close of the cache, which flushes held pages.
- Channels: a waiter is a member of a set, and its wake-up is a step that may come at any later time.
- Ordering, limiting and aggregating of results: a library sort and simple folds.
- Table chain, drop, boot file, and the lazy creation of the row index.
- The server, the client, the shell and the transport framing.
- The random check bytes of page 1, which decide whether recovery runs at all.
