# MailSwiftSync: verified models of its core protocols

This project models the parts of MailSwiftSync whose correctness is hardest to see from the code, and proves
what they promise.

**Verification of a migration.** After a migration the program reads every folder of the source and of the
destination over IMAP and compares them. The servers may change at any moment, the connection may fail, and the
controller may be killed. `ImapServer` models both servers as one world driven by an arbitrary script: between any
two commands other clients may append, expunge, store flags, hide, show, delete or recreate folders; a session is
told of any lawful selection of these changes at any time; a command may be refused or be the moment at which the
controller dies; replies and records may be incomplete. A folder obeys the UID and UIDVALIDITY rules of section
2.3.1.1 of RFC 3501 and the mod-sequence rules of sections 3.1.2.1 and 3.1.2.2 of RFC 7162, and its mod-sequence
counts flag changes also while it is not advertised; nothing else is assumed. A folder whose FETCH records never lack
an item is marked as thorough, and what holds only for such folders says so. A statement about every script is a
statement about every interleaving. The server carries a ghost chronicle of all worlds of its run, and certificates,
listings and windows are moments of that chronicle, so contracts speak of worlds that occurred. It also counts the
sessions, the SELECT commands, the positions listed, the messages fetched and the commands refused, and records each
folder scan with its end and whether anything disturbed it, so statements about effort and retries speak of what was
really done. On top of it:

- `UidPages`: enumeration by sequence numbers, the adaptive page planner, the compact UID-set encoder.
- `MessageStage`: the durable stage (rows and cursor of each folder) and the invariant that survives crashes.
- `MessageSink`, `StateBudget`: the counters of a scan, and the byte budget shared by both sides.
- `MailboxScan`: one scan of one folder. `AccountScan`: retries, rollbacks, reconnects, a whole account.
- `Verification`: the double collect over both accounts, and verification runs restarted over one stage.

**The migration supervisor** (`Supervisor`): round-robin choice of projects with exponential backoff.

**Two small protocols**: crash-safe publication of artifacts over a file system that may lose unsynced work
(`AtomicArtifact`), and the non-blocking diagnostic queue between producers and one writer (`DiagnosticQueue`).

**Parsers, printers and refinements**: the shell-word parser and the quoter it undoes (`ShellWords`), the
canonical form of expert options (`ExtraOptions`), the bounded line buffer (`BoundedLines`), removal of credential
placeholders (`Placeholders`), endpoint hosts (`Endpoint`), the imapsync argument vector (`EngineArgs`), what the
engine reads in it (`EngineMeaning`), and the agreement of its preview with its launch form (`PreviewAgreement`).

`Collections`, `Decimal` and `Text` hold shared vocabulary: sums over maps, sorted UID sequences, machine words,
decimal text, UTF-8 lengths and character classes.

## Main results

- A good end of a folder scan means that the staged rows are those of the server's folder at the closing SELECT: one
  row for each message, holding what its record reported, none of it wrong, for every interleaving
  (`MailboxScan.FetchMailbox`). The rows are the whole content if and only if no record left an item out, which for
  a thorough folder is always so (`MessageStage.WholeExactly`). Flags are staged only if the session asked for
  mod-sequences and the folder keeps them. Conversely an undisturbed scan within the limits always ends well.
- An undisturbed scan of a whole account and an undisturbed verification run within the limits always end well
  (`AccountScan.FetchAccount`, `Verification.VerifyPair`), so the guarantees below are attainable.
- What a scan staged and what a resumed or reused scan staged is the same if and only if the server reported the same
  items both times, and always for a thorough folder (`MailboxScan.ResumedEqualsFresh`); no number of crashes makes a
  stage untrustworthy (`Verification.VerifyWithRestarts`).
- If a verification run succeeds, then at every world of the run from the end of its scans to the recheck of the
  destination both accounts at once held exactly their staged messages, and the staged folders are those listed at
  named moments of the run (`Verification.VerifyPair`, and over restarts `Verification.VerifyWithRestarts`).
- Publication is crash-safe over all histories of writes and power losses exactly for artifacts whose names do not
  look like temporaries (`AtomicArtifact.GuardIsExact`).
- However an account scan ends, it opened at most 1 + 3 x (good folders + 1) sessions, made at most two scans for each
  visited folder and each reconnect and sent at most two SELECTs for each scan; the folders that its error names are
  clean, and the error counts them all (`AccountScan.FetchAccount`).
- A folder is scanned a second time exactly when the first scan found it changed and its rows could be removed; the
  end of the last scan decides, and a scan that nothing disturbs ends well. A lost session is reopened up to three
  times in a row (`AccountScan.FetchWithStabilityRetry`, `AccountScan.FetchWithSessionReconnect`).
- Nothing that a durable stage holds of a tracked folder is fetched again while the folder shows the same snapshot,
  whether its scan was completed or cut off after a page; an undisturbed account scan lists and fetches exactly the
  rest, and right after a complete one that is nothing (`MessageStage.NothingIsWasted`, `AccountScan.FetchAccount`,
  `AccountScan.RescanIsFree`).
- The turns of the supervisor are determined, without its counters and tables, by what it polls: it serves the first
  project of the round that has rested min(base x 2^(k-1), one hour) since the k-th failure in a row, waiting is
  bounded, and it stops exactly at a broken ledger or when the idle turns since the last pass reach a positive limit
  (`Supervisor.Supervise`, `Supervisor.RulesDetermineTurns`, `Supervisor.BoundedWaiting`).
- Over all interleavings of the diagnostic queue nothing accepted is lost, bytes and lines are accounted for, and
  each Finish gets its own reply, which is a count exactly when its flush worked; a writer that goes on handles all
  (`DiagnosticQueue.Queue.Interleave`, `DiagnosticQueue.FinishIsAnswered`).
- Read by the engine's rules, a launched command line asks for exactly what the profile wants: every option has its
  wanted values and no others, it is a dry run exactly when a rehearsal is meant, and it deletes exactly when the
  profile says so (`EngineMeaning.PlanMeans`, `EngineMeaning.OnlyRehearsalsAreDry`).
- The preview without placeholders is the launched vector exactly when neither user is named like a credential
  option (`PreviewAgreement.PreviewAndRuntimeAgree`).

## Where the code and its text differ, or where a property has an exact condition

- The comments at `src/runner/verification.rs:115-119` and `src/runner/verification.rs:186-190` say that the
  rechecks create no atomic snapshot across servers. For servers that keep the two RFCs they do:
  `Verification.PinnedThroughout` holds at every world of the run from the end of the second scan to the LIST of the
  destination's recheck. The caution stays right for servers that break those rules, and for flags of untracked
  folders, which are not staged.
- The comment at `src/runner/verification.rs:67-69` speaks of empty endpoint inventories. The code keeps rows for
  reuse and resumption; the model follows the code, and `MessageStage.Trustworthy` is why that is sound.
- `encode_uid_page` is documented to encode the longest prefix. It adds whole runs of consecutive UIDs only. Within
  a scan this never matters: a listing holds at most 512 UIDs, whose set always fits, so no page ends early
  (`UidPages.EncodeUidPage`, `UidPages.PlanPage`). For longer inputs the result is the longest prefix if and only if
  it reaches the limit or not even the next UID alone fits (`UidPages.LongestExactly`), and
  `UidPages.LongestPrefixIsMissed` gives an input of 637 UIDs for which it is not.
- The account-level message limit (`src/imap_probe.rs:2017-2023`), the enumeration mismatch
  (`src/imap_probe.rs:1609-1614`) and, while no other program writes the stage, the check of the staged rows
  (`src/imap_probe.rs:1619-1624`) can never fire: `AccountScan.ScanFolders`, `MailboxScan.EnumerateUidPages`,
  `MailboxScan.FillFolder`.
- The sweep of stale temporaries can remove an artifact that is itself named like a temporary. That is exactly when
  publication is not crash-safe: `AtomicArtifact.GuardIsExact`, with `AtomicArtifact.WriteCanTakeDestination` as the
  loss for every such name.

## Model

| member | source | states |
|---|---|---|
| `ImapServer.ExistsIsBounded` | src/imap_probe.rs:2406-2441 | a folder that obeys the UID rules holds at most 2^32-1 messages, so EXISTS cannot reach the top of the machine word |
| `ImapServer.Sandwich` | src/imap_probe.rs:1661-1669 | equal UIDVALIDITY, UIDNEXT and EXISTS at two moments fix the message set, its order and its metadata at every moment between; an equal mod-sequence fixes the flags too |
| `ImapServer.EvolvesTransitive` | src/imap_probe.rs:1661-1669 | lawful evolution composes, so facts about one command extend to a whole scan |
| `ImapServer.ApplyEvolves` | src/imap_probe_resume_tests.rs:20-185 | appending, expunging, storing flags, advancing, hiding, showing, both ways of recreating and toggling CONDSTORE are all lawful evolutions |
| `ImapServer.AnyChangeCanHappen` | src/imap_probe_resume_tests.rs:20-185 | and they are no fewer than the rules allow one by one: any greater UID may be appended, any message expunged, any flags stored, any greater mod-sequence and UIDVALIDITY reached |
| `ImapServer.HappenEvolves` | src/imap_probe_resume_tests.rs:20-185 | any batch of changes by other clients on both servers is a lawful evolution of the world |
| `ImapServer.WorldsAreLawful` | src/imap_probe_resume_tests.rs:20-185 | every world of a run is valid and evolves into all later ones, also between two changes that precede one command |
| `ImapServer.RunGoesOn` | src/imap_probe_resume_tests.rs:20-185 | one command moves the run on by exactly the changes before it, and by none if there are none |
| `ImapServer.Server.constructor` | src/imap_probe_resume_tests.rs:20-185 | the chronicle is what the script makes of the initial world, and the run starts at its beginning |
| `ImapServer.GlimpseIsLawful` | src/imap_probe_resume_tests.rs:20-185 | whatever lawful selection of the changes a session is told of, its view stays a lawful state between what it knew and the world |
| `ImapServer.Describe` | src/imap_probe.rs:1926-1951 | a LIST reply names only selectable folders; its selectable count matches the names if and only if none was unreadable, and then they are all named |
| `ImapServer.Server.Select` | src/imap_probe.rs:2406-2505 | SELECT and EXAMINE show the folder as it is now, any item may be missing; a calm server answers in full |
| `ImapServer.Server.FetchUids` | src/imap_probe/fetch_pages.rs:120-209 | a parsed sequence page holds one UID per requested sequence number of the session's view, in order |
| `ImapServer.Server.FetchMetadata` | src/imap_probe/fetch_pages.rs:330-362 | fetched records are those of requested messages the view still holds; each item is the message's or missing, and none is missing from a thorough folder's records, with flags when asked for |
| `ImapServer.Server.List` | src/imap_probe.rs:1915-1951 | when the selectable count matches the names, the names are exactly the selectable folders at that instant; a calm server's always does |
| `UidPages.Observe` | src/imap_probe/fetch_pages.rs:44-54 | the page size stays within its bounds, at most doubles and may shrink at once |
| `UidPages.ObserveAims` | src/imap_probe/fetch_pages.rs:44-54 | a page of messages as large as the last ones stays within the byte target unless it is as small as allowed, and a larger page would not unless it is as large as allowed; an empty page changes nothing |
| `UidPages.SchedulesJoin` | src/imap_probe.rs:1819-1872 | the pages of the next listing continue the schedule that the planner and the replies so far determine |
| `UidPages.ExactlyOnce` | src/imap_probe.rs:1786-1872 | against any server, a good end means that the delivered UIDs are one strictly increasing sequence above the resumed cursor and number exactly EXISTS with the resumed prefix; EXISTS of 2^64-1 never ends well |
| `UidPages.RunListingDelivers` | src/imap_probe.rs:1819-1872 | the same from any point of the listing loop |
| `UidPages.ListingsAreBounded` | src/imap_probe.rs:1819-1872 | whatever a server replies and whatever EXISTS it claims, the loop ends: every accepted listing uses up part of the 32-bit UID domain |
| `UidPages.RunsDenote` | src/imap_probe/fetch_pages.rs:61-71 | the maximal runs of consecutive UIDs denote exactly the UIDs |
| `UidPages.SetKeepsGrowing` | src/imap_probe/fetch_pages.rs:73-86 | the compact set of a longer prefix is never shorter |
| `UidPages.LongestExactly` | src/imap_probe/fetch_pages.rs:56 | stopping between two runs yields the longest prefix if and only if the limit is reached or not even the next UID alone fits |
| `UidPages.EncodeUidPage` | src/imap_probe/fetch_pages.rs:56-90 | the set is the compact one of the consumed UIDs, reads back to exactly them, consumes at least one and at most the page size and fits a command line; of the UIDs of one listing it never leaves any of the page out, and for any input it is the longest prefix exactly under that condition |
| `UidPages.LongestPrefixIsMissed` | src/imap_probe/fetch_pages.rs:56 | an input beyond a listing on which every permitted result of the encoder misses a longer prefix that fits |
| `UidPages.EndOfRun` | src/imap_probe/fetch_pages.rs:62-72 | the longest run of consecutive UIDs from a position |
| `UidPages.PlanPage` | src/imap_probe.rs:1862-1868 | the next page is a non-empty piece of the listing, as large as the planner asks, and its set denotes exactly its UIDs |
| `UidPages.SetRoundTrip` | src/imap_probe/fetch_pages.rs:72-88 | decoding the printed set gives back its ranges |
| `MessageStage.FullPrefixIsExact` | src/imap_probe.rs:1616-1624 | a trusted prefix of EXISTS rows is the whole folder: a row for each message, none of them wrong |
| `MessageStage.WholeExactly` | src/imap_probe/fetch_parser.rs:58-66 | the rows of a folder are exactly its messages if and only if no record left an item out, always for a thorough folder; flags are the server's exactly where they are staged |
| `MessageStage.TrustLasts` | src/imap_probe_resume_tests.rs:1-7 | time and changes by others cannot make a staged folder untrustworthy |
| `MessageStage.StageTrustLasts` | src/imap_probe_resume_tests.rs:1-7 | the same for the whole stage, hence across a kill between two commits |
| `MessageStage.PageExtendsPrefix` | src/core/message_staging.rs:664-768 | a page listed and fetched at two different moments between equal snapshots extends the exact prefix |
| `MessageStage.PageKeepsTrust` | src/core/message_staging.rs:664-768 | committing the next page with its cursor keeps the folder trustworthy |
| `MessageStage.RowsStayCurrent` | src/imap_probe.rs:1661-1669 | rows fetched at any moment between two equal snapshots are the rows of both |
| `MessageStage.FreshEntryIsTrusted` | src/core/message_staging.rs:830-866 | beginning a scan leaves a trustworthy, empty folder |
| `MessageStage.ProgressKeepsTrust` | src/core/message_staging.rs:1161-1213 | moving only the progress marks keeps the folder trustworthy |
| `MessageStage.BegunIsTidy` | src/core/message_staging.rs:830-866 | a begun entry has the shape that resuming relies on |
| `MessageStage.PageIsTidy` | src/core/message_staging.rs:1180-1213 | so has the entry after each page in order |
| `MessageStage.CompletedIsTidy` | src/core/message_staging.rs:1161-1179 | and the completed one: it is marked completed and finished, and holds EXISTS rows |
| `MessageStage.CompletedIsReusable` | src/core/message_staging.rs:919-931 | what completing commits on a durable stage under a tracked snapshot is reused under that snapshot, as EXISTS rows |
| `MessageStage.ReuseExactly` | src/core/message_staging.rs:919-1022 | rows of a durable stage are used again only under their own tracked snapshot: all of them if the scan of it was completed and finished, otherwise those up to their greatest UID, if there are any |
| `MessageStage.NothingIsWasted` | src/core/message_staging.rs:919-1022 | should a folder show the tracked snapshot of its entry on a durable stage, a scan finds every staged row saved, whether the earlier scan was completed or cut off after a page |
| `MessageStage.SubStageTrusted` | src/core/message_staging.rs:797-829 | deleting staged folders keeps the rest trustworthy |
| `MessageStage.CompleteEntryIsExact` | src/core/message_staging.rs:867-938 | a completed folder has the rows of the server's folder whenever the server shows its snapshot, which is what makes reuse sound |
| `MessageSink.ResetAgrees` | src/imap_probe.rs:584-590 | resetting a folder whose rows are gone keeps the total equal to the sum of the folder counts and the counts equal to the rows |
| `MessageSink.AddAgrees` | src/imap_probe.rs:563-583 | adding a page keeps that agreement and neither overflow check fires |
| `MessageSink.AdoptAgrees` | src/imap_probe.rs:495-512 | adopting staged rows replaces the folder's earlier share and keeps the agreement |
| `MessageSink.StageMessageSink.constructor` | src/imap_probe.rs:2086-2092 | a new sink agrees with its stage, with nothing counted |
| `MessageSink.StageMessageSink.Begin` | src/imap_probe.rs:476-487 | exactly when its transaction works a scan begins with an emptied folder; otherwise stage and counters stay as they were |
| `MessageSink.StageMessageSink.Adopt` | src/imap_probe.rs:501-511 | rows are adopted exactly when the account's limit admits them |
| `MessageSink.StageMessageSink.ReuseCompleted` | src/imap_probe.rs:488-512 | unless the transaction fails or the limit refuses, a folder is reused if and only if its completed, tracked snapshot is identical; the stage is untouched; what completion leaves is such an entry by `MessageStage.CompletedIsReusable` |
| `MessageSink.StageMessageSink.ResumePrefix` | src/imap_probe.rs:513-540 | under the same proviso a prefix is resumed if and only if its unfinished, tracked snapshot is identical and its cursor is its greatest UID |
| `MessageSink.StageMessageSink.InsertPageAndCheckpoint` | src/imap_probe.rs:419-434 | rows, cursor and counters move together or not at all |
| `MessageSink.StageMessageSink.CompleteMailbox` | src/imap_probe.rs:551-559 | completion needs exactly EXISTS rows under the scan's snapshot |
| `MessageSink.StageMessageSink.Rollback` | src/imap_probe.rs:436-443 | exactly when its transaction works a folder's rows and its share of the total leave together, and no page may arrive for it before a new scan begins |
| `MessageSink.StageMessageSink.RetainMailboxes` | src/imap_probe.rs:445-451 | exactly when its transaction works only folders of the inventory stay staged, and counting starts afresh |
| `StateBudget.MessageStateBudget.ReserveBytes` | src/imap_probe.rs:196-235 | a reservation succeeds exactly below the ceiling and is charged in full |
| `StateBudget.MessageStateBudget.ReleaseBytes` | src/imap_probe.rs:237-241 | never gives back more than is held, so the counter cannot underflow |
| `StateBudget.MessageStateBudget.DropReservation` | src/imap_probe.rs:248-254 | an uncommitted reservation returns all of it |
| `StateBudget.MessageStateBudget.CommitReservation` | src/imap_probe.rs:243-245 | whatever a committed reservation still held is lost to the budget |
| `StateBudget.SettleIsSound` | src/imap_probe.rs:196-254 | each operation keeps the counter exact and not negative, and the other side's share as it is; only a commit leaves anything behind |
| `StateBudget.SidesKeepTheirShare` | src/imap_probe.rs:196-254 | the same over any sequence of operations |
| `StateBudget.MessageStateBudget.Interleave` | src/imap_probe.rs:185-254 | any interleaving of both sides' reservations, releases, drops and commits refines the same operations on a value; the counter equals the live reservations plus what commits left behind and stays below the ceiling; a side that takes no part keeps its share, and only a side that commits can leak |
| `StateBudget.MessageStateBudget.ReservePage` | src/imap_probe.rs:1556-1565 | a page is charged record by record while the other side runs in between; it is refused only when a record does not fit, and undisturbed it is admitted exactly when it fits |
| `MailboxScan.FetchPage` | src/imap_probe.rs:1459-1532 | a page holds exactly the requested UIDs, rows as the folder then held them, flags only when tracked; on a calm server it is fetched unless the limit forbids it |
| `MailboxScan.StagePage` | src/imap_probe.rs:1556-1604 | a staged page returns its reservation in full; otherwise the stage is untouched |
| `MailboxScan.AdmitPage` | src/imap_probe.rs:1556-1604 | staging a fetched page keeps the stage trustworthy and adds exactly its rows |
| `MailboxScan.AdmittedPageIsTrusted` | src/imap_probe.rs:419-434 | the stage transaction for the next page in order cannot fail and keeps the stage trustworthy |
| `MailboxScan.PageGoesIn` | src/core/message_staging.rs:1180-1213 | under the scan's own snapshot a page of new UIDs always goes in and joins the rows |
| `MailboxScan.EstimatedBytes` | src/imap_probe.rs:2393-2404 | the charge for a record covers its fixed overhead, folder name, UID and texts, as far as a machine word can count |
| `MailboxScan.PageIsLight` | src/imap_probe.rs:2393-2404 | a page of at most 1024 records of at most 256 KiB always fits an empty budget |
| `MailboxScan.ConsumePage` | src/imap_probe.rs:1457-1606 | fetching and admitting a page keeps the invariants of the scan, whatever happens in between |
| `MailboxScan.CutNextPage` | src/imap_probe.rs:1862-1864 | the encoded page is the next piece of the listing and lies above everything staged |
| `MailboxScan.ConsumeNext` | src/imap_probe.rs:1862-1868 | one turn of the page loop stages the next piece of the listing |
| `MailboxScan.ConsumeListing` | src/imap_probe.rs:1862-1871 | a listing is staged completely, in pages each as large as the planner asks after the replies before it |
| `MailboxScan.ListingContinues` | src/imap_probe.rs:1843-1858 | an accepted listing continues above the previous one, and one of an unchanged folder is never refused |
| `MailboxScan.FetchListing` | src/imap_probe.rs:1819-1858 | a listing holds the UIDs of the requested sequence numbers at a moment of the scan |
| `MailboxScan.EnumerateUidPages` | src/imap_probe.rs:1786-1872 | a good end has staged exactly EXISTS rows, each once, for any resumed prefix and any interleaving, and has listed and fetched exactly those above the prefix, in pages of the size that the planner and all replies so far determine, no command refused; undisturbed enumerations end well |
| `MailboxScan.OpenMailbox` | src/imap_probe.rs:1367-1427 | it succeeds if and only if the reply names everything that identifies a state; the snapshot is what the folder showed, complete and of the requested kind; a usable folder of a calm server opens |
| `MailboxScan.PrepareScan` | src/imap_probe.rs:1430-1443 | reuse exactly when the completed snapshot is identical and tracked, else resumption exactly when the prefix is, else a fresh start; undisturbed, the plan leaves exactly the rows to fetch that no earlier scan has saved |
| `MailboxScan.CloseMailbox` | src/imap_probe.rs:1630-1668 | success if and only if the opening snapshot is shown again, and the folder is taken for changed if and only if a complete reply shows another one; an unchanged folder of a calm server always passes |
| `MailboxScan.FillFolder` | src/imap_probe.rs:1444-1624 | afterwards exactly EXISTS rows are staged and the reservation is back |
| `MailboxScan.ClosingProvesRows` | src/imap_probe.rs:1660-1674 | trusted rows under the snapshot that the closing SELECT shows are the folder's rows |
| `MailboxScan.FinishScan` | src/imap_probe.rs:1626-1674 | the closing half turns trusted rows into exact ones and completes the folder; a reused one stays as it is |
| `MailboxScan.ResumedPrefixIsTrue` | src/core/message_staging.rs:939-1022 | a resumable prefix ends at the folder's own UID of that position |
| `MailboxScan.ScanOpened` | src/imap_probe.rs:1444-1678 | from the plan for its rows to the end, the scan proves the folder or fails |
| `MailboxScan.OpenScan` | src/imap_probe.rs:1367-1678 | from the opening SELECT to the end: a good end proves the folder at the closing SELECT, and has listed and fetched exactly what was not saved; a calm server takes a folder for changed only if it changed |
| `MailboxScan.VerifiedIsSaved` | src/imap_probe.rs:1430-1443 | a folder that was proved under a tracked snapshot on a durable stage is saved completely |
| `MailboxScan.ScanMailbox` | src/imap_probe.rs:1357-1678 | the scan under its open reservation, from its opening SELECT on |
| `MailboxScan.FetchMailbox` | src/imap_probe.rs:1357-1678 | for every interleaving a good end means that the staged rows are those of the folder at the closing SELECT, one for each message and none wrong, under a tracked snapshot exactly when the session and the folder keep mod-sequences, that the result is its size, that exactly the rows not saved before were listed and fetched, and that no command was refused and no stage transaction failed; the reservation is back on every exit and nothing leaks; the end of the scan is recorded, and an undisturbed scan within the limits ends well |
| `MailboxScan.ResumedEqualsFresh` | src/imap_probe_resume_tests.rs:1-7 | a scan that reused or resumed rows has staged the same messages under the same snapshot as a scan from zero, and the same rows if and only if the server reported the same items both times; a thorough folder always does |
| `MailboxScan.CompletedEntryIsTrusted` | src/core/message_staging.rs:1161-1179 | completing a folder keeps the stage trustworthy |
| `AccountScan.RollBack` | src/imap_probe.rs:436-443 | a rollback that works leaves no row of the folder; one that fails leaves the stage trustworthy |
| `AccountScan.ScanOrRollBack` | src/imap_probe.rs:1687-1722 | one scan, whose recorded end decides the result unless a stage transaction failed and its rows could not be removed; a failed folder has no staged rows |
| `AccountScan.FetchWithStabilityRetry` | src/imap_probe.rs:1681-1725 | a second scan exists exactly when the first found the folder changed and its rows could be removed, as they can unless a stage transaction fails; the end of the last scan decides, so a folder is reported as changed only after two scans, and any scan that nothing disturbs ends well; success proves the folder; a failed one has no staged rows unless the rollback itself failed or the controller died |
| `AccountScan.FetchWithSessionReconnect` | src/imap_probe.rs:1729-1778 | each scan that lost its session is followed by one Connect, counted on the server, unless it was the third in a row or its rows could not be removed, and no other session is opened; twice as many scans as sessions, with the same guarantees; undisturbed it takes one scan and no reconnect |
| `AccountScan.EffortStaysBounded` | src/imap_probe.rs:1964-2053 | one more folder keeps reconnects within 3 x (successes + 1) and scans within 2 x (folders + reconnects) |
| `AccountScan.CertifiedLasts` | src/imap_probe.rs:1964-2053 | scanning one folder leaves the certificates of the folders before it, and their moments, intact |
| `AccountScan.LossesGrow` | src/imap_probe.rs:1741-1776 | the lost sessions of several attempts add up, one for each attempt whose last scan lost its session |
| `AccountScan.VisitSucceeds` | src/imap_probe.rs:2014-2024 | a folder that scanned well joins the certified ones and its size joins the total |
| `AccountScan.VisitFails` | src/imap_probe.rs:2025-2053 | a failed folder is clean and disturbs no other |
| `AccountScan.VisitFolder` | src/imap_probe.rs:1977-2053 | one turn of the folder loop: a folder that passed is certified at the moment of its closing SELECT, a lost one is clean, and the others keep their certificates; the effort reported is what the server counted; the scan stops before the folder exactly when the check refuses to go on |
| `AccountScan.ScanFolders` | src/imap_probe.rs:1964-2066 | completion means that every folder of the inventory is certified at a moment since the start and none failed; a fatal failure ends the scan and decides its error, all others let it go on to the end of the inventory; an Incomplete error counts all failed folders and names up to sixteen of them with their own errors; the effort reported is what the server counted and stays bounded; the account-level limit check never fires; an undisturbed account within the limits completes, and lists and fetches exactly what was not saved |
| `AccountScan.ListInventory` | src/imap_probe.rs:1915-1962 | an accepted inventory is every selectable folder that is not excluded, and is not empty; a calm server's is accepted |
| `AccountScan.CalmGoesOn` | src/imap_probe.rs:1977-2024 | in an undisturbed scan each folder leaves room for the rest and what is staged stays what the server holds |
| `AccountScan.RescanIsFree` | src/imap_probe.rs:488-512 | while tracked folders stay as a complete scan left them on a durable stage, the next undisturbed scan lists and fetches no message at all |
| `AccountScan.CountsAreTheStage` | src/imap_probe.rs:562-590 | after a complete scan the counters are the staged rows, folder by folder |
| `AccountScan.RetainKeepsTrust` | src/core/message_staging.rs:1266-1313 | pruning keeps the stage trustworthy, leaves nothing outside the inventory and takes nothing inside it, and spares the other side |
| `AccountScan.OpenAccount` | src/imap_probe.rs:1903-1958 | one session, and every folder that was selectable at its LIST and is not excluded, or an error that names no folder |
| `AccountScan.BeginAccount` | src/imap_probe.rs:1903-1962 | nothing is staged outside the inventory, the other side is left alone and the stage stays trustworthy; a kill is told from a refusal, and a stage that failed is named |
| `AccountScan.DetailGrows` | src/imap_probe.rs:2033-2051 | one more failure keeps the sample of at most sixteen distinct failed folders with their errors and the true count |
| `AccountScan.EffortIsFrugal` | src/imap_probe.rs:1729-1778 | bounded effort that is the real effort means at most 1 + 3 x (good folders + 1) sessions and the corresponding number of scans |
| `AccountScan.FetchAccount` | src/imap_probe.rs:1881-2067 | all or nothing: completion names every folder that was selectable at the moment of the LIST and is not excluded, each certified at a later moment of the scan, nothing staged besides, and the total is the number of staged rows; on every exit failed folders are clean, an Incomplete error counts them all and names up to sixteen with their own errors, and the sessions, scans and SELECTs counted on the server are bounded by the folders of the inventory that were visited; an undisturbed account within the limits completes with one session and one scan for each folder, and lists and fetches exactly the messages that no earlier scan has saved |
| `Verification.ExamineFolder` | src/imap_probe.rs:2230-2300 | success if and only if a complete reply shows the expected snapshot, its mod-sequence included; an unchanged folder of a calm server passes |
| `Verification.ExamineFolders` | src/imap_probe.rs:2217-2306 | success means that every folder showed its snapshot at a moment between start and end; calm, unchanged accounts pass |
| `Verification.RevalidateAccount` | src/imap_probe.rs:2129-2223 | success means that the selectable folders at the moment of the LIST were exactly the expected ones and each showed its snapshot at a moment between it and the end; an unchanged account of a calm server passes |
| `Verification.FolderPinned` | src/imap_probe.rs:2308-2320 | equal snapshots before and after pin a folder to its staged rows at every moment between |
| `Verification.DoubleCollect` | src/imap_probe.rs:2129-2320 | in every lawful world between the last scan and the recheck all folders of an account at once held exactly their staged messages, even if one was hidden then |
| `Verification.PinnedBetween` | src/imap_probe.rs:2308-2320 | the same for one folder between two moments of the run |
| `Verification.OverlappingCollects` | src/runner/verification.rs:115-205 | the windows of both accounts overlap, so at every world of the run in the window both were pinned |
| `Verification.ScanSide` | src/runner/verification.rs:71-114 | scanning one side over the shared stage certifies every folder listed at a moment of this scan, at later moments of it, and leaves the other side alone |
| `Verification.ScanBoth` | src/runner/verification.rs:69-114 | source and destination one after the other: success certifies both within this part of the run, and what undisturbed scans staged passes its recheck |
| `Verification.RecheckBoth` | src/runner/verification.rs:115-205 | source, destination and source again: success means that the staged folders were those listed at two moments of the recheck, and pins both accounts from its start to the second of them; unchanged accounts pass |
| `Verification.CurrentIsRecheckable` | src/imap_probe.rs:2308-2320 | what an undisturbed scan staged passes its recheck |
| `Verification.VerifyPair` | src/runner/verification.rs:69-207 | a successful run proves that at every world between two moments of this run both accounts at once held exactly their staged messages, and that the staged folders were those listed at moments of the run; an undisturbed run within the limits succeeds |
| `Verification.VerifyWithRestarts` | src/imap_probe_resume_tests.rs:1-7 | any number of killed or failed runs over one durable stage and changing servers: the first that succeeds proves, of moments within these runs, as much as a run from an empty stage; if nothing disturbs it that is the first |
| `Verification.EmptyStageIsTrusted` | src/core/message_staging.rs:479-618 | every stage starts out trustworthy |
| `Supervisor.ClampIsInvisible` | src/headless.rs:1295-1300 | the delay is min(base x 2^(k-1), one hour) with base at least one second; the clamp at sixteen doublings and the saturation never change it |
| `Supervisor.DelayOfStreak` | src/headless.rs:1447-1449 | saturating the failure count at 32 bits does not shorten the wait |
| `Supervisor.FindFromFindsFirst` | src/headless.rs:1318-1329 | the search finds the first project of the round that is out of backoff, and nothing exactly when all are in backoff |
| `Supervisor.SelectedIsEligible` | src/headless.rs:1306-1329 | the chosen project is a candidate and out of backoff |
| `Supervisor.SelectionApproaches` | src/headless.rs:1306-1329 | each selection serves a waiting eligible project or brings the round strictly closer to it |
| `Supervisor.StepApproaches` | src/headless.rs:1398-1457 | the same for one turn of the loop, whatever its pass does |
| `Supervisor.RoundsApproach` | src/headless.rs:1361-1458 | the same over a run |
| `Supervisor.BoundedWaiting` | src/headless.rs:1361-1458 | with n distinct candidates, a project that stays out of backoff is among the next n served, however the others enter and leave backoff |
| `Supervisor.EligibleIsReady` | src/headless.rs:1318-1328 | a candidate is out of backoff exactly when it has rested its exponential share since its latest failure |
| `Supervisor.RoundStartBegins` | src/headless.rs:1315-1317 | the round begins right behind the first place of the project served last, or at the front if that is no candidate any more |
| `Supervisor.ChoiceIsRight` | src/headless.rs:1306-1329 | the search over positions and backoff finds the project that the turns so far call for: the first of the round that has rested, or none |
| `Supervisor.TurnKeepsTrack` | src/headless.rs:1398-1457 | forgetting and punishing keep the backoff table exactly what the turns say about failures in a row |
| `Supervisor.StepCounts` | src/headless.rs:1361-1458 | one turn keeps the counters those of the turns, and it stops the run exactly when the turns give reason to, with their counts and their last failure as its report |
| `Supervisor.StepKeepsInvariant` | src/headless.rs:1361-1458 | one turn keeps tables, counters, choice and stop in step with the turns taken |
| `Supervisor.RunsKeepInvariant` | src/headless.rs:1331-1459 | over every run each poll serves the first project of its round that has rested min(base x 2^(k-1), one hour) since the k-th failure in a row, and no turn is taken after the run had reason to stop |
| `Supervisor.RulesDetermineTurns` | src/headless.rs:1331-1459 | the rules of choice and stop leave no choice: for each sequence of polls there is one right sequence of turns |
| `Supervisor.ContinuousNeverFinishes` | src/headless.rs:1366-1375 | without a limit on idle polls no run ever finishes |
| `Supervisor.QuietRunsStop` | src/headless.rs:1362-1415 | with a limit every run stops no later than after that many turns in a row in which nobody can be served |
| `Supervisor.Supervise` | src/headless.rs:1331-1459 | the loop over its counters and tables takes exactly the right turns, and stops exactly at a broken ledger or when the idle turns since the last pass reach a positive limit, Ok exactly when no pass failed, with the true counts and the last failure in its report |
| `AtomicArtifact.CrashIsSafe` | src/atomic_artifact.rs:56-109 | a power loss leaves a safe artifact safe |
| `AtomicArtifact.RenameIsSafe` | src/atomic_artifact.rs:96-99 | renaming a synced temporary adds only the complete new content to what may be seen |
| `AtomicArtifact.FlushIsSafe` | src/atomic_artifact.rs:106 | flushing the directory leaves only the content that is in place |
| `AtomicArtifact.SweepSparesOrdinary` | src/atomic_artifact.rs:115-140 | no sweep touches a name that does not look like a temporary |
| `AtomicArtifact.SweptExactly` | src/atomic_artifact.rs:115-140 | the sweep takes a file if and only if it is named as a temporary of the artifact, was last written an hour ago or earlier and can be removed |
| `AtomicArtifact.FileSystem.RemoveStaleTemporaries` | src/atomic_artifact.rs:115-140 | the loop changes exactly the entries of such files and no others |
| `AtomicArtifact.PublishedIsSafe` | src/atomic_artifact.rs:79-107 | every prefix of the steps, ended by an error or a power loss, keeps every name but the temporary safe |
| `AtomicArtifact.WriteEnds` | src/atomic_artifact.rs:56-109 | a successful write has the complete synced content in place; one whose steps all work succeeds; without a power loss no temporary stays unreported |
| `AtomicArtifact.WriteExactly` | src/atomic_artifact.rs:56-109 | a write succeeds if and only if its temporary is new and each step works, and the new content is in place if and only if they did up to the rename; a failure before it leaves the artifact as it was, and a temporary is left behind only if removing it failed |
| `AtomicArtifact.WriteIsSafe` | src/atomic_artifact.rs:56-109 | any write of any artifact leaves every ordinary artifact with complete, acceptable content |
| `AtomicArtifact.HistoryIsSafe` | src/atomic_artifact.rs:56-109 | the same over any history of writes and power losses |
| `AtomicArtifact.LooksTemporaryExactly` | src/atomic_artifact.rs:115-133 | a name looks like a temporary if and only if its own writer's sweep takes it for one |
| `AtomicArtifact.WriteCanTakeDestination` | src/atomic_artifact.rs:115-140 | every artifact so named is lost to its own next write, even one that fails at once |
| `AtomicArtifact.GuardIsExact` | src/atomic_artifact.rs:56-140 | publication is crash-safe over all histories if and only if the artifact's name does not look like a temporary |
| `AtomicArtifact.FileSystem.Publish` | src/atomic_artifact.rs:79-107 | the step-by-step writer refines the specified sequence of steps |
| `AtomicArtifact.FileSystem.CleanUp` | src/atomic_artifact.rs:142-161 | after a failure the temporary is removed or the result says that it could not be |
| `AtomicArtifact.FileSystem.WritePrivateAtomic` | src/atomic_artifact.rs:56-109 | the writer refines the specified write, succeeds and renames exactly when its steps allow it, and inherits its safety for every ordinary artifact at once |
| `AtomicArtifact.FileSystem.RunHistory` | src/atomic_artifact.rs:56-109 | over any history of writes and power losses every ordinary artifact shows the last successful content or that of a later write that reached its rename, never a partial one |
| `AtomicArtifact.GoodAfterAllMeans` | src/atomic_artifact.rs:53-55 | acceptable contents are exactly those of the last successful write and of later renamed ones |
| `DiagnosticQueue.EveryLineIsAccounted` | src/diagnostic_log.rs:270-298 | lines handled for a run since its last Finish are those persisted plus those lost |
| `DiagnosticQueue.HandledWasAccepted` | src/diagnostic_log.rs:270-298 | lines handled since a Finish are the lines accepted since it |
| `DiagnosticQueue.Queue.Reserve` | src/diagnostic_log.rs:137-145 | bytes are reserved exactly when they fit the limit |
| `DiagnosticQueue.Queue.TrySend` | src/diagnostic_log.rs:146-164 | a line is accepted exactly when the channel is connected and has room |
| `DiagnosticQueue.Queue.Refund` | src/diagnostic_log.rs:165-168 | a refused line gives back its bytes, and the counter cannot underflow |
| `DiagnosticQueue.Queue.TryFinish` | src/diagnostic_log.rs:185-199 | a Finish is queued behind everything accepted before it |
| `DiagnosticQueue.Queue.WriteLine` | src/diagnostic_log.rs:281-287 | a line is persisted or counted as a failure of its run |
| `DiagnosticQueue.Queue.ReleaseLine` | src/diagnostic_log.rs:288 | bytes leave the counter only after the write, without underflow |
| `DiagnosticQueue.Queue.HandleFinish` | src/diagnostic_log.rs:290-293 | the reply is a count if and only if the flush worked, and then accounts for every line accepted for the run since its last Finish: persisted plus failures returned |
| `DiagnosticQueue.AnswersGrow` | src/diagnostic_log.rs:290-293 | one more handled line needs no reply, one more handled Finish its own true one |
| `DiagnosticQueue.NextIsSound` | src/diagnostic_log.rs:137-298 | every step of every thread keeps the byte counter exact and within its limit, the order of what was accepted, the failure table and the replies |
| `DiagnosticQueue.HandledAsTold` | src/diagnostic_log.rs:275-293 | the history grows only by what the writer handles, and each entry records the outcome that the writer met in the very step that handled it |
| `DiagnosticQueue.WriterDrains` | src/diagnostic_log.rs:270-298 | a writer that goes on handles everything accepted, in order, and gives all its bytes back |
| `DiagnosticQueue.DisconnectedAcceptsNothing` | src/diagnostic_log.rs:146-199 | once the logger is gone nothing more is accepted |
| `DiagnosticQueue.FinishIsAnswered` | src/diagnostic_log.rs:137-298 | a line and the Finish of its run that find room are handled behind everything accepted before, and the Finish gets its own true reply: a count if and only if the flush worked in the step that handled it |
| `DiagnosticQueue.Queue.Perform` | src/diagnostic_log.rs:137-298 | one step of any thread refines one transition of the queue as a value, whose new replies it returns |
| `DiagnosticQueue.Queue.Interleave` | src/diagnostic_log.rs:137-298 | any interleaving of producers and writer refines the same transitions one by one; the counter is exactly the bytes reserved, queued or being written, within its limit, nothing accepted is forgotten, and each handled Finish has its own reply: a count exactly if the writer flushed in that step, and then one that accounts for every line accepted for its run |
| `ShellWords.ParseShellWords` | src/command.rs:57-101 | the character loop computes the parse |
| `ShellWords.FeedConcat` | src/command.rs:57-101 | parsing is compositional: the state after a text depends only on the state before it |
| `ShellWords.QuotedTextSpells` | src/engine_install.rs:395-402 | a single-quoted text of any content, even empty, is read as exactly that text |
| `ShellWords.PiecesSpell` | src/command.rs:57-101 | a word written in any mixture of plain characters, single quotes, double quotes with protected characters and escaped characters is read as what the pieces mean |
| `ShellWords.SentenceRoundTrip` | src/command.rs:57-101 | words spelled in any way, with any whitespace between and around them, are parsed back |
| `ShellWords.UnfinishedIsMalformed` | src/command.rs:57-101 | a good text becomes malformed by a quote that nothing closes, or by a backslash at its very end |
| `ShellWords.JoinRoundTrip` | src/command.rs:57-101 | words in any such spelling joined by spaces are parsed back |
| `ShellWords.ManualCommandRoundTrip` | src/engine_install.rs:395-402 | for every path the printed install command parses to its five fixed words and that path |
| `ExtraOptions.CanonicalOptions` | src/extra_options.rs:10-159 | the word loop computes the canonical tokens or the first error |
| `ExtraOptions.CanonicalIsNormal` | src/extra_options.rs:37-150 | canonical tokens are allowlisted flags and settings with in-range integers |
| `ExtraOptions.AcceptedExactly` | src/extra_options.rs:79-150 | words are accepted with some tokens if and only if they are uses of allowlisted options in a row that say these tokens: flags without a value, integers in range behind an equals sign or as the next word |
| `ExtraOptions.CanonicalExactly` | src/extra_options.rs:10-159 | the field is accepted if and only if it is at most 64 KiB of well-formed words, at most 128 of them, that denote at most 128 tokens |
| `ExtraOptions.NormalFormIsFixed` | src/extra_options.rs:37-150 | a normal form is what the token parser makes of itself |
| `ExtraOptions.CanonicalIsFixedPoint` | src/extra_options.rs:10-159 | whenever canonicalization succeeds it yields at most 128 normal tokens, and running it on their join gives the same tokens |
| `BoundedLines.LongestPrefixIsLongest` | src/output.rs:69-78 | truncation yields a prefix within the byte budget, and no longer prefix fits |
| `BoundedLines.TruncateToBytes` | src/output.rs:69-78 | stepping back to a character boundary finds that longest prefix |
| `BoundedLines.NewestIsLongest` | src/output.rs:18-31 | the kept lines are a suffix that fits both limits, and no longer suffix fits |
| `BoundedLines.OldestIsLongest` | src/output.rs:33-46 | the same for prefixes at the other end |
| `BoundedLines.BoundedLineBuffer.PushBounded` | src/output.rs:18-31 | afterwards the lines are the longest fitting suffix of the old lines and the truncated new one, which is the last of them; a zero limit changes nothing; the byte count is their true sum |
| `BoundedLines.BoundedLineBuffer.PushFrontBounded` | src/output.rs:33-46 | the same at the front |
| `BoundedLines.BoundedLineBuffer.Clear` | src/output.rs:58-61 | empties the buffer and its byte count |
| `BoundedLines.PushedLineIsKept` | src/output.rs:18-46 | with positive limits a push never loses its own line |
| `BoundedLines.NewestIsIncremental` | src/output.rs:18-31 | dropping early what would be dropped later changes nothing |
| `BoundedLines.PushesKeepTheNewest` | src/output.rs:18-31 | a sequence of pushes under fixed positive limits leaves the longest suffix of all truncated inputs that fits |
| `BoundedLines.AllFit` | src/output.rs:18-61 | any mix of pushes at both ends and clears keeps both limits |
| `BoundedLines.KeptIsInput` | src/output.rs:18-61 | what a history keeps is never larger than what it pushed |
| `BoundedLines.BoundedLineBuffer.Perform` | src/output.rs:18-61 | the buffer refines that history, for every byte limit up to the largest machine word |
| `Placeholders.RemovePlaceholderOptions` | src/command.rs:9-55 | the filtering loop computes the removal and its verdict |
| `Placeholders.RemovalIsClean` | src/command.rs:9-55 | no occurrence of the option survives, and what survives keeps its order |
| `Placeholders.RemovalSucceedsExactly` | src/command.rs:9-55 | success if and only if the option is absent or occurs once, followed by its placeholder; then exactly that pair is gone |
| `Placeholders.RemovalKeepsSurvivors` | src/command.rs:9-55 | malformed pairs included: what survives is every token that is neither the option nor, right behind it, something other than an option; the vector is malformed if and only if some occurrence lacks its placeholder |
| `Placeholders.RemovalSplits` | src/command.rs:24-44 | an option token that is not the placeholder separates the vector: both sides are treated independently |
| `Placeholders.DanglingIsMalformed` | src/command.rs:33-47 | an option at the end, without its placeholder, is malformed, whatever precedes it |
| `Placeholders.StripOptions` | src/migration_plan/fingerprint.rs:31-40 | the loop over the credential options computes their successive removal |
| `Placeholders.StripLeavesNone` | src/migration_plan/fingerprint.rs:31-40 | none of the options survives, whatever the vector looked like |
| `Endpoint.HostIsNeverAnOption` | src/endpoint.rs:3-95 | an accepted host never starts with a dash and its port is between 1 and 65535 |
| `Endpoint.HostRoundTrip` | src/endpoint.rs:33-59 | a plain host name stands for itself, with the default port or the one behind its colon; port zero is refused |
| `Endpoint.AddressRoundTrip` | src/endpoint.rs:9-32 | an IPv6 address stands for itself, bare or in brackets, with a port behind the brackets |
| `EngineArgs.ThrottleDividesExactly` | src/engine.rs:57-74 | validation passes if and only if each set target reaches the number of children; the cast to 32 bits is then exact |
| `EngineArgs.RatesShareTheTarget` | src/engine.rs:171-183 | each child gets at least one unit, all together stay within the target, and one more unit each would exceed it |
| `EngineArgs.EscapedIsLiteral` | src/engine.rs:193-207 | an escaped folder name is a pattern without operators whose only match is that name |
| `EngineArgs.ImapsyncArgsWithExtraOptions` | src/engine.rs:76-191 | the building loops compute the specified vector, without division by zero |
| `EngineArgs.ImapsyncArgs` | src/engine.rs:18-51 | validation, canonical options and vector, in this order, for launch and preview |
| `EngineMeaning.SpellingIsRead` | src/engine.rs:103-190 | the engine reads each option name of the vector as the option that it names |
| `EngineMeaning.ReadPrinted` | src/engine.rs:103-190 | what is printed for known options with their values is read as those options, whatever the values look like |
| `EngineMeaning.RequestsAreWanted` | src/engine.rs:76-191 | for each option the requests of a profile carry the wanted values, in order, and no others |
| `EngineMeaning.CommandAsks` | src/engine.rs:76-191 | the engine reads the vector as exactly what the profile wants: hosts, users and ports of their own side, the transport of its mode with verified certificates, each flag if and only if its field is set, a dry run if and only if one is meant, every rule, both rates, and the tuning options last |
| `EngineMeaning.OnlyRehearsalsAreDry` | src/engine.rs:154-186 | a command is a dry run if and only if a rehearsal is meant, and deletes if and only if the profile says so |
| `EngineMeaning.ValuesMean` | src/engine.rs:91-102 | in plain terms: each rate is a decimal number that gives every child its fair share of the target, each exclusion matches its own folder only, and each port is the configured one, the endpoint's if left blank, otherwise 0 |
| `EngineMeaning.PatternExcludes` | src/engine.rs:160-170 | the exclusion pattern of a folder matches that folder and nothing else |
| `EngineMeaning.PortParses` | src/engine.rs:91-102 | the printed port reads back as the port meant |
| `EngineMeaning.PlanMeans` | src/engine.rs:18-51 | a plan is refused if and only if a target is too small to share, and otherwise if and only if the extra options are refused, with their error; any other plan asks for exactly what the profile wants |
| `PreviewAgreement.TailHasNone` | src/engine.rs:117-190 | no generated token after the credentials is a credential option, whatever the profile contains |
| `PreviewAgreement.HostsAreNone` | src/engine.rs:83-90 | no host, valid or not, is a credential option |
| `PreviewAgreement.ArgumentsLayout` | src/engine.rs:103-116 | launch and preview form have one layout, without and with the two placeholder pairs |
| `PreviewAgreement.StripLayout` | src/migration_plan/fingerprint.rs:31-40 | stripping takes out exactly the pairs whose options are listed |
| `PreviewAgreement.StripNoticesUser` | src/command.rs:33-42 | a user named like a credential option is always reported as malformed, in whatever order options are stripped |
| `PreviewAgreement.PreviewAndRuntimeAgree` | src/engine.rs:18-51 | for every accepted profile stripping the preview succeeds, and yields the launched vector, if and only if neither user is a credential option |
| `PreviewAgreement.FingerprintArguments` | src/migration_plan/fingerprint.rs:10-46 | the plan identity never contains a credential option, equals the launched vector exactly for ordinary users, and is marked otherwise; the fallback for rejected options never fails and ends with their digest |
| `PreviewAgreement.DigestSurvives` | src/migration_plan/fingerprint.rs:21-26 | stripping never touches the digest that stands for rejected options |

## Left out

- TLS, DNS, authentication, deadlines and byte-level IMAP reading and parsing: a command is one atomic request with
  a parsed reply that may also fail; a deadline or a cancellation is such a failure.
- The classifier of error texts (`src/imap_probe.rs:1330-1354`): every result holds for an arbitrary classifier.
- Body hashes, content fingerprints and their budget: scans are metadata scans.
- The SQLite schema: each stage operation is one transaction on values that may fail; free-space checks, file modes
  and the identity of a durable stage file are not modelled, nor the integer ranges of `to_sql`.
- Rows of an earlier UIDVALIDITY beside current ones: beginning a scan empties the folder.
- Permanent flags: recording them is a transaction without content.
- The reconciliation of the two staged accounts and the folder mapping: only the evidence they work on.
- Folder order: the folders of an account are visited in an arbitrary order instead of a sorted one.
- Sleeps, poll intervals between turns and the waiting time of `finish_run`: durations are inputs of the model.
- Transcript files, rotation and pruning, redaction and pseudonyms of diagnostic lines.
- Permissions and the Windows replacement calls of `src/atomic_artifact.rs`: a step that may fail.
- UUID syntax, IPv6 syntax, Unicode letters and IDNA: arbitrary functions; only that an IPv6 text does not start
  with a dash is assumed, as `Endpoint.Sound`, and for the round trips of endpoints that letters are no separators and
  an IPv6 text consists of hexadecimal digits, dots and at least two colons, as `Endpoint.Usual`.
- The engine behind its command line: `EngineMeaning.Read` takes each option by its full name and its value from the
  next token; abbreviated and negated options, and what the engine then does, are not modelled.
- The rest of the plan fingerprint (`src/migration_plan/fingerprint.rs:47-78`), the Dovecot engine and the launch of
  child processes.
- Concurrent scans of both sides in one verification run: the two scans of a run take turns, as in the source; the
  shared budget under arbitrary interleavings is modelled for the scan of one side.
- BoundedLines.BoundedLineBuffer.Perform: at a byte limit of the largest machine word it needs that all pushed text
  together does not exceed the address space, which text in memory cannot.
- MailboxScan.FetchMailbox: its good end in calm weather is stated for records of at most 256 KiB and an empty
  budget, which is enough for every page; heavier records may be refused by the budget without any disturbance.
