/** The scan of one folder between its opening and its closing SELECT. */
module MailboxScan {
  import opened Collections
  import opened Decimal
  import opened ImapServer
  import opened MessageSink
  import opened MessageStage
  import opened StateBudget
  import opened Text
  import opened UidPages

  /** Why a scan failed.  The program sorts causes into kinds by their wording, so every
      result below holds for an arbitrary classifier. */
  datatype Cause =
    | CommandFailed(code: nat) | EmptyMailbox | ControlCharacters
    | NoUidvalidity | NoUidnext | BadModseq
    | InvalidPrefix | OrderChanged | MessageLimit | CoverageMismatch
    | StateBudgetExceeded | StageFailed | EnumerationMismatch
    | RowsDiffer | SnapshotChanged | RollbackFailed | ReconnectFailed

  datatype Severity = ControlText | SessionText | OtherText

  datatype FetchError =
    | Changed(cause: Cause) | Control(cause: Cause) | SessionFatal(cause: Cause) | FolderError(cause: Cause)
    | KilledMidway

  datatype Fetch<+T> = Ok(value: T) | Err(error: FetchError)

  type Classifier = Cause -> Severity

  function Raise(classify: Classifier, cause: Cause): (e: FetchError)
    ensures !e.Changed? && !e.KilledMidway?
    ensures (e.Control? <==> classify(cause).ControlText?) && (e.SessionFatal? <==> classify(cause).SessionText?)
  {
    match classify(cause)
    case ControlText => Control(cause)
    case SessionText => SessionFatal(cause)
    case OtherText => FolderError(cause)
  }

  function Fail<T>(classify: Classifier, a: Answer<T>): (e: FetchError)
    requires !a.Reply?
    ensures !e.Changed? && (e.KilledMidway? <==> a.Killed?)
  {
    if a.Killed? then KilledMidway else Raise(classify, CommandFailed(a.code))
  }

  function EndOf<T>(r: Fetch<T>): End {
    match r
    case Ok(_) => WentWell
    case Err(Changed(_)) => FoundChanged
    case Err(SessionFatal(_)) => LostSession
    case Err(_) => WentWrong
  }

  /** The estimate that admission control charges for one staged record: it covers every text of the
      record, as far as a machine word can count. */
  function EstimatedBytes(mailbox: string, uid: nat, row: Row): (bytes: nat)
    ensures bytes == Min(
      512 + ByteLength(mailbox) + |Digits(uid)| + ItemBytes(row.messageId) + ItemBytes(row.internalDate), U64_MAX)
  {
    var bytes := SaturatingAdd(512, ByteLength(mailbox));
    var bytes := SaturatingAdd(bytes, |Digits(uid)|);
    var bytes := SaturatingAdd(bytes, ItemBytes(row.messageId));
    SaturatingAdd(bytes, ItemBytes(row.internalDate))
  }

  function ItemBytes(item: Option<string>): nat { if item.Some? then ByteLength(item.value) else 0 }

  // ----- Undisturbed scans

  /** A page of records of this size always fits into an empty budget. */
  const LIGHT_RECORD := 256 * 1024

  ghost predicate LightFolder(mailbox: string, f: Folder) {
    forall u :: u in f.messages ==> EstimatedBytes(mailbox, u, AllItems(f.messages[u])) <= LIGHT_RECORD
  }

  ghost predicate LightPage(mailbox: string, page: map<nat, Row>) {
    forall u :: u in page ==> EstimatedBytes(mailbox, u, page[u]) <= LIGHT_RECORD
  }

  /** The charge for each record of a page. */
  function PageSizes(mailbox: string, uidPage: seq<nat>, page: map<nat, Row>): seq<nat>
    requires page.Keys == Elements(uidPage)
  {
    seq(|uidPage|, i requires 0 <= i < |uidPage| =>
      assert uidPage[i] in page.Keys; EstimatedBytes(mailbox, uidPage[i], page[uidPage[i]]))
  }

  lemma PageIsLight(mailbox: string, uidPage: seq<nat>, page: map<nat, Row>)
    requires page.Keys == Elements(uidPage)
    ensures |uidPage| <= 1024 && LightPage(mailbox, page) ==>
      Total(PageSizes(mailbox, uidPage, page)) <= MAX_ESTIMATED_FETCHED_STATE_BYTES
  {
    if LightPage(mailbox, page) {
      forall i | 0 <= i < |uidPage| ensures PageSizes(mailbox, uidPage, page)[i] <= LIGHT_RECORD {
        assert uidPage[i] in page.Keys;
      }
      LightTotal(PageSizes(mailbox, uidPage, page));
    }
  }

  lemma {:induction false} LightTotal(sizes: seq<nat>)
    requires forall i :: 0 <= i < |sizes| ==> sizes[i] <= LIGHT_RECORD
    ensures Total(sizes) <= |sizes| * LIGHT_RECORD
  {
    if sizes != [] {
      LightTotal(sizes[..|sizes| - 1]);
    }
  }

  /** The server is calm, the stage works, and the other side keeps off the budget. */
  ghost predicate Unhindered(server: Server, sink: StageMessageSink, budget: MessageStateBudget)
    reads server, sink, budget
  {
    Calm(server.script, server.advertises) && sink.faults == [] && budget.IsIdle()
  }

  /** Nothing disturbs the scan of folder `f`, and the message limit leaves room for the rest of it. */
  ghost predicate Settled(
    server: Server, sink: StageMessageSink, budget: MessageStateBudget, mailbox: string, f: Folder)
    reads server, sink, budget
  {
    && Unhindered(server, sink, budget)
    && server.view == server.world && At(server.world, Place(sink.side, mailbox)) == f
    && HasRoom(sink.stage, sink.tally, Place(sink.side, mailbox), f) && LightFolder(mailbox, f)
  }

  ghost predicate HasRoom(stage: Stage, tally: Tally, place: Place, f: Folder) {
    tally.count + |f.uids| <= FetchLimit(stage.durable) + |Rows(stage, place)|
  }

  ghost predicate Ready(server: Server, sink: StageMessageSink, budget: MessageStateBudget)
    reads server, sink, budget
  {
    && server.Valid() && sink.Valid() && budget.Valid() && StageTrusted(sink.stage, server.world)
    && (budget.serial ==> budget.Held(Other(sink.side)) == 0)
  }

  lemma ReadyIsValid(server: Server, sink: StageMessageSink, budget: MessageStateBudget)
    requires Ready(server, sink, budget)
    ensures ValidWorld(server.world)
  {
  }

  /** The pages of `mailbox` are arriving under the snapshot that its opening SELECT showed. */
  ghost predicate Scanning(
    server: Server, sink: StageMessageSink, mailbox: string, snapshot: Snapshot, opening: Folder)
    reads server, sink
  {
    var place := Place(sink.side, mailbox);
    && sink.tally.active == Some(mailbox)
    && place in sink.stage.folders
    && sink.stage.folders[place].cursor.snapshot == snapshot
    && ValidFolder(opening) && Matches(opening, snapshot)
    && Evolves(opening, At(server.view, place))
  }

  lemma NotBusy(work: Work)
    ensures Busy(work, work, 0) && Costs(work, work, 0)
  {
  }

  lemma WorkAdds(u: Work, v: Work, w: Work, selects: nat, more: nat, n: int)
    requires Busy(u, v, selects) && Costs(u, v, 0) && Busy(v, w, more)
    ensures Busy(u, w, selects + more) && (Costs(v, w, n) ==> Costs(u, w, n))
  {
  }

  lemma BusyAtMost(u: Work, v: Work, selects: nat, limit: nat)
    requires Busy(u, v, selects) && selects <= limit
    ensures Busy(u, v, limit)
  {
  }

  lemma CheckIsFree(before: Work, after: Work, answered: bool)
    requires after == With(before, answered)
    ensures Busy(before, after, 0) && (answered ==> after == before)
  {
  }

  lemma FetchIsCounted(before: Work, checked: Work, after: Work, messages: nat, bytes: nat, answered: bool)
    requires checked == With(before, true) && Asks(checked, after, messages, bytes, answered)
    ensures (answered ==> Fetches(before, after, messages, bytes)) && Busy(before, after, 0)
  {
  }

  /** Fetch one page: exactly the requested UIDs, with flags only under a tracked mod-sequence. */
  method FetchPage(
    server: Server, sink: StageMessageSink, classify: Classifier,
    mailbox: string, snapshot: Snapshot, uidPage: seq<nat>)
    returns (r: Fetch<map<nat, Row>>, responseBytes: nat)
    requires server.Valid() && StageTrusted(sink.stage, server.world)
    modifies server
    ensures server.Valid() && StageTrusted(sink.stage, server.world)
    ensures WorldEvolves(old(server.world), server.world) && WorldEvolves(old(server.view), server.view)
    ensures r.Err? ==> !r.error.Changed?
    ensures r.Ok? ==>
      && r.value.Keys == Elements(uidPage)
      && RowsOf(r.value, At(server.view, Place(sink.side, mailbox)), snapshot.highestModseq.Some?)
      && !LimitExceeded(sink.tally.count, |uidPage|, FetchLimit(sink.stage.durable))
    ensures server.TimeMoves() && Busy(old(server.work), server.work, 0)
    ensures r.Ok? ==> Fetches(old(server.work), server.work, |Elements(uidPage)|, responseBytes)
    ensures Calm(old(server.script), server.advertises) && old(server.view) == old(server.world) ==>
      Elements(uidPage) <= At(old(server.world), Place(sink.side, mailbox)).messages.Keys ==>
      !LimitExceeded(sink.tally.count, |uidPage|, FetchLimit(sink.stage.durable)) ==> r.Ok?
  {
    hide ImapServer.Lawful, ImapServer.Foretells;
    hide ImapServer.Calm, ImapServer.Evolves, ImapServer.ValidFolder, MessageStage.StageTrusted;
    hide MessageSink.FetchLimit, MessageSink.LimitExceeded, Collections.Elements, ImapServer.Fetches, ImapServer.Busy;
    hide ImapServer.With, ImapServer.Asks;
    var check := server.Check();
    CheckIsFree(old(server.work), server.work, check.Reply?);
    StageTrustLasts(sink.stage, old(server.world), server.world);
    if !check.Reply? {
      return Err(Fail(classify, check)), 0;
    }
    if LimitExceeded(sink.tally.count, |uidPage|, FetchLimit(sink.stage.durable)) {
      return Err(Raise(classify, MessageLimit)), 0;
    }
    var tracked := snapshot.highestModseq.Some?;
    var reply;
    ghost var before, viewBefore, work := server.world, server.view, server.work;
    reply, responseBytes := server.FetchMetadata(Place(sink.side, mailbox), Elements(uidPage), tracked);
    FetchIsCounted(old(server.work), work, server.work, |Elements(uidPage)|, responseBytes, reply.Reply?);
    StageTrustLasts(sink.stage, before, server.world);
    WorldEvolvesTransitive(old(server.world), before, server.world);
    WorldEvolvesTransitive(old(server.view), viewBefore, server.view);
    if !reply.Reply? {
      return Err(Fail(classify, reply)), responseBytes;
    }
    var fetched := reply.value;
    if fetched.Keys != Elements(uidPage) {
      return Err(Raise(classify, CoverageMismatch)), responseBytes;
    }
    var page := map u | u in fetched :: if tracked then fetched[u] else fetched[u].(flags := None);
    assert page.Keys == fetched.Keys;
    r := Ok(page);
  }

  /** Admit, stage and account one page; the reservation comes back in full. */
  method StagePage(
    sink: StageMessageSink, budget: MessageStateBudget, classify: Classifier,
    mailbox: string, snapshot: Snapshot, uidPage: seq<nat>, page: map<nat, Row>)
    returns (r: Fetch<()>)
    requires sink.Valid() && budget.Valid()
    requires budget.serial ==> budget.Held(Other(sink.side)) == 0
    requires uidPage != [] && page.Keys == Elements(uidPage) && |page| == |uidPage|
    requires sink.tally.active == Some(mailbox)
    requires !LimitExceeded(sink.tally.count, |page|, FetchLimit(sink.stage.durable))
    requires page.Keys !! Rows(sink.stage, Place(sink.side, mailbox)).Keys
    modifies sink, budget
    ensures old(sink.failures) <= sink.failures && (r.Ok? ==> sink.failures == old(sink.failures))
    ensures sink.Valid() && budget.Valid() && budget.Leaked(sink.side) == old(budget.Leaked(sink.side))
    ensures budget.serial ==> budget.Held(Other(sink.side)) == 0
    ensures sink.OnlyFolderChanged(mailbox) && sink.tally.active == old(sink.tally).active
    ensures r.Ok? ==>
      && budget.Held(sink.side) == old(budget.Held(sink.side))
      && InsertPage(old(sink.stage), Place(sink.side, mailbox), snapshot, uidPage[|uidPage| - 1], page) == Some(sink.stage)
      && sink.tally.count == old(sink.tally).count + |page|
    ensures old(sink.faults) == [] && old(budget.rival) == [] && old(budget.estimatedBytes) == 0 ==>
      |uidPage| <= 1024 && LightPage(mailbox, page) ==>
      InsertPage(old(sink.stage), Place(sink.side, mailbox), snapshot, uidPage[|uidPage| - 1], page).Some? ==>
      r.Ok? && sink.faults == [] && budget.rival == [] && budget.estimatedBytes == 0
    ensures r.Ok? && old(budget.rival) == [] ==>
      old(budget.estimatedBytes) + Total(PageSizes(mailbox, uidPage, page)) <= MAX_ESTIMATED_FETCHED_STATE_BYTES
    ensures r.Err? ==> sink.stage == old(sink.stage) && !r.error.Changed? && !r.error.KilledMidway?
  {
    hide LightPage, PageSizes, StateBudget.Total, MessageSink.TallyAgrees, MessageSink.OnlyFolder;
    hide MessageSink.FetchLimit;
    OnlyFolderReflexive(sink.stage, sink.tally, Place(sink.side, mailbox));
    var sizes := PageSizes(mailbox, uidPage, page);
    PageIsLight(mailbox, uidPage, page);
    var admitted := budget.ReservePage(sink.side, sizes);
    if !admitted {
      return Err(Raise(classify, StateBudgetExceeded));
    }
    var staged := sink.InsertPageAndCheckpoint(mailbox, snapshot, uidPage[|uidPage| - 1], page);
    if !staged.Done? {
      return Err(Raise(classify, StageFailed));
    }
    budget.ReleaseBytes(sink.side, Total(sizes));
    r := Ok(());
  }

  /** A listing taken during the scan, up to date enough for every page cut from it. */
  ghost predicate ListedDuringScan(server: Server, place: Place, opening: Folder, listing: Folder)
    reads server
  {
    ValidFolder(listing) && Evolves(opening, listing) && Evolves(listing, At(server.view, place))
  }

  /** The page is the next piece of the listing and lies above everything staged. */
  ghost predicate NextPage(rows: map<nat, Row>, listing: Folder, uidPage: seq<nat>, to: nat) {
    && |rows| < to <= |listing.uids|
    && uidPage == listing.uids[|rows|..to]
    && forall u :: u in rows ==> u < uidPage[0]
  }

  lemma SliceIncreases(s: seq<nat>, from: nat, to: nat)
    requires StrictlyIncreasing(s) && from <= to <= |s|
    ensures StrictlyIncreasing(s[from..to])
  {
  }

  lemma NextPageIsNew(rows: map<nat, Row>, listing: Folder, uidPage: seq<nat>, to: nat)
    requires ValidFolder(listing) && NextPage(rows, listing, uidPage, to)
    ensures StrictlyIncreasing(uidPage) && |Elements(uidPage)| == |uidPage|
    ensures Elements(uidPage) !! rows.Keys && uidPage != []
  {
    SliceIncreases(listing.uids, |rows|, to);
    IncreasingHasNoDuplicates(uidPage);
    forall u | u in uidPage ensures u !in rows {
      var i :| 0 <= i < |uidPage| && uidPage[i] == u;
    }
  }

  lemma NextPageKeepsTrust(
    e: StagedFolder, next: StagedFolder, page: map<nat, Row>, uidPage: seq<nat>, to: nat,
    opening: Folder, listing: Folder, fetched: Folder, now: Folder)
    requires ValidFolder(opening) && ValidFolder(listing) && ValidFolder(fetched) && ValidFolder(now)
    requires Matches(opening, e.cursor.snapshot)
    requires Evolves(opening, listing) && Evolves(listing, now)
    requires Evolves(opening, fetched) && Evolves(fetched, now)
    requires NextPage(e.rows, listing, uidPage, to)
    requires page.Keys == Elements(uidPage) && RowsOf(page, fetched, e.cursor.snapshot.highestModseq.Some?)
    requires Trustworthy(e, now)
    requires next.cursor.snapshot == e.cursor.snapshot && next.rows == e.rows + page
    ensures Trustworthy(next, now)
  {
    PageKeepsTrust(e, next, page, to, opening, listing, fetched, now);
  }

  lemma StagedPageIsTrusted(
    s: Stage, t: Stage, place: Place, snapshot: Snapshot, lastUid: nat, page: map<nat, Row>, w: World)
    requires StageTrusted(s, w) && InsertPage(s, place, snapshot, lastUid, page) == Some(t)
    requires Trustworthy(t.folders[place], At(w, place))
    ensures StageTrusted(t, w)
  {
    EntryKeepsStageTrusted(s, place, t.folders[place], w);
  }

  /** A page of an undisturbed folder is still there, and the message limit admits it. */
  lemma NextPageHasRoom(stage: Stage, tally: Tally, place: Place, f: Folder, uidPage: seq<nat>, to: nat)
    requires ValidFolder(f) && NextPage(Rows(stage, place), f, uidPage, to)
    ensures Elements(uidPage) <= f.messages.Keys
    ensures HasRoom(stage, tally, place, f) ==> !LimitExceeded(tally.count, |uidPage|, FetchLimit(stage.durable))
  {
    forall u | u in uidPage ensures u in f.messages {
      assert u in f.uids;
    }
  }

  /** Under its own snapshot a page always goes in, and its rows join those already staged. */
  lemma PageGoesIn(s: Stage, place: Place, snapshot: Snapshot, lastUid: nat, page: map<nat, Row>)
    requires place in s.folders && s.folders[place].cursor.snapshot == snapshot
    requires page.Keys !! Rows(s, place).Keys
    ensures var t := InsertPage(s, place, snapshot, lastUid, page);
      && t.Some? && place in t.value.folders && t.value.durable == s.durable
      && t.value.folders[place].cursor.snapshot == snapshot
      && Rows(t.value, place) == t.value.folders[place].rows == s.folders[place].rows + page
      && Rows(t.value, place).Keys == Rows(s, place).Keys + page.Keys
      && |Rows(t.value, place)| == |Rows(s, place)| + |page|
  {
    DisjointUnionSize(Rows(s, place), page);
  }

  /** An unfinished entry of a tidy stage stays so. */
  ghost predicate KeepsTidy(s: Stage, t: Stage, p: Place) {
    StageTidy(s) && Unfinished(s, p) ==> StageTidy(t) && Unfinished(t, p)
  }

  predicate Unfinished(s: Stage, p: Place) {
    p in s.folders && !s.folders[p].cursor.completed
  }

  lemma KeepsTidyReflexive(s: Stage, p: Place)
    ensures KeepsTidy(s, s, p)
  {
  }

  lemma KeepsTidyTransitive(s: Stage, t: Stage, u: Stage, p: Place)
    requires KeepsTidy(s, t, p) && KeepsTidy(t, u, p)
    ensures KeepsTidy(s, u, p)
  {
  }

  lemma LastIsGreatest(uidPage: seq<nat>, page: map<nat, Row>)
    requires StrictlyIncreasing(uidPage) && uidPage != [] && page.Keys == Elements(uidPage)
    ensures IsGreatestUid(page, uidPage[|uidPage| - 1])
  {
    var last := uidPage[|uidPage| - 1];
    assert last in page.Keys;
    forall u | u in page ensures u <= last {
      assert u in page.Keys;
      var k :| 0 <= k < |uidPage| && uidPage[k] == u;
    }
  }

  lemma NextPageIsAbove(rows: map<nat, Row>, listing: Folder, uidPage: seq<nat>, to: nat)
    requires ValidFolder(listing) && NextPage(rows, listing, uidPage, to)
    ensures uidPage != [] && StrictlyIncreasing(uidPage)
    ensures forall u :: u in rows ==> u <= uidPage[|uidPage| - 1]
  {
    NextPageIsNew(rows, listing, uidPage, to);
    assert uidPage[0] <= uidPage[|uidPage| - 1];
  }

  /** The next page of a listing keeps the stage tidy. */
  lemma AdmittedPageIsTidy(
    s: Stage, place: Place, snapshot: Snapshot, uidPage: seq<nat>, page: map<nat, Row>, to: nat, listing: Folder)
    requires place in s.folders && s.folders[place].cursor.snapshot == snapshot
    requires ValidFolder(listing) && NextPage(Rows(s, place), listing, uidPage, to)
    requires page.Keys == Elements(uidPage) && uidPage != []
    ensures InsertPage(s, place, snapshot, uidPage[|uidPage| - 1], page).Some?
    ensures KeepsTidy(s, InsertPage(s, place, snapshot, uidPage[|uidPage| - 1], page).value, place)
  {
    hide MessageStage.StageTidy, NextPage, ImapServer.ValidFolder, Collections.Elements, Collections.StrictlyIncreasing;
    hide MessageStage.IsGreatestUid;
    NextPageIsAbove(Rows(s, place), listing, uidPage, to);
    LastIsGreatest(uidPage, page);
    if StageTidy(s) && Unfinished(s, place) {
      PageIsTidy(s, place, snapshot, uidPage[|uidPage| - 1], page);
    }
  }

  /** The rows of the page, and only these, have joined. */
  ghost predicate Added(before: map<nat, Row>, after: map<nat, Row>, uidPage: seq<nat>) {
    after.Keys == before.Keys + Elements(uidPage) && |after| == |before| + |uidPage|
  }

  lemma RowsAreLight(mailbox: string, page: map<nat, Row>, f: Folder, tracked: bool)
    requires LightFolder(mailbox, f) && RowsOf(page, f, tracked)
    ensures LightPage(mailbox, page)
  {
  }

  lemma AdmittedPageIsTrusted(
    s: Stage, place: Place, snapshot: Snapshot, uidPage: seq<nat>, page: map<nat, Row>, to: nat,
    opening: Folder, listing: Folder, fetched: Folder, w: World)
    requires ValidFolder(opening) && ValidFolder(listing) && ValidFolder(fetched) && ValidFolder(At(w, place))
    requires place in s.folders && s.folders[place].cursor.snapshot == snapshot && StageTrusted(s, w)
    requires Matches(opening, snapshot)
    requires Evolves(opening, listing) && Evolves(listing, fetched)
    requires Evolves(opening, fetched) && Evolves(fetched, At(w, place))
    requires NextPage(Rows(s, place), listing, uidPage, to)
    requires page.Keys == Elements(uidPage) && RowsOf(page, fetched, snapshot.highestModseq.Some?)
    requires uidPage != []
    ensures InsertPage(s, place, snapshot, uidPage[|uidPage| - 1], page).Some?
    ensures StageTrusted(InsertPage(s, place, snapshot, uidPage[|uidPage| - 1], page).value, w)
  {
    hide ImapServer.Evolves, ImapServer.ValidFolder, MessageStage.Matches, MessageStage.RowsOf, NextPage;
    hide MessageStage.Trustworthy;
    var t := InsertPage(s, place, snapshot, uidPage[|uidPage| - 1], page).value;
    EvolvesTransitive(listing, fetched, At(w, place));
    NextPageKeepsTrust(s.folders[place], t.folders[place], page, uidPage, to, opening, listing, fetched, At(w, place));
    StagedPageIsTrusted(s, t, place, snapshot, uidPage[|uidPage| - 1], page, w);
  }

  /** Admit, stage and account a page that was just fetched. */
  method AdmitPage(
    server: Server, sink: StageMessageSink, budget: MessageStateBudget, classify: Classifier,
    mailbox: string, snapshot: Snapshot, uidPage: seq<nat>, page: map<nat, Row>,
    ghost to: nat, ghost opening: Folder, ghost listing: Folder)
    returns (r: Fetch<()>)
    requires Ready(server, sink, budget) && Scanning(server, sink, mailbox, snapshot, opening)
    requires ListedDuringScan(server, Place(sink.side, mailbox), opening, listing)
    requires NextPage(Rows(sink.stage, Place(sink.side, mailbox)), listing, uidPage, to)
    requires page.Keys == Elements(uidPage)
    requires RowsOf(page, At(server.view, Place(sink.side, mailbox)), snapshot.highestModseq.Some?)
    requires !LimitExceeded(sink.tally.count, |uidPage|, FetchLimit(sink.stage.durable))
    modifies sink, budget
    ensures old(sink.failures) <= sink.failures && (r.Ok? ==> sink.failures == old(sink.failures))
    ensures Ready(server, sink, budget) && Scanning(server, sink, mailbox, snapshot, opening)
    ensures sink.OnlyFolderChanged(mailbox) && budget.Leaked(sink.side) == old(budget.Leaked(sink.side))
    ensures r.Err? ==> !r.error.Changed?
    ensures KeepsTidy(old(sink.stage), sink.stage, Place(sink.side, mailbox))
    ensures r.Ok? ==>
      && budget.Held(sink.side) == old(budget.Held(sink.side))
      && Added(old(Rows(sink.stage, Place(sink.side, mailbox))), Rows(sink.stage, Place(sink.side, mailbox)), uidPage)
    ensures old(Settled(server, sink, budget, mailbox, opening)) && |uidPage| <= 1024 ==>
      r.Ok? && Settled(server, sink, budget, mailbox, opening)
  {
    hide ImapServer.Lawful, ImapServer.Foretells;
    hide ImapServer.Calm, ImapServer.Evolves, ImapServer.ValidFolder, LightFolder, LightPage, MessageSink.OnlyFolder;
    hide MessageSink.TallyAgrees, MessageSink.FetchLimit, MessageSink.LimitExceeded, MessageStage.Trustworthy;
    hide MessageStage.RowsOf, MessageStage.Matches, MessageStage.InsertPage, MessageStage.StageTrusted, NextPage;
    hide MessageStage.Rows, Collections.Elements, KeepsTidy;
    ghost var place, stage, fetched := Place(sink.side, mailbox), sink.stage, At(server.view, Place(sink.side, mailbox));
    NextPageIsNew(Rows(stage, place), listing, uidPage, to);
    MapSize(page);
    PageGoesIn(stage, place, snapshot, uidPage[|uidPage| - 1], page);
    AdmittedPageIsTrusted(stage, place, snapshot, uidPage, page, to, opening, listing, fetched, server.world);
    if LightFolder(mailbox, fetched) {
      RowsAreLight(mailbox, page, fetched, snapshot.highestModseq.Some?);
    }
    AdmittedPageIsTidy(stage, place, snapshot, uidPage, page, to, listing);
    KeepsTidyReflexive(stage, place);
    var staged := StagePage(sink, budget, classify, mailbox, snapshot, uidPage, page);
    if staged.Err? {
      return Err(staged.error);
    }
    r := Ok(());
  }

  /** Fetch and admit the next page of a listing. */
  method ConsumePage(
    server: Server, sink: StageMessageSink, budget: MessageStateBudget, classify: Classifier,
    mailbox: string, snapshot: Snapshot, uidPage: seq<nat>,
    ghost to: nat, ghost opening: Folder, ghost listing: Folder)
    returns (r: Fetch<nat>)
    requires Ready(server, sink, budget) && Scanning(server, sink, mailbox, snapshot, opening)
    requires ListedDuringScan(server, Place(sink.side, mailbox), opening, listing)
    requires NextPage(Rows(sink.stage, Place(sink.side, mailbox)), listing, uidPage, to)
    modifies server, sink, budget
    ensures old(sink.failures) <= sink.failures && (r.Ok? ==> sink.failures == old(sink.failures))
    ensures Ready(server, sink, budget) && Scanning(server, sink, mailbox, snapshot, opening)
    ensures WorldEvolves(old(server.world), server.world) && WorldEvolves(old(server.view), server.view)
    ensures server.TimeMoves() && Busy(old(server.work), server.work, 0)
    ensures r.Ok? ==> Fetches(old(server.work), server.work, |uidPage|, r.value)
    ensures ListedDuringScan(server, Place(sink.side, mailbox), opening, listing)
    ensures sink.OnlyFolderChanged(mailbox) && budget.Leaked(sink.side) == old(budget.Leaked(sink.side))
    ensures r.Err? ==> !r.error.Changed?
    ensures KeepsTidy(old(sink.stage), sink.stage, Place(sink.side, mailbox))
    ensures r.Ok? ==>
      && budget.Held(sink.side) == old(budget.Held(sink.side))
      && Added(old(Rows(sink.stage, Place(sink.side, mailbox))), Rows(sink.stage, Place(sink.side, mailbox)), uidPage)
    ensures old(Settled(server, sink, budget, mailbox, opening)) && listing == opening && |uidPage| <= 1024 ==>
      r.Ok? && Settled(server, sink, budget, mailbox, opening)
  {
    hide ImapServer.Lawful, ImapServer.Foretells;
    hide ImapServer.Calm, ImapServer.Evolves, ImapServer.ValidFolder, LightFolder, NextPage, MessageSink.OnlyFolder;
    hide MessageSink.TallyAgrees, MessageSink.FetchLimit, MessageSink.LimitExceeded, MessageStage.StageTrusted;
    hide MessageStage.RowsOf, MessageStage.Matches, Collections.Elements, KeepsTidy;
    hide Collections.StrictlyIncreasing, ImapServer.Fetches, MessageStage.Rows, Added;
    ghost var place := Place(sink.side, mailbox);
    ghost var before := At(server.view, place);
    OnlyFolderReflexive(sink.stage, sink.tally, place);
    KeepsTidyReflexive(sink.stage, place);
    NextPageIsNew(Rows(sink.stage, place), listing, uidPage, to);
    NextPageHasRoom(sink.stage, sink.tally, place, listing, uidPage, to);
    var fetched, responseBytes := FetchPage(server, sink, classify, mailbox, snapshot, uidPage);
    EvolvesTransitive(opening, before, At(server.view, place));
    EvolvesTransitive(listing, before, At(server.view, place));
    if fetched.Err? {
      return Err(fetched.error);
    }
    var admitted := AdmitPage(server, sink, budget, classify, mailbox, snapshot, uidPage, fetched.value, to, opening, listing);
    r := if admitted.Err? then Err(admitted.error) else Ok(responseBytes);
  }

  /** No staged UID exceeds the bound. */
  ghost predicate RowsUpTo(rows: map<nat, Row>, bound: nat) {
    forall u :: u in rows ==> u <= bound
  }

  lemma NoRowsUpTo(bound: nat)
    ensures RowsUpTo(map[], bound)
  {
  }

  lemma PageRaisesBound(rows: map<nat, Row>, more: map<nat, Row>, uidPage: seq<nat>, bound: nat)
    requires StrictlyIncreasing(uidPage) && uidPage != []
    requires RowsUpTo(rows, bound) && bound < uidPage[0] && Added(rows, more, uidPage)
    ensures RowsUpTo(more, uidPage[|uidPage| - 1]) && |more| == |rows| + |uidPage|
  {
    forall u | u in more ensures u <= uidPage[|uidPage| - 1] {
      assert u in more.Keys;
      if u !in rows {
        var k :| 0 <= k < |uidPage| && uidPage[k] == u;
      }
    }
  }

  /** The UIDs that a listing returned for the sequence numbers after `from`. */
  ghost predicate Cut(listing: Folder, uids: seq<nat>, from: nat, to: nat) {
    from <= to <= |listing.uids| && uids == listing.uids[from..to]
  }

  lemma CutIsAscending(listing: Folder, uids: seq<nat>, from: nat, to: nat)
    requires ValidFolder(listing) && Cut(listing, uids, from, to)
    ensures |uids| == to - from && StrictlyIncreasing(uids)
    ensures forall i :: 0 <= i < |uids| ==> 1 <= uids[i] < 0x1_0000_0000
  {
    SliceIncreases(listing.uids, from, to);
    forall i | 0 <= i < |uids| ensures 1 <= uids[i] < 0x1_0000_0000 {
      assert uids[i] in listing.uids;
    }
  }

  lemma PageOfCut(uids: seq<nat>, offset: nat, end: nat)
    requires StrictlyIncreasing(uids) && offset < end <= |uids|
    ensures var page := uids[offset..end];
      StrictlyIncreasing(page) && |page| == end - offset && page[0] == uids[offset] && page[|page| - 1] == uids[end - 1]
  {
    SliceIncreases(uids, offset, end);
  }

  lemma CutPage(listing: Folder, uids: seq<nat>, from: nat, to: nat, rows: map<nat, Row>, bound: nat, offset: nat, end: nat)
    requires Cut(listing, uids, from, to) && offset < end <= |uids|
    requires |rows| == from + offset && RowsUpTo(rows, bound) && bound < uids[offset]
    ensures NextPage(rows, listing, uids[offset..end], from + end)
  {
    assert uids[offset..end] == listing.uids[from + offset..from + end];
  }

  /** No page of a listing is smaller than the planner asks, unless the listing ends. */
  ghost predicate FillsPage(uids: seq<nat>, offset: nat, end: int, size: nat)
    requires offset <= |uids|
  {
    |uids| <= MESSAGE_UID_ENUMERATION_PAGE_SIZE ==> end - offset == PageLimit(uids[offset..], size)
  }

  /** Encode the next page of a listing. */
  method CutNextPage(
    uids: seq<nat>, offset: nat, maxCount: nat,
    ghost rows: map<nat, Row>, ghost bound: nat, ghost from: nat, ghost to: nat, ghost listing: Folder)
    returns (end: nat, uidPage: seq<nat>)
    requires ValidFolder(listing) && Cut(listing, uids, from, to) && offset < |uids|
    requires |rows| == from + offset && RowsUpTo(rows, bound) && bound < uids[offset]
    ensures offset < end <= |uids| && |uidPage| == end - offset <= (if maxCount == 0 then 1 else maxCount)
    ensures FillsPage(uids, offset, end, maxCount)
    ensures NextPage(rows, listing, uidPage, from + end) && StrictlyIncreasing(uidPage)
    ensures bound < uidPage[0] && uidPage[|uidPage| - 1] == uids[end - 1]
  {
    hide ImapServer.ValidFolder, Cut, NextPage, RowsUpTo, Collections.StrictlyIncreasing;
    hide UidPages.Decode, UidPages.Runs, UidPages.Expand;
    CutIsAscending(listing, uids, from, to);
    var uidSet;
    end, uidSet := PlanPage(uids, offset, maxCount);
    uidPage := uids[offset..end];
    CutPage(listing, uids, from, to, rows, bound, offset, end);
    PageOfCut(uids, offset, end);
  }

  /** The planner follows the size of the reply to one page. */
  ghost predicate Adapts(planner: Planner, next: Planner, messages: int, before: Work, after: Work) {
    && planner.least <= planner.most && messages >= 0 && before.received <= after.received
    && next == Observe(planner, messages, after.received - before.received)
    && Gains(before, after, 0, messages)
  }

  lemma PageAdapts(planner: Planner, messages: nat, bytes: nat, before: Work, after: Work)
    requires planner.least <= planner.most && Fetches(before, after, messages, bytes)
    ensures Adapts(planner, Observe(planner, messages, bytes), messages, before, after)
  {
  }

  lemma PagesGain(
    begun: Work, before: Work, after: Work, offset: int, planner: Planner, next: Planner, messages: int)
    requires Busy(begun, before, 0) && Busy(before, after, 0)
    requires Gains(begun, before, 0, offset) && Adapts(planner, next, messages, before, after)
    ensures Busy(begun, after, 0) && Gains(begun, after, 0, offset + messages)
  {
  }

  lemma BusyAdds(begun: Work, before: Work, after: Work)
    requires Busy(begun, before, 0) && Busy(before, after, 0)
    ensures Busy(begun, after, 0)
  {
  }

  lemma ListingCosts(begun: Work, before: Work, listed: Work, after: Work, done: int, n: int)
    requires Costs(begun, before, done) && Gains(before, listed, n, 0) && Gains(listed, after, 0, n)
    ensures Costs(begun, after, done + n)
  {
  }

  lemma NoGainYet(work: Work)
    ensures Busy(work, work, 0) && Gains(work, work, 0, 0)
  {
  }

  /** These pages follow the schedule, and their replies are all that was received since. */
  ghost predicate Paged(planner: Planner, pages: seq<Page>, total: nat, begun: nat, now: nat) {
    planner.least <= planner.most && Scheduled(planner, pages, total) && now == begun + Bytes(pages)
  }

  /** The schedule has led to this planner, after so many messages. */
  ghost predicate Follows(planner: Planner, pages: seq<Page>, next: Planner, messages: int) {
    planner.least <= planner.most && Follow(planner, pages) == next && Messages(pages) == messages
  }

  lemma FollowsMeans(planner: Planner, pages: seq<Page>, next: Planner, messages: int)
    requires Follows(planner, pages, next, messages)
    ensures Messages(pages) == messages
  {
  }

  lemma NoPagesYet(planner: Planner, total: nat, received: nat)
    requires planner.least <= planner.most
    ensures Paged(planner, [], total, received, received) && Follows(planner, [], planner, 0)
  {
  }

  function PageOf(size: nat, messages: nat, before: Work, after: Work): Page {
    Page(size, messages, if before.received <= after.received then after.received - before.received else 0)
  }

  lemma NextPageFollows(
    planner: Planner, pages: seq<Page>, sizing: Planner, next: Planner, uids: seq<nat>, offset: nat, end: nat,
    begun: nat, before: Work, after: Work)
    requires |uids| <= MESSAGE_UID_ENUMERATION_PAGE_SIZE && offset < |uids| && offset < end
    requires Paged(planner, pages, |uids|, begun, before.received) && Follows(planner, pages, sizing, offset)
    requires FillsPage(uids, offset, end, sizing.size) && Adapts(sizing, next, end - offset, before, after)
    ensures
      var page := PageOf(sizing.size, end - offset, before, after);
      Paged(planner, pages + [page], |uids|, begun, after.received) && Follows(planner, pages + [page], next, end)
  {
    hide Scheduled, UidPages.Observe;
    PageJoins(planner, pages, PageOf(sizing.size, end - offset, before, after), |uids|);
  }

  /** The pages of a listing continue the schedule of those before it. */
  lemma ListingFollows(
    planner: Planner, pages: seq<Page>, sizing: Planner, more: seq<Page>, next: Planner, n: nat, total: nat,
    messages: nat, begun: nat, before: nat, after: nat)
    requires Paged(planner, pages, total, begun, before) && Follows(planner, pages, sizing, messages)
    requires Paged(sizing, more, n, before, after) && Follows(sizing, more, next, n)
    requires messages % MESSAGE_UID_ENUMERATION_PAGE_SIZE == 0 && messages <= total
    requires n == Min(MESSAGE_UID_ENUMERATION_PAGE_SIZE, total - messages)
    ensures Paged(planner, pages + more, total, begun, after) && Follows(planner, pages + more, next, messages + n)
    ensures (messages + n) % MESSAGE_UID_ENUMERATION_PAGE_SIZE == 0 || messages + n == total
  {
    hide Scheduled, Follow, Messages, Bytes;
    SchedulesJoin(planner, pages, more, n, total);
  }

  lemma ListingIsValid(server: Server, place: Place, opening: Folder, listing: Folder)
    requires ListedDuringScan(server, place, opening, listing)
    ensures ValidFolder(listing)
  {
  }

  /** Fetch and stage the next page of a listing. */
  method ConsumeNext(
    server: Server, sink: StageMessageSink, budget: MessageStateBudget, classify: Classifier,
    mailbox: string, snapshot: Snapshot, uids: seq<nat>, offset: nat, planner: Planner,
    ghost bound: nat, ghost from: nat, ghost to: nat, ghost opening: Folder, ghost listing: Folder)
    returns (r: Fetch<Planner>, end: nat)
    requires Ready(server, sink, budget) && Scanning(server, sink, mailbox, snapshot, opening)
    requires ListedDuringScan(server, Place(sink.side, mailbox), opening, listing)
    requires Cut(listing, uids, from, to) && offset < |uids|
    requires |Rows(sink.stage, Place(sink.side, mailbox))| == from + offset
    requires RowsUpTo(Rows(sink.stage, Place(sink.side, mailbox)), bound) && bound < uids[offset]
    requires planner.least <= planner.most
    modifies server, sink, budget
    ensures old(sink.failures) <= sink.failures && (r.Ok? ==> sink.failures == old(sink.failures))
    ensures Ready(server, sink, budget) && Scanning(server, sink, mailbox, snapshot, opening)
    ensures ListedDuringScan(server, Place(sink.side, mailbox), opening, listing)
    ensures WorldEvolves(old(server.world), server.world)
    ensures sink.OnlyFolderChanged(mailbox) && budget.Leaked(sink.side) == old(budget.Leaked(sink.side))
    ensures r.Err? ==> !r.error.Changed?
    ensures KeepsTidy(old(sink.stage), sink.stage, Place(sink.side, mailbox))
    ensures r.Ok? ==>
      && offset < end <= |uids| && r.value.least <= r.value.most
      && budget.Held(sink.side) == old(budget.Held(sink.side))
      && |Rows(sink.stage, Place(sink.side, mailbox))| == from + end
      && RowsUpTo(Rows(sink.stage, Place(sink.side, mailbox)), uids[end - 1])
      && r.value.most == planner.most && r.value.size <= planner.most
    ensures server.TimeMoves() && Busy(old(server.work), server.work, 0)
    ensures r.Ok? ==> Adapts(planner, r.value, end - offset, old(server.work), server.work)
    ensures r.Ok? ==> FillsPage(uids, offset, end, planner.size)
    ensures old(Settled(server, sink, budget, mailbox, opening)) && listing == opening && planner.size <= 1024 ==>
      r.Ok? && Settled(server, sink, budget, mailbox, opening)
  {
    hide ImapServer.Lawful, ImapServer.Foretells;
    hide ImapServer.ValidFolder, ImapServer.Evolves, ImapServer.WorldEvolves, ImapServer.ValidWorld, ImapServer.Calm;
    hide MessageStage.StageTrusted, MessageSink.TallyAgrees, MessageSink.OnlyFolder, MessageStage.Matches;
    hide Cut, NextPage, RowsUpTo, Settled, Collections.StrictlyIncreasing, Collections.Elements, MessageStage.Rows;
    hide KeepsTidy;
    hide ImapServer.Fetches, ImapServer.Busy, Adapts, FillsPage, Ready, Scanning, ListedDuringScan, Added;
    hide StateBudget.MessageStateBudget.Held, StateBudget.MessageStateBudget.Leaked, UidPages.Observe;
    ListingIsValid(server, Place(sink.side, mailbox), opening, listing);
    ghost var rows := Rows(sink.stage, Place(sink.side, mailbox));
    var uidPage;
    end, uidPage := CutNextPage(uids, offset, planner.size, rows, bound, from, to, listing);
    var consumed := ConsumePage(server, sink, budget, classify, mailbox, snapshot, uidPage,
                                from + end, opening, listing);
    if consumed.Err? {
      return Err(consumed.error), end;
    }
    PageRaisesBound(rows, Rows(sink.stage, Place(sink.side, mailbox)), uidPage, bound);
    PageAdapts(planner, |uidPage|, consumed.value, old(server.work), server.work);
    r := Ok(Observe(planner, |uidPage|, consumed.value));
  }

  /** Cut one listing into pages and stage them all, whatever sizes the planner picks. */
  method ConsumeListing(
    server: Server, sink: StageMessageSink, budget: MessageStateBudget, classify: Classifier,
    mailbox: string, snapshot: Snapshot, uids: seq<nat>, planner: Planner,
    ghost bound: nat, ghost from: nat, ghost to: nat, ghost opening: Folder, ghost listing: Folder)
    returns (r: Fetch<Planner>, ghost pages: seq<Page>)
    requires Ready(server, sink, budget) && Scanning(server, sink, mailbox, snapshot, opening)
    requires ListedDuringScan(server, Place(sink.side, mailbox), opening, listing)
    requires Cut(listing, uids, from, to)
    requires |Rows(sink.stage, Place(sink.side, mailbox))| == from
    requires RowsUpTo(Rows(sink.stage, Place(sink.side, mailbox)), bound) && (uids != [] ==> bound < uids[0])
    requires planner.least <= planner.most && |uids| <= MESSAGE_UID_ENUMERATION_PAGE_SIZE
    modifies server, sink, budget
    ensures old(sink.failures) <= sink.failures && (r.Ok? ==> sink.failures == old(sink.failures))
    ensures Ready(server, sink, budget) && Scanning(server, sink, mailbox, snapshot, opening)
    ensures WorldEvolves(old(server.world), server.world)
    ensures sink.OnlyFolderChanged(mailbox) && budget.Leaked(sink.side) == old(budget.Leaked(sink.side))
    ensures r.Err? ==> !r.error.Changed?
    ensures KeepsTidy(old(sink.stage), sink.stage, Place(sink.side, mailbox))
    ensures r.Ok? ==>
      && r.value.least <= r.value.most
      && budget.Held(sink.side) == old(budget.Held(sink.side))
      && |Rows(sink.stage, Place(sink.side, mailbox))| == to
      && RowsUpTo(Rows(sink.stage, Place(sink.side, mailbox)), if uids == [] then bound else uids[|uids| - 1])
      && (planner.size <= planner.most ==> r.value.size <= r.value.most == planner.most)
    ensures server.TimeMoves() && Busy(old(server.work), server.work, 0)
    ensures r.Ok? ==>
      && Gains(old(server.work), server.work, 0, |uids|)
      && Paged(planner, pages, |uids|, old(server.work.received), server.work.received)
      && Follows(planner, pages, r.value, |uids|)
    ensures old(Settled(server, sink, budget, mailbox, opening)) && listing == opening ==>
      planner.size <= planner.most <= 1024 ==> r.Ok? && Settled(server, sink, budget, mailbox, opening)
  {
    hide ImapServer.Lawful, ImapServer.Foretells;
    hide ImapServer.ValidFolder, ImapServer.Evolves, ImapServer.WorldEvolves;
    hide MessageStage.StageTrusted, MessageSink.TallyAgrees, MessageSink.OnlyFolder;
    hide Cut, RowsUpTo, MessageStage.Matches, Settled, ImapServer.ValidWorld, MessageStage.Rows, KeepsTidy;
    hide ImapServer.Busy, ImapServer.Gains, Adapts, FillsPage, Paged, Follows;
    pages := [];
    NoPagesYet(planner, |uids|, server.work.received);
    NoGainYet(server.work);
    ghost var place := Place(sink.side, mailbox);
    WorldEvolvesReflexive(server.world);
    OnlyFolderReflexive(sink.stage, sink.tally, place);
    KeepsTidyReflexive(sink.stage, place);
    CutIsAscending(listing, uids, from, to);
    var sizing, offset := planner, 0;
    while offset < |uids|
      invariant offset <= |uids| && sizing.least <= sizing.most
      invariant Ready(server, sink, budget) && Scanning(server, sink, mailbox, snapshot, opening)
      invariant ListedDuringScan(server, place, opening, listing)
      invariant WorldEvolves(old(server.world), server.world)
      invariant sink.OnlyFolderChanged(mailbox) && budget.Leaked(sink.side) == old(budget.Leaked(sink.side))
      invariant budget.Held(sink.side) == old(budget.Held(sink.side))
      invariant |Rows(sink.stage, place)| == from + offset
      invariant RowsUpTo(Rows(sink.stage, place), if offset == 0 then bound else uids[offset - 1])
      invariant planner.size <= planner.most ==> sizing.size <= sizing.most == planner.most
      invariant server.TimeMoves() && Busy(old(server.work), server.work, 0)
      invariant Gains(old(server.work), server.work, 0, offset) && sink.failures == old(sink.failures)
      invariant Paged(planner, pages, |uids|, old(server.work.received), server.work.received)
      invariant Follows(planner, pages, sizing, offset)
      invariant KeepsTidy(old(sink.stage), sink.stage, place)
      invariant old(Settled(server, sink, budget, mailbox, opening)) && listing == opening ==>
        planner.size <= planner.most <= 1024 ==> Settled(server, sink, budget, mailbox, opening)
      decreases |uids| - offset
    {
      ghost var world, stage, tally, work := server.world, sink.stage, sink.tally, server.work;
      var consumed, end := ConsumeNext(server, sink, budget, classify, mailbox, snapshot, uids, offset, sizing,
                                       if offset == 0 then bound else uids[offset - 1], from, to, opening, listing);
      BusyAdds(old(server.work), work, server.work);
      WorldEvolvesTransitive(old(server.world), world, server.world);
      OnlyFolderTransitive(old(sink.stage), old(sink.tally), stage, tally, sink.stage, sink.tally, place);
      KeepsTidyTransitive(old(sink.stage), stage, sink.stage, place);
      if consumed.Err? {
        return Err(consumed.error), pages;
      }
      NextPageFollows(planner, pages, sizing, consumed.value, uids, offset, end,
                      old(server.work.received), work, server.work);
      pages := pages + [PageOf(sizing.size, end - offset, work, server.work)];
      PagesGain(old(server.work), work, server.work, offset, sizing, consumed.value, end - offset);
      sizing, offset := consumed.value, end;
    }
    r := Ok(sizing);
  }

  /** The last of the first `count` UIDs. */
  ghost function LastOf(f: Folder, count: nat): Option<nat> {
    if 0 < count <= |f.uids| then Some(f.uids[count - 1]) else None
  }

  lemma ListingEndIsNext(p: Progress, exists_: nat)
    requires 1 <= p.next <= exists_ <= MAX_UID
    ensures p.next <= ListingEnd(p, exists_) <= exists_
    ensures ListingEnd(p, exists_) == Min(p.next + (MESSAGE_UID_ENUMERATION_PAGE_SIZE - 1), exists_)
  {
  }

  /** What an honest listing is accepted as; one of the unchanged folder is never refused. */
  lemma ListingContinues(listing: Folder, uids: seq<nat>, p: Progress, exists_: nat)
    requires ValidFolder(listing) && 1 <= p.next <= exists_ <= MAX_UID && p.next == p.count + 1
    requires ListingEnd(p, exists_) <= |listing.uids|
    requires uids == listing.uids[p.next - 1..ListingEnd(p, exists_)]
    ensures var next := AcceptListing(p, exists_, uids);
      && (next.Some? ==>
            && uids != [] && Cut(listing, uids, p.count, next.value.count)
            && (if p.last.Some? then p.last.value else 0) < uids[0]
            && p.next < next.value.next == next.value.count + 1 <= exists_ + 1
            && next.value.last == Some(uids[|uids| - 1]) == LastOf(listing, next.value.count))
      && (p.last == LastOf(listing, p.count) ==> next.Some?)
  {
    CutIsAscending(listing, uids, p.count, ListingEnd(p, exists_));
  }

  /** List the next sequence numbers and check that their UIDs continue the previous listing. */
  method FetchListing(
    server: Server, sink: StageMessageSink, classify: Classifier,
    mailbox: string, exists_: nat, p: Progress, ghost opening: Folder)
    returns (r: Fetch<seq<nat>>, next: Progress, ghost listing: Folder)
    requires server.Valid() && StageTrusted(sink.stage, server.world)
    requires ValidFolder(opening) && Evolves(opening, At(server.view, Place(sink.side, mailbox)))
    requires 1 <= p.next <= exists_ <= MAX_UID && p.next == p.count + 1
    modifies server
    ensures server.Valid() && StageTrusted(sink.stage, server.world)
    ensures WorldEvolves(old(server.world), server.world)
    ensures Evolves(opening, At(server.view, Place(sink.side, mailbox)))
    ensures r.Err? ==> !r.error.Changed?
    ensures r.Ok? ==>
      && r.value != [] && Cut(listing, r.value, p.count, next.count)
      && ListedDuringScan(server, Place(sink.side, mailbox), opening, listing)
      && (if p.last.Some? then p.last.value else 0) < r.value[0]
      && p.next < next.next == next.count + 1 <= exists_ + 1
      && next.last == Some(r.value[|r.value| - 1])
    ensures server.TimeMoves() && Busy(old(server.work), server.work, 0)
    ensures r.Ok? ==>
      && |r.value| == next.count - p.count == Min(MESSAGE_UID_ENUMERATION_PAGE_SIZE, exists_ - p.count)
      && Gains(old(server.work), server.work, |r.value|, 0) && server.work.received == old(server.work.received)
    ensures Calm(old(server.script), server.advertises) && old(server.view) == old(server.world) ==>
      At(old(server.world), Place(sink.side, mailbox)) == opening && exists_ == |opening.uids| ==>
      p.last == LastOf(opening, p.count) ==> r.Ok? && listing == opening && next.last == LastOf(opening, next.count)
  {
    hide ImapServer.Lawful, ImapServer.Foretells;
    hide ImapServer.Evolves, ImapServer.ValidFolder, ImapServer.Calm, MessageStage.StageTrusted;
    hide UidPages.AcceptListing, UidPages.ListingEnd, Cut, LastOf;
    ghost var place := Place(sink.side, mailbox);
    ghost var view0 := At(server.view, place);
    next, listing := p, opening;
    ListingEndIsNext(p, exists_);
    var check := server.Check();
    ghost var world1, view1 := server.world, At(server.view, place);
    StageTrustLasts(sink.stage, old(server.world), world1);
    EvolvesTransitive(opening, view0, view1);
    if !check.Reply? {
      return Err(Fail(classify, check)), next, listing;
    }
    var end := ListingEnd(p, exists_);
    var reply := server.FetchUids(Place(sink.side, mailbox), p.next, end);
    StageTrustLasts(sink.stage, world1, server.world);
    WorldEvolvesTransitive(old(server.world), world1, server.world);
    EvolvesTransitive(opening, view1, At(server.view, place));
    if !reply.Reply? {
      return Err(Fail(classify, reply)), next, listing;
    }
    listing := At(server.view, place);
    EvolvesReflexive(listing);
    var uids := reply.value;
    ListingContinues(listing, uids, p, exists_);
    var accepted := AcceptListing(p, exists_, uids);
    if accepted.None? {
      return Err(Raise(classify, OrderChanged)), next, listing;
    }
    next := accepted.value;
    r := Ok(uids);
  }

  lemma FirstIsNone(f: Folder)
    ensures LastOf(f, 0) == None
  {
  }

  lemma ExistsShown(f: Folder, snapshot: Snapshot)
    requires Matches(f, snapshot)
    ensures snapshot.exists_ == |f.uids|
  {
  }

  /**
   Enumerate the folder by sequence numbers and stage every page.  A good end means
   that exactly EXISTS rows are staged, each UID once, and that the rows are those of
   the folder should the closing SELECT show the opening snapshot again.
   */
  method EnumerateUidPages(
    server: Server, sink: StageMessageSink, budget: MessageStateBudget, classify: Classifier,
    mailbox: string, snapshot: Snapshot, resume: Option<(nat, nat)>, ghost opening: Folder)
    returns (r: Fetch<nat>, ghost pages: seq<Page>)
    requires Ready(server, sink, budget) && Scanning(server, sink, mailbox, snapshot, opening)
    requires snapshot.exists_ <= MAX_UID
    requires resume.None? ==> Rows(sink.stage, Place(sink.side, mailbox)) == map[]
    requires resume.Some? ==>
      && resume.value.0 == |Rows(sink.stage, Place(sink.side, mailbox))|
      && RowsUpTo(Rows(sink.stage, Place(sink.side, mailbox)), resume.value.1)
    modifies server, sink, budget
    ensures old(sink.failures) <= sink.failures && (r.Ok? ==> sink.failures == old(sink.failures))
    ensures Ready(server, sink, budget) && Scanning(server, sink, mailbox, snapshot, opening)
    ensures WorldEvolves(old(server.world), server.world)
    ensures sink.OnlyFolderChanged(mailbox) && budget.Leaked(sink.side) == old(budget.Leaked(sink.side))
    ensures r.Err? ==> !r.error.Changed?
    ensures KeepsTidy(old(sink.stage), sink.stage, Place(sink.side, mailbox))
    ensures r.Ok? ==>
      && budget.Held(sink.side) == old(budget.Held(sink.side))
      && r.value == snapshot.exists_ == |Rows(sink.stage, Place(sink.side, mailbox))|
    ensures server.TimeMoves() && Busy(old(server.work), server.work, 0)
    ensures r.Ok? ==>
      var rest := snapshot.exists_ - (if resume.Some? then resume.value.0 else 0);
      && rest >= 0 && Costs(old(server.work), server.work, rest)
      && Paged(METADATA_PLANNER, pages, rest, old(server.work.received), server.work.received) && Messages(pages) == rest
    ensures old(Settled(server, sink, budget, mailbox, opening)) ==>
      (resume.Some? ==> 0 < resume.value.0 <= snapshot.exists_ && Some(resume.value.1) == LastOf(opening, resume.value.0)) ==>
      r.Ok? && Settled(server, sink, budget, mailbox, opening)
  {
    hide ImapServer.Lawful, ImapServer.Foretells;
    hide ImapServer.ValidFolder, ImapServer.Evolves, ImapServer.WorldEvolves;
    hide MessageStage.StageTrusted, MessageSink.TallyAgrees, MessageSink.OnlyFolder;
    hide Cut, ListedDuringScan, MessageStage.Matches, RowsUpTo, LastOf, ImapServer.Calm, HasRoom, LightFolder, KeepsTidy;
    hide Paged, Follows, ImapServer.Busy, ImapServer.Costs, ImapServer.Gains, StateBudget.Ledger.Sound;
    hide StateBudget.Share;
    hide StateBudget.MessageStateBudget.Valid, StateBudget.MessageStateBudget.Leaked;
    hide StateBudget.MessageStateBudget.Held;
    NotBusy(server.work);
    pages := [];
    NoRowsUpTo(0);
    ghost var place := Place(sink.side, mailbox);
    ghost var settled :=
      && Settled(server, sink, budget, mailbox, opening)
      && (resume.Some? ==> 0 < resume.value.0 <= snapshot.exists_ && Some(resume.value.1) == LastOf(opening, resume.value.0));
    FirstIsNone(opening);
    ExistsShown(opening, snapshot);
    WorldEvolvesReflexive(server.world);
    OnlyFolderReflexive(sink.stage, sink.tally, place);
    KeepsTidyReflexive(sink.stage, place);
    var started := StartListing(snapshot.exists_, resume);
    if started.None? {
      return Err(Raise(classify, InvalidPrefix)), pages;
    }
    var p, planner := started.value, METADATA_PLANNER;
    ghost var resumed := p.count;
    ghost var rest: nat := snapshot.exists_ - resumed;
    NoPagesYet(planner, rest, server.work.received);
    while p.next <= snapshot.exists_
      invariant planner.least <= planner.most
      invariant Ready(server, sink, budget) && Scanning(server, sink, mailbox, snapshot, opening)
      invariant WorldEvolves(old(server.world), server.world)
      invariant sink.OnlyFolderChanged(mailbox) && budget.Leaked(sink.side) == old(budget.Leaked(sink.side))
      invariant budget.Held(sink.side) == old(budget.Held(sink.side))
      invariant p.next == p.count + 1 <= snapshot.exists_ + 1 && p.count == |Rows(sink.stage, place)|
      invariant RowsUpTo(Rows(sink.stage, place), if p.last.Some? then p.last.value else 0)
      invariant settled ==> Settled(server, sink, budget, mailbox, opening) && p.last == LastOf(opening, p.count)
      invariant planner.size <= planner.most <= 1024
      invariant server.TimeMoves() && Busy(old(server.work), server.work, 0)
      invariant Costs(old(server.work), server.work, p.count - resumed)
      invariant sink.failures == old(sink.failures)
      invariant Paged(METADATA_PLANNER, pages, rest, old(server.work.received), server.work.received)
      invariant Follows(METADATA_PLANNER, pages, planner, p.count - resumed) && resumed <= p.count
      invariant (p.count - resumed) % MESSAGE_UID_ENUMERATION_PAGE_SIZE == 0 || p.count == snapshot.exists_
      invariant KeepsTidy(old(sink.stage), sink.stage, place)
      decreases snapshot.exists_ + 1 - p.next
    {
      ghost var world0, stage, tally, work0 := server.world, sink.stage, sink.tally, server.work;
      var uids, next;
      ghost var listing;
      uids, next, listing := FetchListing(server, sink, classify, mailbox, snapshot.exists_, p, opening);
      ghost var world1 := server.world;
      WorldEvolvesTransitive(old(server.world), world0, world1);
      BusyAdds(old(server.work), work0, server.work);
      if uids.Err? {
        return Err(uids.error), pages;
      }
      ghost var work1, more := server.work, [];
      var consumed;
      consumed, more := ConsumeListing(
        server, sink, budget, classify, mailbox, snapshot, uids.value, planner,
        if p.last.Some? then p.last.value else 0, p.count, next.count, opening, listing);
      WorldEvolvesTransitive(old(server.world), world1, server.world);
      OnlyFolderTransitive(old(sink.stage), old(sink.tally), stage, tally, sink.stage, sink.tally, place);
      KeepsTidyTransitive(old(sink.stage), stage, sink.stage, place);
      BusyAdds(old(server.work), work1, server.work);
      if consumed.Err? {
        return Err(consumed.error), pages;
      }
      ListingFollows(METADATA_PLANNER, pages, planner, more, consumed.value, |uids.value|, rest, p.count - resumed,
                     old(server.work.received), work1.received, server.work.received);
      ListingCosts(old(server.work), work0, work1, server.work, p.count - resumed, |uids.value|);
      pages := pages + more;
      p, planner := next, consumed.value;
    }
    FollowsMeans(METADATA_PLANNER, pages, planner, rest);
    r := Ok(p.count);
  }

  /** SELECT of the folder is answered with data that a scan accepts. */
  ghost predicate CanBeSelected(f: Folder, condstore: bool) {
    f.listed && (condstore && f.tracked ==> f.modseq > 0)
  }

  /** A folder that SELECT can open for a scan. */
  ghost predicate Usable(mailbox: string, f: Folder, condstore: bool) {
    CanBeSelected(f, condstore) && !IsBlank(mailbox) && !HasControl(mailbox)
  }

  /** The mod-sequence item that SELECT reports for `f`. */
  ghost predicate Announces(f: Folder, condstore: bool, modseq: Modseq) {
    match modseq
    case Highest(value) => condstore && f.tracked && value == f.modseq && value > 0
    case NoModseq => condstore && !f.tracked
    case Missing => !condstore
  }

  /** The reply names everything that identifies a state of the folder. */
  predicate Identifies(reply: SelectReply, condstore: bool) {
    reply.uidvalidity.Some? && reply.uidnext.Some? && !LacksModseq(reply, condstore)
  }

  /** A session that asked for mod-sequences needs a positive one, or the word that there are none. */
  predicate LacksModseq(reply: SelectReply, condstore: bool) {
    condstore && (reply.modseq.Missing? || reply.modseq == Highest(0))
  }

  /** The reply shows the snapshot, and as much of its mod-sequence as the session asks for. */
  predicate ShowsAgain(reply: SelectReply, condstore: bool, snapshot: Snapshot, opening: Modseq) {
    && reply.uidvalidity == Some(snapshot.uidvalidity) && reply.uidnext == Some(snapshot.uidnext)
    && reply.exists_ == snapshot.exists_ && (condstore ==> reply.modseq == opening)
  }

  /** The opening SELECT: the snapshot that the whole scan answers for. */
  method OpenMailbox(
    server: Server, classify: Classifier, place: Place, condstore: bool)
    returns (r: Fetch<(Snapshot, Modseq)>, ghost shown: Option<SelectReply>)
    requires server.Valid()
    modifies server
    ensures server.Valid() && WorldEvolves(old(server.world), server.world)
    ensures r.Err? ==> !r.error.Changed?
    ensures r.Ok? <==> shown.Some? && Identifies(shown.value, condstore)
    ensures r.Ok? ==>
      && server.view == server.world && Usable(place.mailbox, At(server.world, place), condstore)
      && Matches(At(server.world, place), r.value.0)
      && Announces(At(server.world, place), condstore, r.value.1)
      && r.value.0.highestModseq == (if r.value.1.Highest? then Some(r.value.1.value) else None)
    ensures server.TimeMoves() && Busy(old(server.work), server.work, 1)
    ensures r.Ok? ==> Costs(old(server.work), server.work, 0)
    ensures Calm(old(server.script), server.advertises) && Usable(place.mailbox, At(server.world, place), condstore) ==> r.Ok?
  {
    hide ImapServer.Lawful, ImapServer.Foretells;
    var check := server.Check();
    if !check.Reply? {
      return Err(Fail(classify, check)), None;
    }
    if IsBlank(place.mailbox) {
      return Err(Raise(classify, EmptyMailbox)), None;
    }
    if HasControl(place.mailbox) {
      return Err(Raise(classify, ControlCharacters)), None;
    }
    ghost var world := server.world;
    var reply := server.Select(place, condstore);
    WorldEvolvesTransitive(old(server.world), world, server.world);
    if !reply.Reply? {
      return Err(Fail(classify, reply)), None;
    }
    var selected := reply.value;
    shown := Some(selected);
    if condstore && (selected.modseq.Missing? || selected.modseq == Highest(0)) {
      return Err(Raise(classify, BadModseq)), shown;
    }
    if selected.uidvalidity.None? {
      return Err(Raise(classify, NoUidvalidity)), shown;
    }
    if selected.uidnext.None? {
      return Err(Raise(classify, NoUidnext)), shown;
    }
    var modseq := if selected.modseq.Highest? then Some(selected.modseq.value) else None;
    r := Ok((Snapshot(selected.uidvalidity.value, selected.uidnext.value, selected.exists_, modseq), selected.modseq));
  }

  /** How the rows of a folder come about in this scan. */
  datatype Plan = Reused | Resumed(count: nat, lastUid: nat) | Fresh

  /** The stage is as the plan says. */
  ghost predicate PlanHolds(stage: Stage, place: Place, snapshot: Snapshot, plan: Plan) {
    && place in stage.folders
    && match plan
       case Reused =>
         && |Rows(stage, place)| == snapshot.exists_
         && stage.folders[place].cursor.completed && stage.folders[place].cursor.finished
       case Resumed(count, lastUid) => count == |Rows(stage, place)| && RowsUpTo(Rows(stage, place), lastUid)
       case Fresh => Rows(stage, place) == map[]
  }

  /** The rows that the plan need not fetch. */
  function Kept(plan: Plan, snapshot: Snapshot): nat {
    match plan
    case Reused => snapshot.exists_
    case Resumed(count, _) => count
    case Fresh => 0
  }

  /** Reuse or resume happens only under the identical, tracked snapshot of the old scan. */
  method PrepareScan(
    sink: StageMessageSink, classify: Classifier, mailbox: string, snapshot: Snapshot, ghost world: World)
    returns (r: Fetch<Plan>)
    requires sink.Valid() && StageTrusted(sink.stage, world)
    modifies sink
    ensures old(sink.failures) <= sink.failures && (r.Ok? ==> sink.failures == old(sink.failures))
    ensures sink.Valid() && StageTrusted(sink.stage, world) && sink.OnlyFolderChanged(mailbox)
    ensures r.Err? ==> !r.error.Changed? && !r.error.KilledMidway?
    ensures r.Ok? ==>
      var place := Place(sink.side, mailbox);
      && sink.tally.active == Some(mailbox) && place in sink.stage.folders
      && sink.stage.folders[place].cursor.snapshot == snapshot
      && (!r.value.Fresh? ==> sink.stage == old(sink.stage) && snapshot.highestModseq.Some?)
      && (r.value.Reused? <==> ReusableCompleted(old(sink.stage), place, snapshot).Some?)
      && (r.value.Fresh? ==> ResumablePrefix(old(sink.stage), place, snapshot).None?)
      && (r.value.Resumed? ==>
            ResumablePrefix(sink.stage, place, snapshot) == Some((r.value.count, r.value.lastUid)))
      && PlanHolds(sink.stage, place, snapshot, r.value)
      && Kept(r.value, snapshot) == Saved(old(sink.stage), place, snapshot)
      && (!r.value.Reused? ==> Unfinished(sink.stage, place))
    ensures StageTidy(old(sink.stage)) ==> StageTidy(sink.stage)
    ensures old(sink.faults) == [] ==>
      !LimitExceeded(old(sink.tally).count, snapshot.exists_, FetchLimit(old(sink.stage).durable)) ==>
      && r.Ok? && sink.faults == []
      && sink.tally.count + snapshot.exists_ <=
           FetchLimit(sink.stage.durable) + |Rows(sink.stage, Place(sink.side, mailbox))|
  {
    var reused := sink.ReuseCompleted(mailbox, snapshot);
    if !reused.Done? {
      return Err(Raise(classify, if reused.OverLimit? then MessageLimit else StageFailed));
    }
    if reused.value {
      return Ok(Reused);
    }
    ghost var stage0, tally0 := sink.stage, sink.tally;
    var resumed := sink.ResumePrefix(mailbox, snapshot);
    OnlyFolderTransitive(old(sink.stage), old(sink.tally), stage0, tally0, sink.stage, sink.tally, Place(sink.side, mailbox));
    if !resumed.Done? {
      return Err(Raise(classify, if resumed.OverLimit? then MessageLimit else StageFailed));
    }
    if resumed.value.Some? {
      return Ok(Resumed(resumed.value.value.0, resumed.value.value.1));
    }
    ghost var stage1, tally1 := sink.stage, sink.tally;
    var begun := sink.Begin(mailbox, snapshot);
    OnlyFolderTransitive(old(sink.stage), old(sink.tally), stage1, tally1, sink.stage, sink.tally, Place(sink.side, mailbox));
    if !begun.Done? {
      return Err(Raise(classify, StageFailed));
    }
    if StageTidy(stage1) {
      BegunIsTidy(stage1, Place(sink.side, mailbox), snapshot);
    }
    FreshEntryIsTrusted(snapshot, At(world, Place(sink.side, mailbox)));
    EntryKeepsStageTrusted(stage1, Place(sink.side, mailbox), sink.stage.folders[Place(sink.side, mailbox)], world);
    r := Ok(Fresh);
  }

  /** The closing SELECT must show the opening snapshot again. */
  method CloseMailbox(
    server: Server, classify: Classifier, place: Place, condstore: bool, snapshot: Snapshot, opening: Modseq)
    returns (r: Fetch<()>, ghost shown: Option<SelectReply>)
    requires server.Valid()
    requires opening.Missing? <==> !condstore
    requires snapshot.highestModseq == (if opening.Highest? then Some(opening.value) else None)
    modifies server
    ensures server.Valid() && WorldEvolves(old(server.world), server.world)
    ensures r.Ok? <==>
      shown.Some? && !LacksModseq(shown.value, condstore) && ShowsAgain(shown.value, condstore, snapshot, opening)
    ensures r.Err? && r.error.Changed? <==>
      shown.Some? && !LacksModseq(shown.value, condstore) && !ShowsAgain(shown.value, condstore, snapshot, opening)
    ensures r.Ok? ==>
      && Matches(At(server.world, place), snapshot)
      && (snapshot.highestModseq.Some? <==> condstore && At(server.world, place).tracked)
    ensures server.TimeMoves() && Busy(old(server.work), server.work, 1)
    ensures r.Ok? ==> Costs(old(server.work), server.work, 0)
    ensures Calm(old(server.script), server.advertises) && Matches(At(server.world, place), snapshot) ==>
      Announces(At(server.world, place), condstore, opening) ==> r.Ok?
    ensures Calm(old(server.script), server.advertises) && CanBeSelected(At(server.world, place), condstore) && r.Err? ==>
      r.error.Changed?
  {
    hide ImapServer.Lawful, ImapServer.Foretells;
    var reply := server.Select(place, condstore);
    if !reply.Reply? {
      return Err(Fail(classify, reply)), None;
    }
    var closed := reply.value;
    shown := Some(closed);
    if condstore && (closed.modseq.Missing? || closed.modseq == Highest(0)) {
      return Err(Raise(classify, BadModseq)), shown;
    }
    if || closed.uidvalidity != Some(snapshot.uidvalidity)
       || closed.uidnext != Some(snapshot.uidnext)
       || closed.exists_ != snapshot.exists_
       || (condstore && closed.modseq != opening) {
      return Err(Changed(SnapshotChanged)), shown;
    }
    r := Ok(());
  }

  /** The staged folder is complete: one row for each message of the server's folder, none of them wrong. */
  ghost predicate Verified(stage: Stage, place: Place, f: Folder) {
    && place in stage.folders
    && var e := stage.folders[place];
       && e.cursor.completed && e.cursor.finished
       && Matches(f, e.cursor.snapshot)
       && |e.rows| == e.cursor.snapshot.exists_
       && Attests(e.rows, f, e.cursor.snapshot.highestModseq.Some?)
  }

  /** Flags are staged if and only if the session asked for mod-sequences and the folder keeps them. */
  ghost predicate FlagsFollow(stage: Stage, place: Place, f: Folder, condstore: bool) {
    && place in stage.folders
    && (stage.folders[place].cursor.snapshot.highestModseq.Some? <==> condstore && f.tracked)
  }

  /**
   A scan that reused or resumed staged rows and a scan from zero, both ending well with the
   folder in one state, have staged rows of the same messages under the same snapshot.  The rows
   are equal if and only if the server reported the same items both times, as a thorough folder does.
   */
  lemma ResumedEqualsFresh(resumed: Stage, scratch: Stage, place: Place, f: Folder, condstore: bool)
    requires Verified(resumed, place, f) && FlagsFollow(resumed, place, f, condstore)
    requires Verified(scratch, place, f) && FlagsFollow(scratch, place, f, condstore)
    ensures resumed.folders[place].cursor.snapshot == scratch.folders[place].cursor.snapshot
    ensures Rows(resumed, place).Keys == Rows(scratch, place).Keys
    ensures Rows(resumed, place) == Rows(scratch, place) <==>
      forall u :: u in Rows(resumed, place) ==> SameItems(Rows(resumed, place)[u], Rows(scratch, place)[u])
    ensures f.thorough ==> Rows(resumed, place) == Rows(scratch, place)
  {
    var r, s := resumed.folders[place].cursor.snapshot, scratch.folders[place].cursor.snapshot;
    assert r.highestModseq == s.highestModseq;
    AttestedAlike(Rows(resumed, place), Rows(scratch, place), f, r.highestModseq.Some?);
  }

  lemma AttestedAlike(a: map<nat, Row>, b: map<nat, Row>, f: Folder, tracked: bool)
    requires Attests(a, f, tracked) && Attests(b, f, tracked)
    ensures a.Keys == b.Keys
    ensures a == b <==> forall u :: u in a ==> SameItems(a[u], b[u])
    ensures f.thorough ==> a == b
  {
    assert a.Keys == b.Keys;
    forall u | u in a ensures a[u] == b[u] <==> SameItems(a[u], b[u]) {
      assert IsEvidence(a[u], f.messages[u], tracked, f.thorough) && IsEvidence(b[u], f.messages[u], tracked, f.thorough);
    }
  }

  /** The prefix ends where the folder's own prefix of that length ends. */
  ghost predicate ResumesTruly(plan: Plan, snapshot: Snapshot, opening: Folder) {
    plan.Resumed? ==> 0 < plan.count <= snapshot.exists_ && Some(plan.lastUid) == LastOf(opening, plan.count)
  }

  /** Fill the folder according to plan until exactly EXISTS rows are staged. */
  method FillFolder(
    server: Server, sink: StageMessageSink, budget: MessageStateBudget, classify: Classifier,
    mailbox: string, snapshot: Snapshot, plan: Plan, ghost opening: Folder)
    returns (r: Fetch<()>)
    requires Ready(server, sink, budget) && Scanning(server, sink, mailbox, snapshot, opening)
    requires snapshot.exists_ <= MAX_UID
    requires PlanHolds(sink.stage, Place(sink.side, mailbox), snapshot, plan)
    modifies server, sink, budget
    ensures old(sink.failures) <= sink.failures && (r.Ok? ==> sink.failures == old(sink.failures))
    ensures Ready(server, sink, budget) && Scanning(server, sink, mailbox, snapshot, opening)
    ensures WorldEvolves(old(server.world), server.world)
    ensures sink.OnlyFolderChanged(mailbox) && budget.Leaked(sink.side) == old(budget.Leaked(sink.side))
    ensures r.Err? ==> !r.error.Changed?
    ensures plan.Reused? ==> sink.stage == old(sink.stage)
    ensures KeepsTidy(old(sink.stage), sink.stage, Place(sink.side, mailbox))
    ensures server.TimeMoves() && Busy(old(server.work), server.work, 0)
    ensures r.Ok? ==> Costs(old(server.work), server.work, snapshot.exists_ - Kept(plan, snapshot))
    ensures old(Settled(server, sink, budget, mailbox, opening)) ==>
      ResumesTruly(plan, snapshot, opening) ==>
      r.Ok? && Settled(server, sink, budget, mailbox, opening)
    ensures r.Ok? ==>
      && budget.Held(sink.side) == old(budget.Held(sink.side))
      && |Rows(sink.stage, Place(sink.side, mailbox))| == snapshot.exists_
  {
    hide ImapServer.Lawful, ImapServer.Foretells;
    hide ImapServer.ValidFolder, ImapServer.Evolves, ImapServer.WorldEvolves;
    hide MessageStage.StageTrusted, MessageSink.TallyAgrees, MessageSink.OnlyFolder, MessageStage.Matches, KeepsTidy;
    WorldEvolvesReflexive(server.world);
    OnlyFolderReflexive(sink.stage, sink.tally, Place(sink.side, mailbox));
    KeepsTidyReflexive(sink.stage, Place(sink.side, mailbox));
    var enumerated := snapshot.exists_;
    if !plan.Reused? {
      var resume := if plan.Resumed? then Some((plan.count, plan.lastUid)) else None;
      ghost var pages;
      var filled;
      filled, pages := EnumerateUidPages(server, sink, budget, classify, mailbox, snapshot, resume, opening);
      if filled.Err? {
        return Err(filled.error);
      }
      enumerated := filled.value;
    }
    if enumerated != snapshot.exists_ {
      return Err(Raise(classify, EnumerationMismatch));
    }
    var counted := sink.Transact();
    if !counted {
      return Err(Raise(classify, StageFailed));
    }
    var staged := |Rows(sink.stage, Place(sink.side, mailbox))|;
    if staged != snapshot.exists_ {
      return Err(Changed(RowsDiffer));
    }
    r := Ok(());
  }

  lemma CompletedEntryIsTrusted(s: Stage, t: Stage, place: Place, snapshot: Snapshot, lastUid: nat, w: World)
    requires StageTrusted(s, w) && Complete(s, place, snapshot, lastUid) == Some(t)
    ensures StageTrusted(t, w)
  {
    ProgressKeepsTrust(s.folders[place], t.folders[place].cursor, At(w, place));
    EntryKeepsStageTrusted(s, place, t.folders[place], w);
  }

  /** The closing SELECT shows the snapshot of the cursor: trusted rows are exact rows. */
  lemma ClosingProvesRows(s: Stage, place: Place, w: World)
    requires ValidWorld(w) && StageTrusted(s, w) && place in s.folders
    requires Matches(At(w, place), s.folders[place].cursor.snapshot)
    requires |s.folders[place].rows| == s.folders[place].cursor.snapshot.exists_
    ensures Attests(s.folders[place].rows, At(w, place), s.folders[place].cursor.snapshot.highestModseq.Some?)
  {
    CompleteEntryIsExact(s.folders[place], At(w, place), At(w, place));
  }

  /** The closing half of a scan: the SELECT that turns trusted rows into exact ones. */
  method FinishScan(
    server: Server, sink: StageMessageSink, budget: MessageStateBudget, classify: Classifier,
    mailbox: string, condstore: bool, snapshot: Snapshot, opening: Modseq, reused: bool)
    returns (r: Fetch<()>)
    requires Ready(server, sink, budget)
    requires sink.tally.active == Some(mailbox) && Place(sink.side, mailbox) in sink.stage.folders
    requires sink.stage.folders[Place(sink.side, mailbox)].cursor.snapshot == snapshot
    requires |Rows(sink.stage, Place(sink.side, mailbox))| == snapshot.exists_
    requires reused ==>
      var cursor := sink.stage.folders[Place(sink.side, mailbox)].cursor; cursor.completed && cursor.finished
    requires opening.Missing? <==> !condstore
    requires snapshot.highestModseq == (if opening.Highest? then Some(opening.value) else None)
    modifies server, sink
    ensures old(sink.failures) <= sink.failures && (r.Ok? ==> sink.failures == old(sink.failures))
    ensures Ready(server, sink, budget)
    ensures WorldEvolves(old(server.world), server.world) && sink.OnlyFolderChanged(mailbox)
    ensures Calm(old(server.script), server.advertises) && old(sink.faults) == [] ==>
      var f := At(old(server.world), Place(sink.side, mailbox));
      Matches(f, snapshot) && Announces(f, condstore, opening) ==> r.Ok? && sink.faults == []
    ensures server.TimeMoves() && Busy(old(server.work), server.work, 1)
    ensures r.Ok? ==> Costs(old(server.work), server.work, 0)
    ensures StageTidy(old(sink.stage)) ==> StageTidy(sink.stage)
    ensures r.Ok? ==>
      if reused then sink.stage == old(sink.stage)
      else
        Complete(old(sink.stage), Place(sink.side, mailbox), snapshot, SaturatingSub(snapshot.uidnext, 1))
          == Some(sink.stage)
    ensures r.Ok? ==>
      && sink.tally.active == Some(mailbox)
      && Verified(sink.stage, Place(sink.side, mailbox), At(server.world, Place(sink.side, mailbox)))
      && FlagsFollow(sink.stage, Place(sink.side, mailbox), At(server.world, Place(sink.side, mailbox)), condstore)
      && |Rows(sink.stage, Place(sink.side, mailbox))| == snapshot.exists_
      && Place(sink.side, mailbox) in sink.stage.folders
      && sink.stage.folders[Place(sink.side, mailbox)].cursor.snapshot == snapshot
  {
    hide ImapServer.Lawful, ImapServer.Foretells;
    hide ImapServer.WorldEvolves, ImapServer.ValidWorld, MessageStage.Matches, MessageStage.Attests;
    hide MessageStage.StageTidy;
    hide MessageStage.StageTrusted, MessageSink.TallyAgrees, MessageSink.OnlyFolder;
    var place := Place(sink.side, mailbox);
    OnlyFolderReflexive(sink.stage, sink.tally, place);
    var closed, _ := CloseMailbox(server, classify, place, condstore, snapshot, opening);
    StageTrustLasts(sink.stage, old(server.world), server.world);
    if closed.Err? {
      return Err(closed.error);
    }
    ClosingProvesRows(sink.stage, place, server.world);
    if !reused {
      ghost var stage := sink.stage;
      var completed := sink.CompleteMailbox(mailbox, snapshot, SaturatingSub(snapshot.uidnext, 1));
      if !completed.Done? {
        return Err(Raise(classify, StageFailed));
      }
      if StageTidy(stage) {
        CompletedIsTidy(stage, place, snapshot, SaturatingSub(snapshot.uidnext, 1));
      }
      CompletedEntryIsTrusted(stage, sink.stage, place, snapshot, SaturatingSub(snapshot.uidnext, 1), server.world);
    }
    r := Ok(());
  }

  /** A resumable prefix ends at the folder's own UID of that position. */
  lemma ResumedPrefixIsTrue(stage: Stage, place: Place, snapshot: Snapshot, w: World)
    requires ValidWorld(w) && StageTrusted(stage, w) && Matches(At(w, place), snapshot)
    requires ResumablePrefix(stage, place, snapshot).Some?
    ensures var (count, lastUid) := ResumablePrefix(stage, place, snapshot).value;
      0 < count <= snapshot.exists_ && Some(lastUid) == LastOf(At(w, place), count)
  {
    hide ImapServer.Evolves, MessageStage.RowsOf;
    var f, e := At(w, place), stage.folders[place];
    EvolvesReflexive(f);
    assert HoldsPrefix(e.rows, f, true);
    var n := |e.rows|;
    assert f.uids[n - 1] in Elements(f.uids[..n]) by {
      assert f.uids[..n][n - 1] == f.uids[n - 1];
    }
    assert e.cursor.lastUid in Elements(f.uids[..n]);
    assert f.uids[n - 1] in e.rows.Keys;
  }

  /** The folder can be opened, its records are of usual size, and the account's limit admits them. */
  ghost predicate Scannable(server: Server, sink: StageMessageSink, mailbox: string, condstore: bool)
    reads server, sink
  {
    var f := At(server.world, Place(sink.side, mailbox));
    && Usable(mailbox, f, condstore) && LightFolder(mailbox, f)
    && sink.tally.count + |f.uids| <= FetchLimit(sink.stage.durable)
  }

  lemma RoomIsNotExceeded(count: nat, incoming: nat, durable: bool)
    requires count + incoming <= FetchLimit(durable)
    ensures !LimitExceeded(count, incoming, FetchLimit(durable))
  {
  }

  /** The rest of a scan, from the plan for its rows to the closing SELECT. */
  method ScanOpened(
    server: Server, sink: StageMessageSink, budget: MessageStateBudget, classify: Classifier,
    mailbox: string, condstore: bool, snapshot: Snapshot, modseq: Modseq, plan: Plan, ghost opening: Folder)
    returns (r: Fetch<nat>)
    requires Ready(server, sink, budget) && Scanning(server, sink, mailbox, snapshot, opening)
    requires snapshot.exists_ <= MAX_UID && Announces(opening, condstore, modseq)
    requires snapshot.highestModseq == (if modseq.Highest? then Some(modseq.value) else None)
    requires PlanHolds(sink.stage, Place(sink.side, mailbox), snapshot, plan)
    modifies server, sink, budget
    ensures old(sink.failures) <= sink.failures && (r.Ok? ==> sink.failures == old(sink.failures))
    ensures Ready(server, sink, budget)
    ensures WorldEvolves(old(server.world), server.world) && sink.OnlyFolderChanged(mailbox)
    ensures budget.Leaked(sink.side) == old(budget.Leaked(sink.side))
    ensures r.Ok? ==>
      && budget.Held(sink.side) == old(budget.Held(sink.side))
      && sink.tally.active == Some(mailbox)
      && Verified(sink.stage, Place(sink.side, mailbox), At(server.world, Place(sink.side, mailbox)))
      && FlagsFollow(sink.stage, Place(sink.side, mailbox), At(server.world, Place(sink.side, mailbox)), condstore)
      && |Rows(sink.stage, Place(sink.side, mailbox))| == r.value == snapshot.exists_
      && Place(sink.side, mailbox) in sink.stage.folders
      && sink.stage.folders[Place(sink.side, mailbox)].cursor.snapshot == snapshot
      && Costs(old(server.work), server.work, snapshot.exists_ - Kept(plan, snapshot))
    ensures plan.Reused? && r.Ok? ==> sink.stage == old(sink.stage)
    ensures StageTidy(old(sink.stage)) ==>
      plan.Reused? || Unfinished(old(sink.stage), Place(sink.side, mailbox)) ==> StageTidy(sink.stage)
    ensures old(Settled(server, sink, budget, mailbox, opening)) ==>
      ResumesTruly(plan, snapshot, opening) ==>
      r.Ok? && Unhindered(server, sink, budget)
    ensures server.TimeMoves() && Busy(old(server.work), server.work, 1)
  {
    hide ImapServer.Lawful, ImapServer.Foretells;
    hide ImapServer.WorldEvolves, MessageStage.Attests, Verified, FlagsFollow, ImapServer.Calm, LightFolder, HasRoom;
    hide MessageStage.StageTrusted, MessageSink.TallyAgrees, MessageSink.OnlyFolder, MessageStage.Matches, RowsUpTo;
    hide LastOf;
    hide ResumesTruly;
    hide ImapServer.ValidFolder, ImapServer.ValidWorld, ImapServer.Evolves, MessageStage.StageTidy;
    ghost var place := Place(sink.side, mailbox);
    var filled := FillFolder(server, sink, budget, classify, mailbox, snapshot, plan, opening);
    ghost var stage, tally, world := sink.stage, sink.tally, server.world;
    if filled.Err? {
      return Err(filled.error);
    }
    var finished := FinishScan(server, sink, budget, classify, mailbox, condstore, snapshot, modseq, plan.Reused?);
    WorldEvolvesTransitive(old(server.world), world, server.world);
    OnlyFolderTransitive(old(sink.stage), old(sink.tally), stage, tally, sink.stage, sink.tally, place);
    r := if finished.Err? then Err(finished.error) else Ok(snapshot.exists_);
  }

  lemma OpeningIsBounded(w: World, place: Place, snapshot: Snapshot)
    requires ValidWorld(w) && Matches(At(w, place), snapshot)
    ensures ValidFolder(At(w, place)) && Evolves(At(w, place), At(w, place))
    ensures snapshot.exists_ == |At(w, place).uids| <= MAX_UID
  {
    ExistsIsBounded(At(w, place));
    EvolvesReflexive(At(w, place));
  }

  /** A scan listed and fetched exactly the messages that no earlier scan had saved for its snapshot. */
  ghost predicate CostsTheRest(s: Stage, t: Stage, p: Place, before: Work, after: Work) {
    p in t.folders && Costs(before, after, |Rows(t, p)| - Saved(s, p, t.folders[p].cursor.snapshot))
  }

  /** Where a scan stands after its opening SELECT, with a plan for its rows. */
  datatype Opening = Opening(snapshot: Snapshot, modseq: Modseq, plan: Plan)

  ghost predicate IsOpen(stage: Stage, place: Place, condstore: bool, opening: Folder, o: Opening) {
    && o.snapshot.exists_ <= MAX_UID && Announces(opening, condstore, o.modseq)
    && o.snapshot.highestModseq == (if o.modseq.Highest? then Some(o.modseq.value) else None)
    && PlanHolds(stage, place, o.snapshot, o.plan)
    && (!o.plan.Reused? ==> Unfinished(stage, place))
  }

  /** The opening half of a scan: the SELECT and the choice between reuse, resumption and a fresh start. */
  method OpenScan(
    server: Server, sink: StageMessageSink, budget: MessageStateBudget, classify: Classifier,
    mailbox: string, condstore: bool)
    returns (r: Fetch<Opening>, ghost opening: Folder)
    requires Ready(server, sink, budget)
    modifies server, sink
    ensures old(sink.failures) <= sink.failures && (r.Ok? ==> sink.failures == old(sink.failures))
    ensures Ready(server, sink, budget)
    ensures WorldEvolves(old(server.world), server.world) && sink.OnlyFolderChanged(mailbox)
    ensures r.Ok? ==>
      && Scanning(server, sink, mailbox, r.value.snapshot, opening)
      && IsOpen(sink.stage, Place(sink.side, mailbox), condstore, opening, r.value)
      && Kept(r.value.plan, r.value.snapshot) == Saved(old(sink.stage), Place(sink.side, mailbox), r.value.snapshot)
    ensures StageTidy(old(sink.stage)) ==> StageTidy(sink.stage)
    ensures server.TimeMoves() && Busy(old(server.work), server.work, 1)
    ensures r.Ok? ==> Costs(old(server.work), server.work, 0)
    ensures old(Unhindered(server, sink, budget)) && old(Scannable(server, sink, mailbox, condstore)) ==>
      r.Ok? && Settled(server, sink, budget, mailbox, opening) && ResumesTruly(r.value.plan, r.value.snapshot, opening)
  {
    hide ImapServer.Lawful, ImapServer.Foretells, ImapServer.WorldEvolves, ImapServer.Calm, LightFolder, Announces;
    hide LastOf;
    hide Usable, MessageSink.LimitExceeded, MessageSink.FetchLimit, MessageStage.ReusableCompleted;
    hide MessageStage.ResumablePrefix, MessageStage.Matches, RowsUpTo, MessageStage.StageTrusted;
    hide MessageSink.TallyAgrees;
    hide MessageSink.OnlyFolder, PlanHolds, MessageSink.StageMessageSink.Valid, StateBudget.MessageStateBudget.Valid;
    hide ImapServer.ValidFolder, ImapServer.ValidWorld, ImapServer.Evolves, MessageStage.StageTidy, MessageStage.Saved;
    hide ImapServer.Busy, ImapServer.Costs, CanBeSelected, Kept;
    var place := Place(sink.side, mailbox);
    OnlyFolderReflexive(sink.stage, sink.tally, place);
    var selected, _ := OpenMailbox(server, classify, place, condstore);
    StageTrustLasts(sink.stage, old(server.world), server.world);
    opening := At(server.world, place);
    if selected.Err? {
      return Err(selected.error), opening;
    }
    var (snapshot, modseq) := selected.value;
    OpeningIsBounded(server.world, place, snapshot);
    if old(Scannable(server, sink, mailbox, condstore)) && opening == At(old(server.world), place) {
      RoomIsNotExceeded(sink.tally.count, snapshot.exists_, sink.stage.durable);
    }
    var plan := PrepareScan(sink, classify, mailbox, snapshot, server.world);
    if plan.Err? {
      return Err(plan.error), opening;
    }
    var recorded := sink.Transact();
    if !recorded {
      return Err(Raise(classify, StageFailed)), opening;
    }
    if plan.value.Resumed? {
      ResumedPrefixIsTrue(sink.stage, place, snapshot, server.world);
    }
    r := Ok(Opening(snapshot, modseq, plan.value));
  }

  /** One scan under an open reservation, from the opening to the closing SELECT. */
  method ScanMailbox(
    server: Server, sink: StageMessageSink, budget: MessageStateBudget, classify: Classifier,
    mailbox: string, condstore: bool)
    returns (r: Fetch<nat>)
    requires Ready(server, sink, budget)
    modifies server, sink, budget
    ensures old(sink.failures) <= sink.failures && (r.Ok? ==> sink.failures == old(sink.failures))
    ensures Ready(server, sink, budget)
    ensures WorldEvolves(old(server.world), server.world) && sink.OnlyFolderChanged(mailbox)
    ensures budget.Leaked(sink.side) == old(budget.Leaked(sink.side))
    ensures r.Ok? ==>
      && budget.Held(sink.side) == old(budget.Held(sink.side))
      && sink.tally.active == Some(mailbox)
      && Verified(sink.stage, Place(sink.side, mailbox), At(server.world, Place(sink.side, mailbox)))
      && FlagsFollow(sink.stage, Place(sink.side, mailbox), At(server.world, Place(sink.side, mailbox)), condstore)
      && |Rows(sink.stage, Place(sink.side, mailbox))| == r.value
      && CostsTheRest(old(sink.stage), sink.stage, Place(sink.side, mailbox), old(server.work), server.work)
    ensures StageTidy(old(sink.stage)) ==> StageTidy(sink.stage)
    ensures server.TimeMoves() && Busy(old(server.work), server.work, 2)
    ensures old(Unhindered(server, sink, budget)) && old(Scannable(server, sink, mailbox, condstore)) ==>
      r.Ok? && Unhindered(server, sink, budget)
  {
    hide ImapServer.Lawful, ImapServer.Foretells, ImapServer.WorldEvolves, ImapServer.ValidWorld, Verified, FlagsFollow;
    hide ImapServer.Calm, LightFolder, Announces, MessageStage.StageTrusted, MessageSink.TallyAgrees;
    hide MessageSink.OnlyFolder;
    hide PlanHolds, MessageSink.StageMessageSink.Valid, StateBudget.MessageStateBudget.Valid, MessageStage.StageTidy;
    hide MessageStage.Saved, ImapServer.Busy, ImapServer.Costs, Kept, ResumesTruly, Scannable, Settled, Scanning;
    hide HasRoom;
    ghost var place := Place(sink.side, mailbox);
    ReadyIsValid(server, sink, budget);
    ghost var opening;
    var o;
    o, opening := OpenScan(server, sink, budget, classify, mailbox, condstore);
    ghost var stage, tally, world, work := sink.stage, sink.tally, server.world, server.work;
    ReadyIsValid(server, sink, budget);
    BusyAtMost(old(server.work), work, 1, 2);
    if o.Err? {
      return Err(o.error);
    }
    var (snapshot, plan) := (o.value.snapshot, o.value.plan);
    r := ScanOpened(server, sink, budget, classify, mailbox, condstore, snapshot, o.value.modseq, plan, opening);
    ReadyIsValid(server, sink, budget);
    WorkAdds(old(server.work), work, server.work, 1, 1, snapshot.exists_ - Kept(plan, snapshot));
    WorldEvolvesTransitive(old(server.world), world, server.world);
    OnlyFolderTransitive(old(sink.stage), old(sink.tally), stage, tally, sink.stage, sink.tally, place);
  }

  /** After a good scan the counters, the stage and the folder agree on its size. */
  lemma ScannedCount(stage: Stage, side: Side, tally: Tally, mailbox: string, f: Folder)
    requires TallyAgrees(stage, side, tally) && tally.active == Some(mailbox)
    requires Verified(stage, Place(side, mailbox), f)
    ensures mailbox in tally.counts && tally.counts[mailbox] == |Rows(stage, Place(side, mailbox))| == |f.uids|
  {
  }

  /** The folder is verified, with flags exactly where they are tracked, and counted with its size. */
  ghost predicate ScannedWell(stage: Stage, tally: Tally, place: Place, f: Folder, condstore: bool, exists_: nat) {
    && Verified(stage, place, f) && FlagsFollow(stage, place, f, condstore)
    && exists_ == |f.uids| && place.mailbox in tally.counts && tally.counts[place.mailbox] == exists_
  }

  /** What was verified once costs nothing to scan again while the folder shows its snapshot. */
  lemma VerifiedIsSaved(stage: Stage, place: Place, f: Folder)
    requires Verified(stage, place, f) && stage.durable
    requires stage.folders[place].cursor.snapshot.highestModseq.Some?
    ensures Saved(stage, place, stage.folders[place].cursor.snapshot) == |f.uids| == |Rows(stage, place)|
  {
  }

  /**
   One attempt at a folder.  Whatever other clients did in the meantime, a good end means
   that the staged rows are those of the folder at the closing SELECT; any other end
   leaves a stage that later attempts may still rely on.  The reservation comes back in
   full on every path, so committing it leaks nothing.
   */
  method FetchMailbox(
    server: Server, sink: StageMessageSink, budget: MessageStateBudget, classify: Classifier,
    mailbox: string, condstore: bool)
    returns (r: Fetch<nat>)
    requires Ready(server, sink, budget) && budget.Held(sink.side) == 0
    modifies server, sink, budget
    ensures old(sink.failures) <= sink.failures && (r.Ok? ==> sink.failures == old(sink.failures))
    ensures Ready(server, sink, budget)
    ensures WorldEvolves(old(server.world), server.world) && sink.OnlyFolderChanged(mailbox)
    ensures budget.Held(sink.side) == 0 && budget.Leaked(sink.side) == old(budget.Leaked(sink.side))
    ensures r.Ok? ==>
      && ScannedWell(sink.stage, sink.tally, Place(sink.side, mailbox),
                     At(server.world, Place(sink.side, mailbox)), condstore, r.value)
      && CostsTheRest(old(sink.stage), sink.stage, Place(sink.side, mailbox), old(server.work), server.work)
    ensures StageTidy(old(sink.stage)) ==> StageTidy(sink.stage)
    ensures server.TimeMoves() && Spent(old(server.work), server.work, 0, 1)
    ensures server.work.session == old(server.work.session)
    ensures server.work.scans == old(server.work.scans) +
      [Scan(EndOf(r), old(Unhindered(server, sink, budget)) && old(Scannable(server, sink, mailbox, condstore)))]
    ensures old(Unhindered(server, sink, budget)) && old(Scannable(server, sink, mailbox, condstore)) ==>
      r.Ok? && Unhindered(server, sink, budget)
  {
    hide LightFolder, HasRoom, ImapServer.Evolves, ImapServer.ValidFolder;
    hide ImapServer.Lawful, ImapServer.Foretells;
    hide ImapServer.WorldEvolves, ImapServer.ValidWorld, MessageStage.StageTrusted, MessageSink.TallyAgrees;
    hide MessageSink.OnlyFolder, Verified, FlagsFollow, Scannable, ImapServer.Calm, MessageStage.Saved;
    hide MessageStage.StageTidy;
    ghost var undisturbed := Unhindered(server, sink, budget) && Scannable(server, sink, mailbox, condstore);
    r := ScanMailbox(server, sink, budget, classify, mailbox, condstore);
    if r.Ok? {
      ScannedCount(sink.stage, sink.side, sink.tally, mailbox, At(server.world, Place(sink.side, mailbox)));
      budget.CommitReservation(sink.side);
    } else {
      budget.DropReservation(sink.side);
    }
    server.EndScan(Scan(EndOf(r), undisturbed));
  }
}
