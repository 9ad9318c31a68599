/** Retries, reconnects, and the scan of all the folders of an account. */
module AccountScan {
  import opened Collections
  import opened Decimal
  import opened ImapServer
  import opened MailboxScan
  import opened MessageSink
  import opened MessageStage
  import opened StateBudget

  const MAX_MAILBOX_STABILITY_ATTEMPTS := 2
  const MAX_CONSECUTIVE_SESSION_RECONNECTS := 3

  /** A folder that failed keeps no staged rows, unless removing them failed too. */
  ghost predicate CleanFailure(stage: Stage, place: Place, error: FetchError) {
    error.KilledMidway? || place !in stage.folders || error == FolderError(RollbackFailed)
  }

  /** Remove what a failed attempt staged. */
  method RollBack(sink: StageMessageSink, mailbox: string, ghost world: World) returns (ok: bool)
    requires sink.Valid() && StageTrusted(sink.stage, world)
    modifies sink
    ensures sink.Valid() && StageTrusted(sink.stage, world) && sink.OnlyFolderChanged(mailbox)
    ensures StageTidy(old(sink.stage)) ==> StageTidy(sink.stage)
    ensures ok ==> Place(sink.side, mailbox) !in sink.stage.folders
    ensures sink.failures == old(sink.failures) + if ok then 0 else 1
  {
    var removed := sink.Rollback(mailbox);
    if StageTidy(old(sink.stage)) {
      SubStageTidy(old(sink.stage), sink.stage);
    }
    SubStageTrusted(old(sink.stage), sink.stage, world);
    ok := removed.Done?;
  }

  const ROLLBACK_FAILED := FolderError(RollbackFailed)

  /** One scan of a folder, or a second one exactly when the first found it changed and its rows
      could be removed; the end of the last scan decides, and an undisturbed scan ends well. */
  ghost predicate Retried(before: Work, after: Work, broken: bool, r: Fetch<nat>) {
    var n, m := |before.scans|, |after.scans|;
    && before.scans <= after.scans && n + 1 <= m <= n + 2
    && (m == n + 2 ==> after.scans[n].end.FoundChanged?)
    && Decides(after.scans[m - 1].end, m == n + 2, broken, r)
    && forall i :: n <= i < m && after.scans[i].undisturbed ==> after.scans[i].end.WentWell?
  }

  /** Only a stage transaction that failed can make the rollback fail. */
  ghost predicate Decides(end: End, second: bool, broken: bool, r: Fetch<nat>) {
    match end
    case WentWell => r.Ok?
    case FoundChanged => (broken && r == Err(ROLLBACK_FAILED)) || (second && r.Err? && r.error.Changed?)
    case LostSession => (broken && r == Err(ROLLBACK_FAILED)) || (r.Err? && r.error.SessionFatal?)
    case WentWrong => r.Err? && !r.error.Changed? && !r.error.SessionFatal?
  }

  /** Between two scans of a folder: the first found it changed. */
  ghost predicate Retrying(before: Work, now: Work, scans: nat) {
    && before.scans <= now.scans && |now.scans| == |before.scans| + scans
    && forall i :: |before.scans| <= i < |now.scans| ==> now.scans[i].end.FoundChanged? && !now.scans[i].undisturbed
  }

  lemma NothingTried(work: Work)
    ensures Retrying(work, work, 0) && Spent(work, work, 0, 0) && Losses(work.scans, |work.scans|) == 0
  {
  }

  lemma SpentAdds(u: Work, v: Work, w: Work, connects: int, scans: int, moreConnects: int, moreScans: int)
    requires Spent(u, v, connects, scans) && Spent(v, w, moreConnects, moreScans)
    ensures Spent(u, w, connects + moreConnects, scans + moreScans)
  {
  }

  lemma LastScanDecides(
    before: Work, now: Work, after: Work, scans: nat, broken: bool, anyBroken: bool, r: Fetch<nat>)
    requires Retrying(before, now, scans) && scans <= 1 && ScannedOnce(now, after, broken, r) && (broken ==> anyBroken)
    requires r.Ok? || !r.error.Changed? || scans == 1
    ensures Retried(before, after, anyBroken, r)
  {
  }

  lemma ChangedIsRetried(before: Work, now: Work, after: Work, scans: nat, broken: bool, r: Fetch<nat>)
    requires Retrying(before, now, scans) && ScannedOnce(now, after, broken, r)
    requires r.Err? && r.error.Changed?
    ensures Retrying(before, after, scans + 1)
  {
  }

  /** One scan, and how it decides unless its rows could not be removed; an undisturbed one ends well. */
  ghost predicate ScannedOnce(before: Work, after: Work, broken: bool, r: Fetch<nat>) {
    && |after.scans| == |before.scans| + 1 && before.scans <= after.scans
    && Decides(after.scans[|before.scans|].end, true, broken, r)
    && (after.scans[|before.scans|].undisturbed ==> after.scans[|before.scans|].end.WentWell?)
  }

  /** Scan a folder, and remove what a failed scan staged. */
  method ScanOrRollBack(
    server: Server, sink: StageMessageSink, budget: MessageStateBudget, classify: Classifier,
    mailbox: string, condstore: bool)
    returns (r: Fetch<nat>)
    requires Ready(server, sink, budget) && budget.Held(sink.side) == 0
    modifies server, sink, budget
    ensures Ready(server, sink, budget)
    ensures WorldEvolves(old(server.world), server.world) && sink.OnlyFolderChanged(mailbox)
    ensures budget.Held(sink.side) == 0 && budget.Leaked(sink.side) == old(budget.Leaked(sink.side))
    ensures r.Ok? ==>
      && ScannedWell(sink.stage, sink.tally, Place(sink.side, mailbox),
                     At(server.world, Place(sink.side, mailbox)), condstore, r.value)
      && CostsTheRest(old(sink.stage), sink.stage, Place(sink.side, mailbox), old(server.work), server.work)
    ensures r.Err? ==> CleanFailure(sink.stage, Place(sink.side, mailbox), r.error)
    ensures server.TimeMoves() && Spent(old(server.work), server.work, 0, 1)
    ensures server.work.session == old(server.work.session) && old(sink.failures) <= sink.failures
    ensures ScannedOnce(old(server.work), server.work, old(sink.failures) < sink.failures, r)
    ensures StageTidy(old(sink.stage)) ==> StageTidy(sink.stage)
    ensures old(Unhindered(server, sink, budget)) && old(Scannable(server, sink, mailbox, condstore)) ==>
      r.Ok? && Unhindered(server, sink, budget)
  {
    hide ImapServer.Lawful, ImapServer.Foretells, ImapServer.ValidWorld, ImapServer.WorldEvolves;
    hide ScannedWell, ImapServer.Calm, Unhindered, Scannable, ImapServer.Spent, CostsTheRest;
    hide MessageStage.StageTrusted, MessageSink.TallyAgrees, MessageSink.OnlyFolder, MessageStage.StageTidy;
    r := FetchMailbox(server, sink, budget, classify, mailbox, condstore);
    if r.Err? && !r.error.KilledMidway? {
      ghost var stage, tally := sink.stage, sink.tally;
      var removed := RollBack(sink, mailbox, server.world);
      OnlyFolderTransitive(old(sink.stage), old(sink.tally), stage, tally, sink.stage, sink.tally, Place(sink.side, mailbox));
      if !removed {
        r := Err(ROLLBACK_FAILED);
      }
    }
  }

  /** Scan a folder again when it changed under the scan, and leave no rows behind otherwise. */
  method FetchWithStabilityRetry(
    server: Server, sink: StageMessageSink, budget: MessageStateBudget, classify: Classifier,
    mailbox: string, condstore: bool)
    returns (r: Fetch<nat>, scans: nat)
    requires Ready(server, sink, budget) && budget.Held(sink.side) == 0
    modifies server, sink, budget
    ensures Ready(server, sink, budget)
    ensures WorldEvolves(old(server.world), server.world) && sink.OnlyFolderChanged(mailbox)
    ensures budget.Held(sink.side) == 0 && budget.Leaked(sink.side) == old(budget.Leaked(sink.side))
    ensures r.Ok? ==>
      ScannedWell(sink.stage, sink.tally, Place(sink.side, mailbox),
                  At(server.world, Place(sink.side, mailbox)), condstore, r.value)
    ensures r.Err? ==> CleanFailure(sink.stage, Place(sink.side, mailbox), r.error)
    ensures scans <= MAX_MAILBOX_STABILITY_ATTEMPTS
    ensures r.Err? && r.error.Changed? ==> scans == 2
    ensures server.TimeMoves() && Spent(old(server.work), server.work, 0, scans)
    ensures server.work.session == old(server.work.session) && old(sink.failures) <= sink.failures
    ensures Retried(old(server.work), server.work, old(sink.failures) < sink.failures, r)
    ensures StageTidy(old(sink.stage)) ==> StageTidy(sink.stage)
    ensures old(Unhindered(server, sink, budget)) && old(Scannable(server, sink, mailbox, condstore)) ==>
      && r.Ok? && Unhindered(server, sink, budget) && scans == 1
      && CostsTheRest(old(sink.stage), sink.stage, Place(sink.side, mailbox), old(server.work), server.work)
  {
    hide ImapServer.Lawful, ImapServer.Foretells, ImapServer.ValidWorld, ImapServer.WorldEvolves;
    hide ScannedWell, ImapServer.Calm, Unhindered, Scannable, ImapServer.Spent, CostsTheRest;
    hide MessageStage.StageTrusted, MessageSink.TallyAgrees, MessageSink.OnlyFolder, MessageStage.StageTidy;
    hide Retried, Retrying, ScannedOnce, Losses, CleanFailure, Ready;
    ghost var place := Place(sink.side, mailbox);
    ReadyIsValid(server, sink, budget);
    WorldEvolvesReflexive(server.world);
    OnlyFolderReflexive(sink.stage, sink.tally, place);
    NothingTried(server.work);
    scans := 0;
    r := Err(Changed(SnapshotChanged));
    while scans < MAX_MAILBOX_STABILITY_ATTEMPTS
      invariant scans <= MAX_MAILBOX_STABILITY_ATTEMPTS
      invariant Ready(server, sink, budget) && budget.Held(sink.side) == 0
      invariant WorldEvolves(old(server.world), server.world) && sink.OnlyFolderChanged(mailbox)
      invariant budget.Leaked(sink.side) == old(budget.Leaked(sink.side))
      invariant r.Err? && r.error.Changed? && (scans > 0 ==> CleanFailure(sink.stage, place, r.error))
      invariant server.TimeMoves() && Spent(old(server.work), server.work, 0, scans)
      invariant server.work.session == old(server.work.session) && Retrying(old(server.work), server.work, scans)
      invariant old(sink.failures) <= sink.failures
      invariant scans == 2 ==> Retried(old(server.work), server.work, old(sink.failures) < sink.failures, r)
      invariant StageTidy(old(sink.stage)) ==> StageTidy(sink.stage)
      invariant old(Unhindered(server, sink, budget)) && old(Scannable(server, sink, mailbox, condstore)) ==>
        && scans == 0 && Unhindered(server, sink, budget) && Scannable(server, sink, mailbox, condstore)
        && sink.stage == old(sink.stage) && server.work == old(server.work)
    {
      ghost var world, stage, tally, work, failures :=
        server.world, sink.stage, sink.tally, server.work, sink.failures;
      ReadyIsValid(server, sink, budget);
      r := ScanOrRollBack(server, sink, budget, classify, mailbox, condstore);
      ReadyIsValid(server, sink, budget);
      WorldEvolvesTransitive(old(server.world), world, server.world);
      OnlyFolderTransitive(old(sink.stage), old(sink.tally), stage, tally, sink.stage, sink.tally, place);
      SpentAdds(old(server.work), work, server.work, 0, scans, 0, 1);
      if r.Ok? || !r.error.Changed? || scans == 1 {
        LastScanDecides(old(server.work), work, server.work, scans, failures < sink.failures,
                        old(sink.failures) < sink.failures, r);
      }
      scans := scans + 1;
      if r.Ok? || !r.error.Changed? {
        return;
      }
      ChangedIsRetried(old(server.work), work, server.work, scans - 1, failures < sink.failures, r);
    }
  }

  /** How many scans since `from` lost their session. */
  function Losses(scans: seq<Scan>, from: nat): nat {
    if |scans| <= from then 0
    else Losses(scans[..|scans| - 1], from) + if scans[|scans| - 1].end.LostSession? then 1 else 0
  }

  /** Each lost session was reopened, unless it was the third in a row or its rows could not be removed;
      and no other session was opened. */
  ghost predicate Reopened(
    before: Work, after: Work, reconnects: int, consecutive: nat, broken: bool, r: Fetch<nat>)
  {
    var lost := Losses(after.scans, |before.scans|);
    && reconnects <= lost <= reconnects + 1
    && (r.Ok? ==> lost == reconnects)
    && (lost == reconnects + 1 ==>
          (broken && r == Err(ROLLBACK_FAILED)) || (r.Err? && r.error.SessionFatal? && consecutive == 3))
    && (r.Err? && r.error.SessionFatal? ==>
          (consecutive == 3 && lost == reconnects + 1) || r.error.cause == ReconnectFailed)
  }

  lemma LossesGrow(before: Work, after: Work, from: nat, broken: bool, r: Fetch<nat>)
    requires from <= |before.scans| && Retried(before, after, broken, r)
    ensures Losses(after.scans, from) ==
      Losses(before.scans, from) + if after.scans[|after.scans| - 1].end.LostSession? then 1 else 0
  {
    var n, m := |before.scans|, |after.scans|;
    assert after.scans[..n] == before.scans;
    if m == n + 2 {
      assert after.scans[..m - 1][..n] == before.scans;
      assert Losses(after.scans[..m - 1], from) == Losses(before.scans, from);
    }
  }

  /** The attempt that ends the loop decides. */
  lemma LastAttemptDecides(
    before: Work, work: Work, after: Work, reconnects: nat, consecutive: nat, broken: bool, anyBroken: bool, r: Fetch<nat>)
    requires |before.scans| <= |work.scans| && Retried(work, after, broken, r) && (broken ==> anyBroken)
    requires Losses(work.scans, |before.scans|) == reconnects
    requires r.Ok? || !r.error.SessionFatal? || consecutive == 3
    ensures Reopened(before, after, reconnects, consecutive, anyBroken, r)
  {
    hide Losses;
    LossesGrow(work, after, |before.scans|, broken, r);
    RetriedEnds(work, after, broken, r);
  }

  /** Another attempt is due, unless the session does not come back. */
  lemma AttemptLostSession(
    before: Work, work: Work, after: Work, again: Work, reconnects: nat, consecutive: nat, broken: bool,
    anyBroken: bool, r: Fetch<nat>, failure: Fetch<nat>)
    requires |before.scans| <= |work.scans| && Retried(work, after, broken, r)
    requires Losses(work.scans, |before.scans|) == reconnects && r.Err? && r.error.SessionFatal?
    requires again.scans == after.scans
    ensures |work.scans| < |again.scans| && Losses(again.scans, |before.scans|) == reconnects + 1
    ensures failure == Err(KilledMidway) || failure == Err(SessionFatal(ReconnectFailed)) ==>
      Reopened(before, again, reconnects + 1, consecutive, anyBroken, failure)
  {
    hide Losses;
    LossesGrow(work, after, |before.scans|, broken, r);
    RetriedEnds(work, after, broken, r);
  }

  lemma RetriedEnds(before: Work, after: Work, broken: bool, r: Fetch<nat>)
    requires Retried(before, after, broken, r)
    ensures |before.scans| < |after.scans| && Decides(after.scans[|after.scans| - 1].end, true, broken, r)
  {
  }

  lemma CleanWhateverFollows(stage: Stage, place: Place, error: FetchError, later: FetchError)
    requires CleanFailure(stage, place, error) && error.SessionFatal?
    ensures CleanFailure(stage, place, later)
  {
  }

  /** Open the session again. */
  method Reopen(server: Server, sink: StageMessageSink, budget: MessageStateBudget) returns (session: Answer<bool>)
    requires Ready(server, sink, budget)
    modifies server
    ensures Ready(server, sink, budget) && WorldEvolves(old(server.world), server.world)
    ensures server.TimeMoves() && Spent(old(server.work), server.work, 1, 0)
    ensures server.work.scans == old(server.work.scans)
    ensures server.work.session == if session.Reply? then session.value else old(server.work.session)
  {
    hide ImapServer.Lawful, ImapServer.Foretells, ImapServer.Calm, MessageStage.StageTrusted;
    session := server.Connect();
    StageTrustLasts(sink.stage, old(server.world), server.world);
  }

  /** Reconnect after a session failure, a bounded number of times in a row. */
  method FetchWithSessionReconnect(
    server: Server, sink: StageMessageSink, budget: MessageStateBudget, classify: Classifier,
    mailbox: string, condstore: bool, consecutive: nat)
    returns (r: Fetch<nat>, condstore': bool, consecutive': nat, scans: nat)
    requires Ready(server, sink, budget) && budget.Held(sink.side) == 0
    requires consecutive <= MAX_CONSECUTIVE_SESSION_RECONNECTS
    modifies server, sink, budget
    ensures Ready(server, sink, budget)
    ensures WorldEvolves(old(server.world), server.world) && sink.OnlyFolderChanged(mailbox)
    ensures budget.Held(sink.side) == 0 && budget.Leaked(sink.side) == old(budget.Leaked(sink.side))
    ensures r.Ok? ==>
      ScannedWell(sink.stage, sink.tally, Place(sink.side, mailbox),
                  At(server.world, Place(sink.side, mailbox)), condstore', r.value)
    ensures r.Err? ==> CleanFailure(sink.stage, Place(sink.side, mailbox), r.error)
    ensures consecutive <= consecutive' <= MAX_CONSECUTIVE_SESSION_RECONNECTS
    ensures scans <= MAX_MAILBOX_STABILITY_ATTEMPTS * (1 + consecutive' - consecutive)
    ensures server.TimeMoves() && Spent(old(server.work), server.work, consecutive' - consecutive, scans)
    ensures old(sink.failures) <= sink.failures
    ensures Reopened(old(server.work), server.work, consecutive' - consecutive, consecutive',
                     old(sink.failures) < sink.failures, r)
    ensures old(server.work.session) == condstore ==> server.work.session == condstore'
    ensures StageTidy(old(sink.stage)) ==> StageTidy(sink.stage)
    ensures old(Unhindered(server, sink, budget)) && old(Scannable(server, sink, mailbox, condstore)) ==>
      && r.Ok? && Unhindered(server, sink, budget) && condstore' == condstore
      && consecutive' == consecutive && scans == 1
      && CostsTheRest(old(sink.stage), sink.stage, Place(sink.side, mailbox), old(server.work), server.work)
  {
    hide ImapServer.Lawful, ImapServer.Foretells, ImapServer.ValidWorld, ImapServer.WorldEvolves;
    hide ScannedWell, ImapServer.Calm, Unhindered, Scannable, ImapServer.Spent, CostsTheRest, CleanFailure, Ready;
    hide MessageStage.StageTrusted, MessageSink.TallyAgrees, MessageSink.OnlyFolder, MessageStage.StageTidy;
    hide Retried, Losses;
    hide Reopened, Decides;
    ghost var place := Place(sink.side, mailbox);
    ReadyIsValid(server, sink, budget);
    WorldEvolvesReflexive(server.world);
    OnlyFolderReflexive(sink.stage, sink.tally, place);
    NothingTried(server.work);
    condstore', consecutive', scans := condstore, consecutive, 0;
    while true
      invariant consecutive <= consecutive' <= MAX_CONSECUTIVE_SESSION_RECONNECTS
      invariant scans <= MAX_MAILBOX_STABILITY_ATTEMPTS * (consecutive' - consecutive)
      invariant Ready(server, sink, budget) && budget.Held(sink.side) == 0
      invariant WorldEvolves(old(server.world), server.world) && sink.OnlyFolderChanged(mailbox)
      invariant budget.Leaked(sink.side) == old(budget.Leaked(sink.side))
      invariant server.TimeMoves() && Spent(old(server.work), server.work, consecutive' - consecutive, scans)
      invariant |old(server.work.scans)| <= |server.work.scans| && old(sink.failures) <= sink.failures
      invariant Losses(server.work.scans, |old(server.work.scans)|) == consecutive' - consecutive
      invariant old(server.work.session) == condstore ==> server.work.session == condstore'
      invariant StageTidy(old(sink.stage)) ==> StageTidy(sink.stage)
      invariant old(Unhindered(server, sink, budget)) && old(Scannable(server, sink, mailbox, condstore)) ==>
        && Unhindered(server, sink, budget) && Scannable(server, sink, mailbox, condstore) && condstore' == condstore
        && consecutive' == consecutive && scans == 0
        && sink.stage == old(sink.stage) && server.work == old(server.work)
      decreases MAX_CONSECUTIVE_SESSION_RECONNECTS - consecutive'
    {
      ghost var world, stage, tally, work, failures :=
        server.world, sink.stage, sink.tally, server.work, sink.failures;
      ReadyIsValid(server, sink, budget);
      var more;
      r, more := FetchWithStabilityRetry(server, sink, budget, classify, mailbox, condstore');
      ReadyIsValid(server, sink, budget);
      ghost var world1, work1 := server.world, server.work;
      WorldEvolvesTransitive(old(server.world), world, world1);
      OnlyFolderTransitive(old(sink.stage), old(sink.tally), stage, tally, sink.stage, sink.tally, place);
      SpentAdds(old(server.work), work, work1, consecutive' - consecutive, scans, 0, more);
      scans := scans + more;
      if r.Ok? || !r.error.SessionFatal? || consecutive' == MAX_CONSECUTIVE_SESSION_RECONNECTS {
        LastAttemptDecides(old(server.work), work, work1, consecutive' - consecutive, consecutive',
                           failures < sink.failures, old(sink.failures) < sink.failures, r);
        return;
      }
      var session := Reopen(server, sink, budget);
      ReadyIsValid(server, sink, budget);
      WorldEvolvesTransitive(old(server.world), world1, server.world);
      SpentAdds(old(server.work), work1, server.work, consecutive' - consecutive, scans, 1, 0);
      CleanWhateverFollows(sink.stage, place, r.error,
                           if session.Killed? then KilledMidway else SessionFatal(ReconnectFailed));
      AttemptLostSession(old(server.work), work, work1, server.work, consecutive' - consecutive, consecutive' + 1,
                         failures < sink.failures, old(sink.failures) < sink.failures, r,
                         Err(if session.Killed? then KilledMidway else SessionFatal(ReconnectFailed)));
      consecutive' := consecutive' + 1;
      match session
      case Reply(advertised) => condstore' := advertised;
      case Refused(_) => r := Err(SessionFatal(ReconnectFailed)); return;
      case Killed => r := Err(KilledMidway); return;
    }
  }

  // ----- All folders

  const MAX_FOLDER_FAILURE_DETAILS := 16

  datatype AccountError =
    | Unusable(cause: Cause)
    | NoSelectableFolders | UnreadableNames | EverythingExcluded
    | Aborted(error: FetchError)
    | AccountLimit
    | Incomplete(folders: seq<(string, FetchError)>, count: nat)
    | AccountKilled

  datatype Summary = Summary(mailboxes: set<string>, totalExists: nat)

  datatype AccountResult = Complete(summary: Summary) | Rejected(error: AccountError)

  ghost predicate NoFailures(failed: map<string, FetchError>) { failed == map[] }

  /** After such a failure no other folder is visited. */
  predicate IsFatal(e: FetchError) { e.KilledMidway? || e.Control? || e.SessionFatal? }

  ghost predicate NoneFatal(failed: map<string, FetchError>) {
    forall m :: m in failed ==> !IsFatal(failed[m])
  }

  predicate Reports(error: AccountError, e: FetchError) {
    match e
    case KilledMidway => error.AccountKilled?
    case Control(_) => error == Aborted(e)
    case _ => error.Incomplete?
  }

  /** The error names failed folders with their own errors, as many as it has room for, and counts them
      all; the scan visited the whole inventory unless a session was lost.  A fatal failure is the
      only one of its kind and decides the error. */
  ghost predicate Names(
    error: AccountError, inventory: set<string>, closing: map<string, nat>, failed: map<string, FetchError>)
  {
    && (error.Incomplete? ==>
          && !NoFailures(failed) && IsDetail(error.folders, error.count, failed)
          && (closing.Keys + failed.Keys == inventory || exists m :: m in failed && failed[m].SessionFatal?))
    && forall m :: m in failed && IsFatal(failed[m]) ==>
         Reports(error, failed[m]) && forall n :: n in failed && IsFatal(failed[n]) ==> n == m
  }

  ghost predicate IsDetail(folders: seq<(string, FetchError)>, count: nat, failed: map<string, FetchError>) {
    && count == |failed| && |folders| == Min(count, MAX_FOLDER_FAILURE_DETAILS)
    && (forall i :: 0 <= i < |folders| ==> folders[i].0 in failed && failed[folders[i].0] == folders[i].1)
    && (forall i, j :: 0 <= i < j < |folders| ==> folders[i].0 != folders[j].0)
  }

  lemma DetailGrows(
    folders: seq<(string, FetchError)>, count: nat, failed: map<string, FetchError>, mailbox: string, error: FetchError)
    requires IsDetail(folders, count, failed) && mailbox !in failed
    ensures IsDetail(
      if |folders| < MAX_FOLDER_FAILURE_DETAILS then folders + [(mailbox, error)] else folders, count + 1,
      failed[mailbox := error])
    ensures !NoFailures(failed[mailbox := error])
    ensures NoneFatal(failed) && !error.KilledMidway? && !error.Control? && !error.SessionFatal? ==>
      NoneFatal(failed[mailbox := error])
  {
    assert mailbox in failed[mailbox := error];
  }

  /** How much work an account scan did. */
  datatype Effort = Effort(scans: nat, reconnects: nat, folders: nat, successes: nat)

  /** Three reconnects in a row between two successes. */
  function MostReconnects(successes: nat): nat { MAX_CONSECUTIVE_SESSION_RECONNECTS * (successes + 1) }

  /** Two scans for each session that a folder was tried on. */
  function MostScans(folders: nat, reconnects: nat): nat { MAX_MAILBOX_STABILITY_ATTEMPTS * (folders + reconnects) }

  ghost predicate Bounded(e: Effort) {
    && e.successes <= e.folders
    && e.reconnects <= MostReconnects(e.successes)
    && e.scans <= MostScans(e.folders, e.reconnects)
  }

  /** Each of these folders was exactly as staged at its own closing SELECT, a moment of this part of the run. */
  ghost predicate Certified(
    stage: Stage, side: Side, past: seq<World>, from: nat, until: nat, closing: map<string, nat>)
  {
    forall m :: m in closing ==>
      && from <= closing[m] <= until < |past|
      && Verified(stage, Place(side, m), At(past[closing[m]], Place(side, m)))
  }

  /** Nothing is staged on this side outside the inventory. */
  ghost predicate StagedWithin(stage: Stage, side: Side, inventory: set<string>) {
    forall p :: p in stage.folders && p.side == side ==> p.mailbox in inventory
  }

  ghost predicate OtherSideKept(s: Stage, t: Stage, side: Side) {
    && s.durable == t.durable
    && forall p: Place :: p.side != side ==>
         (p in s.folders <==> p in t.folders) && (p in s.folders ==> s.folders[p] == t.folders[p])
  }

  lemma VerifiedMoves(s: Stage, t: Stage, p: Place, f: Folder)
    requires Verified(s, p, f) && p in t.folders && t.folders[p] == s.folders[p]
    ensures Verified(t, p, f)
  {
  }

  lemma CertifiedLasts(
    s: Stage, t: Stage, side: Side, past: seq<World>, from: nat, until: nat, later: nat,
    closing: map<string, nat>, mailbox: string)
    requires Certified(s, side, past, from, until, closing) && mailbox !in closing
    requires until <= later < |past| && OthersKept(s, t, Place(side, mailbox))
    ensures Certified(t, side, past, from, later, closing)
  {
    hide Verified;
    forall m | m in closing ensures Verified(t, Place(side, m), At(past[closing[m]], Place(side, m))) {
      var p := Place(side, m);
      VerifiedIsStaged(s, p, At(past[closing[m]], p));
      VerifiedMoves(s, t, p, At(past[closing[m]], p));
    }
  }

  lemma VerifiedIsStaged(s: Stage, p: Place, f: Folder)
    requires Verified(s, p, f)
    ensures p in s.folders
  {
  }

  lemma CertifiedGrows(
    s: Stage, side: Side, past: seq<World>, from: nat, until: nat, closing: map<string, nat>, mailbox: string)
    requires Certified(s, side, past, from, until, closing) && from <= until < |past|
    requires Verified(s, Place(side, mailbox), At(past[until], Place(side, mailbox)))
    ensures Certified(s, side, past, from, until, closing[mailbox := until])
  {
    hide Verified;
  }

  lemma TallyGrows(t: Tally, t': Tally, mailbox: string, n: nat)
    requires OthersCounted(t, t', mailbox) && mailbox !in t.counts
    requires mailbox in t'.counts && t'.counts[mailbox] == n
    ensures t'.counts == t.counts[mailbox := n]
    ensures Sum(t'.counts) == Sum(t.counts) + n
  {
    assert t'.counts == t.counts[mailbox := n];
    SumInsert(t.counts, mailbox, n);
  }

  lemma OneFolderStaysWithin(s: Stage, t: Stage, side: Side, inventory: set<string>, mailbox: string)
    requires StagedWithin(s, side, inventory) && mailbox in inventory
    requires OthersKept(s, t, Place(side, mailbox))
    ensures StagedWithin(t, side, inventory) && OtherSideKept(s, t, side)
  {
    forall p | p in t.folders && p.side == side ensures p.mailbox in inventory {
      if p != Place(side, mailbox) {
        assert p in s.folders;
      }
    }
  }

  lemma OtherSideKeptTransitive(s: Stage, t: Stage, u: Stage, side: Side)
    requires OtherSideKept(s, t, side) && OtherSideKept(t, u, side)
    ensures OtherSideKept(s, u, side)
  {
  }

  /** Every folder that failed is clean. */
  ghost predicate FailuresClean(stage: Stage, side: Side, failed: map<string, FetchError>) {
    forall m :: m in failed ==> CleanFailure(stage, Place(side, m), failed[m])
  }

  lemma FailuresStayClean(s: Stage, t: Stage, side: Side, failed: map<string, FetchError>, mailbox: string)
    requires FailuresClean(s, side, failed) && mailbox !in failed
    requires OthersKept(s, t, Place(side, mailbox))
    ensures FailuresClean(t, side, failed)
  {
  }

  lemma FailureJoins(s: Stage, side: Side, failed: map<string, FetchError>, mailbox: string, error: FetchError)
    requires FailuresClean(s, side, failed) && CleanFailure(s, Place(side, mailbox), error)
    ensures FailuresClean(s, side, failed[mailbox := error])
  {
  }

  /** What the folder loop knows about the folders it has visited. */
  ghost predicate Visited(
    stage: Stage, tally: Tally, side: Side, past: seq<World>, from: nat, until: nat,
    inventory: set<string>, left: set<string>, closing: map<string, nat>, failed: map<string, FetchError>)
  {
    && left <= inventory
    && closing.Keys + failed.Keys == inventory - left && closing.Keys !! failed.Keys
    && Certified(stage, side, past, from, until, closing)
    && FailuresClean(stage, side, failed)
    && StagedWithin(stage, side, inventory)
    && (NoFailures(failed) ==> tally.counts.Keys == closing.Keys)
  }

  lemma VisitedLasts(
    s: Stage, t: Tally, side: Side, past: seq<World>, from: nat, until: nat, later: nat,
    inventory: set<string>, left: set<string>, closing: map<string, nat>, failed: map<string, FetchError>)
    requires Visited(s, t, side, past, from, until, inventory, left, closing, failed) && until <= later < |past|
    ensures Visited(s, t, side, past, from, later, inventory, left, closing, failed)
  {
    hide Verified;
  }

  lemma VisitSucceeds(
    s: Stage, t: Tally, s': Stage, t': Tally, side: Side, past: seq<World>, from: nat, until: nat, later: nat,
    inventory: set<string>, left: set<string>,
    closing: map<string, nat>, failed: map<string, FetchError>, mailbox: string, n: nat)
    requires Visited(s, t, side, past, from, until, inventory, left, closing, failed) && mailbox in left
    requires from <= until <= later < |past|
    requires OnlyFolder(s, t, s', t', Place(side, mailbox))
    requires Verified(s', Place(side, mailbox), At(past[later], Place(side, mailbox)))
    requires mailbox in t'.counts && t'.counts[mailbox] == n
    ensures Visited(s', t', side, past, from, later, inventory, left - {mailbox}, closing[mailbox := later], failed)
    ensures OtherSideKept(s, s', side)
    ensures mailbox !in closing && (NoFailures(failed) ==> Sum(t'.counts) == Sum(t.counts) + n)
  {
    hide Verified, Certified, FailuresClean, StagedWithin, OtherSideKept, Collections.Sum;
    hide MessageStage.OthersKept, MessageSink.OthersCounted;
    assert mailbox !in closing && mailbox !in failed by {
      assert mailbox !in closing.Keys + failed.Keys;
    }
    CertifiedLasts(s, s', side, past, from, until, later, closing, mailbox);
    CertifiedGrows(s', side, past, from, later, closing, mailbox);
    FailuresStayClean(s, s', side, failed, mailbox);
    OneFolderStaysWithin(s, s', side, inventory, mailbox);
    if NoFailures(failed) {
      TallyGrows(t, t', mailbox, n);
    }
  }

  lemma VisitFails(
    s: Stage, t: Tally, s': Stage, t': Tally, side: Side, past: seq<World>, from: nat, until: nat, later: nat,
    inventory: set<string>, left: set<string>,
    closing: map<string, nat>, failed: map<string, FetchError>, mailbox: string, error: FetchError)
    requires Visited(s, t, side, past, from, until, inventory, left, closing, failed) && mailbox in left
    requires until <= later < |past|
    requires OnlyFolder(s, t, s', t', Place(side, mailbox))
    requires CleanFailure(s', Place(side, mailbox), error)
    ensures Visited(s', t', side, past, from, later, inventory, left - {mailbox}, closing, failed[mailbox := error])
    ensures mailbox !in failed && OtherSideKept(s, s', side)
  {
    hide Verified, Certified, FailuresClean, StagedWithin, OtherSideKept, Collections.Sum;
    hide MessageStage.OthersKept, MessageSink.OthersCounted;
    assert mailbox !in closing && mailbox !in failed by {
      assert mailbox !in closing.Keys + failed.Keys;
    }
    CertifiedLasts(s, s', side, past, from, until, later, closing, mailbox);
    FailuresStayClean(s, s', side, failed, mailbox);
    FailureJoins(s', side, failed, mailbox, error);
    OneFolderStaysWithin(s, s', side, inventory, mailbox);
    assert mailbox in failed[mailbox := error];
  }

  /** One more folder, and how it adds to the effort. */
  function Count(e: Effort, scans: nat, reconnects: nat, success: bool): Effort {
    Effort(e.scans + scans, e.reconnects + reconnects, e.folders + 1, e.successes + if success then 1 else 0)
  }

  /** The effort counts the folders that were scanned, and those of them that scanned well. */
  ghost predicate Accounts(e: Effort, closing: map<string, nat>, failed: map<string, FetchError>) {
    e.successes == |closing| && e.folders == |closing| + |failed|
  }

  /** The effort so far, with `consecutive` reconnects since the last success. */
  ghost predicate BoundedSoFar(e: Effort, consecutive: nat) {
    && e.successes <= e.folders && consecutive <= MAX_CONSECUTIVE_SESSION_RECONNECTS
    && e.reconnects <= MAX_CONSECUTIVE_SESSION_RECONNECTS * e.successes + consecutive
    && e.scans <= MostScans(e.folders, e.reconnects)
  }

  /** The effort is what was really done since `origin`. */
  ghost predicate Metered(
    origin: Work, work: Work, e: Effort, consecutive: nat, closing: map<string, nat>, failed: map<string, FetchError>)
  {
    && BoundedSoFar(e, consecutive) && Accounts(e, closing, failed)
    && Spent(origin, work, e.reconnects, e.scans)
  }

  lemma EffortStaysBounded(e: Effort, consecutive: nat, consecutive': nat, scans: nat)
    requires BoundedSoFar(e, consecutive)
    requires consecutive <= consecutive' <= MAX_CONSECUTIVE_SESSION_RECONNECTS
    requires scans <= MAX_MAILBOX_STABILITY_ATTEMPTS * (1 + consecutive' - consecutive)
    ensures BoundedSoFar(Count(e, scans, consecutive' - consecutive, true), 0)
    ensures BoundedSoFar(Count(e, scans, consecutive' - consecutive, false), consecutive')
  {
  }

  lemma MeterAdmits(
    origin: Work, before: Work, work: Work, answered: bool, e: Effort, consecutive: nat,
    closing: map<string, nat>, failed: map<string, FetchError>)
    requires Metered(origin, before, e, consecutive, closing, failed) && work == With(before, answered)
    ensures consecutive <= MAX_CONSECUTIVE_SESSION_RECONNECTS
    ensures Metered(origin, work, e, consecutive, closing, failed)
  {
  }

  lemma MeterSuccess(
    origin: Work, v: Work, w: Work, e: Effort, consecutive: nat, consecutive': nat, scans: nat,
    closing: map<string, nat>, failed: map<string, FetchError>, mailbox: string, now: nat)
    requires Metered(origin, v, e, consecutive, closing, failed) && Spent(v, w, consecutive' - consecutive, scans)
    requires consecutive <= consecutive' <= MAX_CONSECUTIVE_SESSION_RECONNECTS && mailbox !in closing
    requires scans <= MAX_MAILBOX_STABILITY_ATTEMPTS * (1 + consecutive' - consecutive)
    ensures Metered(origin, w, Count(e, scans, consecutive' - consecutive, true), 0, closing[mailbox := now], failed)
  {
    EffortStaysBounded(e, consecutive, consecutive', scans);
  }

  lemma MeterFailure(
    origin: Work, v: Work, w: Work, e: Effort, consecutive: nat, consecutive': nat, scans: nat,
    closing: map<string, nat>, failed: map<string, FetchError>, mailbox: string, error: FetchError)
    requires Metered(origin, v, e, consecutive, closing, failed) && Spent(v, w, consecutive' - consecutive, scans)
    requires consecutive <= consecutive' <= MAX_CONSECUTIVE_SESSION_RECONNECTS && mailbox !in failed
    requires scans <= MAX_MAILBOX_STABILITY_ATTEMPTS * (1 + consecutive' - consecutive)
    ensures Metered(
      origin, w, Count(e, scans, consecutive' - consecutive, false), consecutive', closing, failed[mailbox := error])
  {
    EffortStaysBounded(e, consecutive, consecutive', scans);
  }

  // ----- Undisturbed accounts

  function Sizes(w: World, side: Side, names: set<string>): map<string, nat> {
    map m | m in names :: |At(w, Place(side, m)).uids|
  }

  lemma SizeLeaves(w: World, side: Side, names: set<string>, m: string)
    requires m in names
    ensures Sum(Sizes(w, side, names)) == |At(w, Place(side, m)).uids| + Sum(Sizes(w, side, names - {m}))
  {
    SumRemove(Sizes(w, side, names), m);
    assert Sizes(w, side, names) - {m} == Sizes(w, side, names - {m});
  }

  /** The folders can be opened, their records are of usual size, and the limit leaves room for all of them. */
  ghost predicate Ample(w: World, side: Side, names: set<string>, condstore: bool, room: int) {
    && (forall m :: m in names ==>
          Usable(m, At(w, Place(side, m)), condstore) && LightFolder(m, At(w, Place(side, m))))
    && Sum(Sizes(w, side, names)) <= room
  }

  /** The staged folders are what the server holds now, with flags exactly where they are tracked. */
  ghost predicate Current(stage: Stage, side: Side, w: World, names: set<string>, condstore: bool) {
    forall m :: m in names ==>
      && Verified(stage, Place(side, m), At(w, Place(side, m)))
      && FlagsFollow(stage, Place(side, m), At(w, Place(side, m)), condstore)
  }

  /** An undisturbed scan of `inventory` with the folders `left` to go. */
  ghost predicate CalmSoFar(
    w: World, stage: Stage, tally: Tally, side: Side, inventory: set<string>, left: set<string>, condstore: bool)
  {
    && left <= inventory
    && Ample(w, side, left, condstore, FetchLimit(stage.durable) - tally.count)
    && Current(stage, side, w, inventory - left, condstore)
  }

  lemma CalmIsScannable(
    w: World, stage: Stage, tally: Tally, side: Side, inventory: set<string>, left: set<string>, condstore: bool, m: string)
    requires CalmSoFar(w, stage, tally, side, inventory, left, condstore) && m in left
    ensures var f := At(w, Place(side, m));
      Usable(m, f, condstore) && LightFolder(m, f) && tally.count + |f.uids| <= FetchLimit(stage.durable)
  {
    hide Usable, LightFolder, Collections.Sum, MessageSink.FetchLimit;
    SizeLeaves(w, side, left, m);
  }

  lemma CurrentGrows(s: Stage, t: Stage, side: Side, w: World, names: set<string>, condstore: bool, mailbox: string)
    requires Current(s, side, w, names, condstore) && OthersKept(s, t, Place(side, mailbox))
    requires Verified(t, Place(side, mailbox), At(w, Place(side, mailbox)))
    requires FlagsFollow(t, Place(side, mailbox), At(w, Place(side, mailbox)), condstore)
    ensures Current(t, side, w, names + {mailbox}, condstore)
  {
    forall m | m in names + {mailbox}
      ensures Verified(t, Place(side, m), At(w, Place(side, m)))
      ensures FlagsFollow(t, Place(side, m), At(w, Place(side, m)), condstore)
    {
      if m != mailbox {
        assert Place(side, m) != Place(side, mailbox);
      }
    }
  }

  lemma CalmGoesOn(
    w: World, s: Stage, t: Tally, s': Stage, t': Tally, side: Side, inventory: set<string>, left: set<string>,
    condstore: bool, mailbox: string)
    requires CalmSoFar(w, s, t, side, inventory, left, condstore) && mailbox in left
    requires OthersKept(s, s', Place(side, mailbox))
    requires Verified(s', Place(side, mailbox), At(w, Place(side, mailbox)))
    requires FlagsFollow(s', Place(side, mailbox), At(w, Place(side, mailbox)), condstore)
    requires t'.count == t.count + |At(w, Place(side, mailbox)).uids|
    ensures CalmSoFar(w, s', t', side, inventory, left - {mailbox}, condstore)
  {
    hide Usable, LightFolder, Collections.Sum, MessageSink.FetchLimit, Verified, FlagsFollow;
    SizeLeaves(w, side, left, mailbox);
    CurrentGrows(s, s', side, w, inventory - left, condstore, mailbox);
    assert inventory - (left - {mailbox}) == inventory - left + {mailbox};
  }

  lemma CalmVisitGoesOn(
    w: World, s: Stage, t: Tally, s': Stage, t': Tally, side: Side, inventory: set<string>, left: set<string>,
    condstore: bool, mailbox: string)
    requires CalmSoFar(w, s, t, side, inventory, left, condstore) && mailbox in left
    requires OnlyFolder(s, t, s', t', Place(side, mailbox))
    requires Verified(s', Place(side, mailbox), At(w, Place(side, mailbox)))
    requires FlagsFollow(s', Place(side, mailbox), At(w, Place(side, mailbox)), condstore)
    requires t.count == Sum(t.counts) && t'.count == Sum(t'.counts)
    requires Sum(t'.counts) == Sum(t.counts) + |At(w, Place(side, mailbox)).uids|
    ensures CalmSoFar(w, s', t', side, inventory, left - {mailbox}, condstore)
  {
    hide CalmSoFar, Verified, FlagsFollow, Collections.Sum;
    CalmGoesOn(w, s, t, s', t', side, inventory, left, condstore, mailbox);
  }

  lemma CalmAtFirst(w: World, stage: Stage, side: Side, inventory: set<string>, condstore: bool)
    requires Ample(w, side, inventory, condstore, FetchLimit(stage.durable))
    ensures CalmSoFar(w, stage, EMPTY_TALLY, side, inventory, inventory, condstore)
  {
    assert inventory - inventory == {};
  }

  lemma CalmMeansScannable(
    server: Server, sink: StageMessageSink, inventory: set<string>, left: set<string>, condstore: bool, mailbox: string)
    requires CalmSoFar(server.world, sink.stage, sink.tally, sink.side, inventory, left, condstore) && mailbox in left
    ensures Scannable(server, sink, mailbox, condstore)
  {
    hide CalmSoFar;
    CalmIsScannable(server.world, sink.stage, sink.tally, sink.side, inventory, left, condstore, mailbox);
  }

  lemma CalmAtTheEnd(w: World, stage: Stage, tally: Tally, side: Side, inventory: set<string>, condstore: bool)
    requires CalmSoFar(w, stage, tally, side, inventory, {}, condstore)
    ensures Current(stage, side, w, inventory, condstore)
  {
    assert inventory - {} == inventory;
  }

  // ----- What an undisturbed account costs

  /** The snapshot that a scan takes of the folder. */
  function SnapshotOf(f: Folder, condstore: bool): Snapshot {
    Snapshot(f.uidvalidity, f.uidnext, |f.uids|, if condstore && f.tracked then Some(f.modseq) else None)
  }

  lemma SavedIsPart(s: Stage, p: Place, snapshot: Snapshot)
    ensures Saved(s, p, snapshot) <= snapshot.exists_
  {
  }

  /** The messages of a folder that no earlier scan has saved. */
  function Rest(w: World, s: Stage, side: Side, m: string, condstore: bool): nat {
    var f := At(w, Place(side, m));
    SavedIsPart(s, Place(side, m), SnapshotOf(f, condstore));
    |f.uids| - Saved(s, Place(side, m), SnapshotOf(f, condstore))
  }

  function Rests(w: World, s: Stage, side: Side, names: set<string>, condstore: bool): map<string, nat> {
    map m | m in names :: Rest(w, s, side, m, condstore)
  }

  /** So far an undisturbed scan has listed and fetched exactly what no earlier scan had saved of the visited folders. */
  ghost predicate Thrifty(
    origin: Work, work: Work, w: World, staged: Stage, stage: Stage, side: Side,
    inventory: set<string>, left: set<string>, condstore: bool)
  {
    && left <= inventory && EntriesKept(staged, stage, side, left)
    && Costs(origin, work, Sum(Rests(w, staged, side, inventory, condstore)) - Sum(Rests(w, staged, side, left, condstore)))
  }

  lemma ThriftyAtFirst(work: Work, w: World, stage: Stage, side: Side, inventory: set<string>, condstore: bool)
    ensures Thrifty(work, work, w, stage, stage, side, inventory, inventory, condstore)
  {
  }

  lemma RestLeaves(w: World, s: Stage, side: Side, names: set<string>, condstore: bool, m: string)
    requires m in names
    ensures Sum(Rests(w, s, side, names, condstore)) ==
      Rest(w, s, side, m, condstore) + Sum(Rests(w, s, side, names - {m}, condstore))
  {
    SumRemove(Rests(w, s, side, names, condstore), m);
    assert Rests(w, s, side, names, condstore) - {m} == Rests(w, s, side, names - {m}, condstore);
  }

  /**
   What a scan of tracked folders left on a durable stage leaves nothing to fetch: as long as the
   folders stay as they are, the next undisturbed scan lists and fetches no message at all.
   */
  lemma {:induction false} RescanIsFree(w: World, stage: Stage, side: Side, names: set<string>)
    requires stage.durable && Current(stage, side, w, names, true)
    requires forall m :: m in names ==> At(w, Place(side, m)).tracked
    ensures Sum(Rests(w, stage, side, names, true)) == 0
  {
    hide Verified, FlagsFollow, MessageStage.Saved, Collections.Sum, Rests;
    if names == {} {
      NothingToFetch(w, stage, side);
    } else {
      var m :| m in names;
      RestLeaves(w, stage, side, names, true, m);
      ScannedSnapshot(stage, Place(side, m), At(w, Place(side, m)), true);
      TrackedIsSaved(stage, Place(side, m), At(w, Place(side, m)));
      RescanIsFree(w, stage, side, names - {m});
    }
  }

  lemma NothingToFetch(w: World, stage: Stage, side: Side)
    ensures Sum(Rests(w, stage, side, {}, true)) == 0
  {
  }

  lemma TrackedIsSaved(stage: Stage, place: Place, f: Folder)
    requires Verified(stage, place, f) && FlagsFollow(stage, place, f, true) && f.tracked && stage.durable
    ensures Saved(stage, place, stage.folders[place].cursor.snapshot) == |f.uids|
  {
    VerifiedIsSaved(stage, place, f);
  }

  lemma ScannedSnapshot(stage: Stage, place: Place, f: Folder, condstore: bool)
    requires Verified(stage, place, f) && FlagsFollow(stage, place, f, condstore)
    ensures stage.folders[place].cursor.snapshot == SnapshotOf(f, condstore)
    ensures |Rows(stage, place)| == |f.uids|
  {
  }

  lemma EntriesStayKept(s: Stage, t: Stage, u: Stage, side: Side, left: set<string>, m: string)
    requires EntriesKept(s, t, side, left) && OthersKept(t, u, Place(side, m))
    ensures EntriesKept(s, u, side, left - {m})
  {
  }

  lemma KeptIsSaved(s: Stage, t: Stage, side: Side, names: set<string>, m: string, snapshot: Snapshot)
    requires EntriesKept(s, t, side, names) && m in names
    ensures Saved(s, Place(side, m), snapshot) == Saved(t, Place(side, m), snapshot)
  {
  }

  lemma ThriftyGoesOn(
    origin: Work, v: Work, work: Work, w: World, staged: Stage, s: Stage, t: Stage, side: Side,
    inventory: set<string>, left: set<string>, condstore: bool, m: string)
    requires Thrifty(origin, v, w, staged, s, side, inventory, left, condstore) && m in left
    requires OthersKept(s, t, Place(side, m)) && CostsTheRest(s, t, Place(side, m), v, work)
    requires Verified(t, Place(side, m), At(w, Place(side, m)))
    requires FlagsFollow(t, Place(side, m), At(w, Place(side, m)), condstore)
    ensures Thrifty(origin, work, w, staged, t, side, inventory, left - {m}, condstore)
  {
    hide Verified, FlagsFollow, Collections.Sum, MessageStage.Saved, Rests, EntriesKept, MessageStage.OthersKept;
    ScannedSnapshot(t, Place(side, m), At(w, Place(side, m)), condstore);
    KeptIsSaved(staged, s, side, left, m, SnapshotOf(At(w, Place(side, m)), condstore));
    EntriesStayKept(staged, s, t, side, left, m);
    RestLeaves(w, staged, side, left, condstore, m);
  }

  lemma ThriftyAtTheEnd(
    origin: Work, work: Work, w: World, staged: Stage, stage: Stage, side: Side, inventory: set<string>, condstore: bool)
    requires Thrifty(origin, work, w, staged, stage, side, inventory, {}, condstore)
    ensures Costs(origin, work, Sum(Rests(w, staged, side, inventory, condstore)))
  {
    assert Rests(w, staged, side, {}, condstore) == map[];
  }

  lemma RestsOfKept(w: World, s: Stage, t: Stage, side: Side, names: set<string>, condstore: bool)
    requires EntriesKept(s, t, side, names)
    ensures Rests(w, s, side, names, condstore) == Rests(w, t, side, names, condstore)
  {
    hide EntriesKept, MessageStage.Saved;
    forall m | m in names ensures Rest(w, s, side, m, condstore) == Rest(w, t, side, m, condstore) {
      KeptIsSaved(s, t, side, names, m, SnapshotOf(At(w, Place(side, m)), condstore));
    }
  }

  datatype Visit = Passed(exists_: nat) | Lost(error: FetchError) | Stopped(reason: AccountError)

  /** The standing of an account scan that started at `begun` with `staged`. */
  ghost predicate InOrder(
    server: Server, sink: StageMessageSink, budget: MessageStateBudget, begun: nat, staged: Stage, leaked: nat)
    reads server, sink, budget
  {
    && Ready(server, sink, budget) && budget.Held(sink.side) == 0 && budget.Leaked(sink.side) == leaked
    && begun <= server.now
    && OtherSideKept(staged, sink.stage, sink.side)
  }

  /** Visit one folder on the current session. */
  method VisitFolder(
    server: Server, sink: StageMessageSink, budget: MessageStateBudget, classify: Classifier,
    mailbox: string, advertised: bool, before: nat, spent: Effort,
    ghost begun: nat, ghost origin: Work, ghost staged: Stage, ghost leaked: nat,
    ghost inventory: set<string>, ghost left: set<string>,
    ghost closing: map<string, nat>, ghost failed: map<string, FetchError>)
    returns (v: Visit, condstore: bool, consecutive: nat, effort: Effort, ghost closing': map<string, nat>)
    requires InOrder(server, sink, budget, begun, staged, leaked)
    requires Visited(sink.stage, sink.tally, sink.side, server.chronicle, begun, server.now, inventory, left, closing, failed)
    requires mailbox in left && Metered(origin, server.work, spent, before, closing, failed)
    modifies server, sink, budget
    ensures InOrder(server, sink, budget, begun, staged, leaked)
    ensures v.Stopped? <==> !old(server.NextOutcome()).Answered?
    ensures sink.tally.count == Sum(sink.tally.counts) && sink.tally.count <= FetchLimit(sink.stage.durable) <= U64_MAX
    ensures server.TimeMoves() && sink.OnlyFolderChanged(mailbox)
    ensures old(server.work.session) == advertised ==> server.work.session == condstore
    ensures StageTidy(old(sink.stage)) ==> StageTidy(sink.stage)
    ensures old(Unhindered(server, sink, budget)) && old(Scannable(server, sink, mailbox, advertised)) ==>
      && v == Passed(|At(server.world, Place(sink.side, mailbox)).uids|)
      && Unhindered(server, sink, budget) && condstore == advertised && effort == Count(spent, 1, 0, true)
      && Verified(sink.stage, Place(sink.side, mailbox), At(server.world, Place(sink.side, mailbox)))
      && FlagsFollow(sink.stage, Place(sink.side, mailbox), At(server.world, Place(sink.side, mailbox)), advertised)
      && CostsTheRest(old(sink.stage), sink.stage, Place(sink.side, mailbox), old(server.work), server.work)
    ensures match v
      case Passed(n) =>
        && closing' == closing[mailbox := server.now] && consecutive == 0
        && Visited(sink.stage, sink.tally, sink.side, server.chronicle, begun, server.now,
                   inventory, left - {mailbox}, closing', failed)
        && Metered(origin, server.work, effort, consecutive, closing', failed)
        && (NoFailures(failed) ==> Sum(sink.tally.counts) == old(Sum(sink.tally.counts)) + n)
      case Lost(e) =>
        && closing' == closing && (e.SessionFatal? ==> consecutive == 3 || e.cause == ReconnectFailed)
        && Visited(sink.stage, sink.tally, sink.side, server.chronicle, begun, server.now,
                   inventory, left - {mailbox}, closing, failed[mailbox := e])
        && mailbox !in failed && Metered(origin, server.work, effort, consecutive, closing, failed[mailbox := e])
      case Stopped(reason) =>
        && closing' == closing && !reason.AccountLimit? && !reason.Incomplete?
        && Metered(origin, server.work, effort, consecutive, closing, failed)
        && Visited(sink.stage, sink.tally, sink.side, server.chronicle, begun, server.now, inventory, left, closing, failed)
  {
    hide ImapServer.ValidWorld, ImapServer.WorldEvolves, Verified, Visited, OtherSideKept;
    hide MessageStage.StageTrusted, MessageSink.RowsCounted, MessageSink.OnlyFolder, Collections.Sum, CleanFailure;
    hide ImapServer.Calm, FlagsFollow, Usable, LightFolder, ImapServer.Lawful, ImapServer.Foretells;
    hide Metered, ImapServer.Spent, MessageStage.StageTidy, Losses, CostsTheRest;
    ghost var side, place := sink.side, Place(sink.side, mailbox);
    condstore, consecutive, effort, closing' := advertised, before, spent, closing;
    OnlyFolderReflexive(sink.stage, sink.tally, place);
    var check := server.Check();
    ghost var past, checked, work := server.chronicle, server.now, server.work;
    MeterAdmits(origin, old(server.work), work, check.Reply?, spent, before, closing, failed);
    StageTrustLasts(sink.stage, old(server.world), server.world);
    VisitedLasts(sink.stage, sink.tally, side, past, begun, old(server.now), checked, inventory, left, closing, failed);
    if !check.Reply? {
      v := Stopped(if check.Killed? then AccountKilled else Aborted(Fail(classify, check)));
      return;
    }
    var fetched, scans;
    fetched, condstore, consecutive, scans :=
      FetchWithSessionReconnect(server, sink, budget, classify, mailbox, condstore, before);
    effort := Count(spent, scans, consecutive - before, fetched.Ok?);
    if fetched.Ok? {
      VisitSucceeds(old(sink.stage), old(sink.tally), sink.stage, sink.tally, side, past, begun, checked, server.now,
                    inventory, left, closing, failed, mailbox, fetched.value);
      MeterSuccess(origin, work, server.work, spent, before, consecutive, scans, closing, failed, mailbox, server.now);
      closing' := closing[mailbox := server.now];
      consecutive := 0;
      v := Passed(fetched.value);
    } else {
      VisitFails(old(sink.stage), old(sink.tally), sink.stage, sink.tally, side, past, begun, checked, server.now,
                 inventory, left, closing, failed, mailbox, fetched.error);
      MeterFailure(origin, work, server.work, spent, before, consecutive, scans, closing, failed, mailbox, fetched.error);
      v := Lost(fetched.error);
    }
    OtherSideKeptTransitive(staged, old(sink.stage), sink.stage, side);
  }

  lemma NothingVisitedYet(stage: Stage, side: Side, past: seq<World>, now: nat, inventory: set<string>)
    requires StagedWithin(stage, side, inventory)
    ensures Visited(stage, EMPTY_TALLY, side, past, now, now, inventory, inventory, map[], map[])
    ensures Sum(EMPTY_TALLY.counts) == 0 && EMPTY_TALLY.count == 0
    ensures forall work :: Metered(work, work, Effort(0, 0, 0, 0), 0, map[], map[])
    ensures IsDetail([], 0, map[]) && NoFailures(map[]) && NoneFatal(map[])
  {
    assert inventory - inventory == {};
  }

  lemma InOrderAtFirst(server: Server, sink: StageMessageSink, budget: MessageStateBudget)
    requires Ready(server, sink, budget) && budget.Held(sink.side) == 0
    ensures InOrder(server, sink, budget, server.now, sink.stage, budget.Leaked(sink.side))
  {
  }

  /** What an account scan leaves behind, however it ends: certified folders and clean failures,
      all of them from the inventory. */
  ghost predicate Surveyed(
    stage: Stage, side: Side, past: seq<World>, from: nat, until: nat, inventory: set<string>,
    closing: map<string, nat>, failed: map<string, FetchError>)
  {
    && closing.Keys !! failed.Keys && closing.Keys + failed.Keys <= inventory
    && Certified(stage, side, past, from, until, closing)
    && FailuresClean(stage, side, failed)
  }

  lemma SurveyCertifies(
    s: Stage, side: Side, past: seq<World>, from: nat, until: nat, inventory: set<string>,
    closing: map<string, nat>, failed: map<string, FetchError>)
    requires Surveyed(s, side, past, from, until, inventory, closing, failed)
    ensures Certified(s, side, past, from, until, closing)
  {
  }

  /** The loop's knowledge, as the account's result needs it. */
  lemma VisitedMeans(
    s: Stage, t: Tally, side: Side, past: seq<World>, from: nat, until: nat,
    inventory: set<string>, left: set<string>, closing: map<string, nat>, failed: map<string, FetchError>)
    requires Visited(s, t, side, past, from, until, inventory, left, closing, failed)
    ensures Surveyed(s, side, past, from, until, inventory, closing, failed) && StagedWithin(s, side, inventory)
    ensures left == {} ==> closing.Keys + failed.Keys == inventory
    ensures left == {} && NoFailures(failed) ==> closing.Keys == inventory == t.counts.Keys
  {
    hide Certified, FailuresClean, StagedWithin;
    assert left == {} ==> inventory - left == inventory;
    if left == {} && NoFailures(failed) {
      assert closing.Keys + failed.Keys == closing.Keys;
    }
  }

  lemma MeteredAtTheEnd(
    origin: Work, work: Work, e: Effort, consecutive: nat, closing: map<string, nat>, failed: map<string, FetchError>)
    requires Metered(origin, work, e, consecutive, closing, failed)
    ensures Bounded(e) && Accounts(e, closing, failed) && Spent(origin, work, e.reconnects, e.scans)
  {
  }

  lemma NotIncomplete(
    error: AccountError, inventory: set<string>, closing: map<string, nat>, failed: map<string, FetchError>)
    requires !error.Incomplete? && NoneFatal(failed)
    ensures Names(error, inventory, closing, failed)
  {
  }

  lemma FatalIsNamed(
    inventory: set<string>, closing: map<string, nat>, failed: map<string, FetchError>, mailbox: string, e: FetchError)
    requires NoneFatal(failed) && (e.KilledMidway? || e.Control?)
    ensures Names(if e.Control? then Aborted(e) else AccountKilled, inventory, closing, failed[mailbox := e])
  {
  }

  lemma LostSessionIsNamed(
    inventory: set<string>, closing: map<string, nat>, failed: map<string, FetchError>,
    folders: seq<(string, FetchError)>, count: nat, mailbox: string, e: FetchError)
    requires NoneFatal(failed) && e.SessionFatal? && IsDetail(folders, count, failed[mailbox := e])
    ensures Names(Incomplete(folders, count), inventory, closing, failed[mailbox := e])
  {
    hide IsDetail;
    assert mailbox in failed[mailbox := e].Keys;
  }

  lemma DetailsTell(
    folders: seq<(string, FetchError)>, count: nat, failed: map<string, FetchError>,
    inventory: set<string>, closing: map<string, nat>)
    requires IsDetail(folders, count, failed) && NoneFatal(failed)
    ensures folders == [] <==> NoFailures(failed)
    ensures folders != [] && closing.Keys + failed.Keys == inventory ==>
      Names(Incomplete(folders, count), inventory, closing, failed)
  {
  }

  lemma OnlyOthersKept(s: Stage, t: Tally, s': Stage, t': Tally, p: Place)
    requires OnlyFolder(s, t, s', t', p)
    ensures OthersKept(s, s', p)
  {
  }

  /** Scan the folders of the inventory one by one, in any order. */
  method ScanFolders(
    server: Server, sink: StageMessageSink, budget: MessageStateBudget, classify: Classifier,
    inventory: set<string>, advertised: bool)
    returns (r: AccountResult, effort: Effort, ghost closing: map<string, nat>, ghost failed: map<string, FetchError>)
    requires Ready(server, sink, budget) && budget.Held(sink.side) == 0
    requires sink.tally == EMPTY_TALLY && StagedWithin(sink.stage, sink.side, inventory)
    modifies server, sink, budget
    ensures InOrder(server, sink, budget, old(server.now), old(sink.stage), old(budget.Leaked(sink.side)))
    ensures Surveyed(sink.stage, sink.side, server.chronicle, old(server.now), server.now, inventory, closing, failed)
    ensures StagedWithin(sink.stage, sink.side, inventory)
    ensures Bounded(effort) && Accounts(effort, closing, failed)
    ensures r.Complete? ==>
      && closing.Keys == inventory == sink.tally.counts.Keys && NoFailures(failed)
      && r.summary == Summary(inventory, sink.tally.count)
    ensures r.Rejected? ==> !r.error.AccountLimit? && Names(r.error, inventory, closing, failed)
    ensures server.TimeMoves() && Spent(old(server.work), server.work, effort.reconnects, effort.scans)
    ensures StageTidy(old(sink.stage)) ==> StageTidy(sink.stage)
    ensures old(Unhindered(server, sink, budget)) ==>
      Ample(old(server.world), sink.side, inventory, advertised, FetchLimit(old(sink.stage).durable)) ==>
      && r.Complete? && Unhindered(server, sink, budget)
      && Current(sink.stage, sink.side, server.world, inventory, advertised)
      && effort.reconnects == 0 && effort.scans == effort.successes
      && Costs(old(server.work), server.work,
               Sum(Rests(old(server.world), old(sink.stage), sink.side, inventory, advertised)))
  {
    hide ImapServer.ValidWorld, ImapServer.WorldEvolves, Surveyed, OtherSideKept, StagedWithin, Visited, Ready, InOrder;
    hide Collections.Sum, MessageSink.FetchLimit, Metered, Bounded, ImapServer.Spent, ImapServer.Calm, Ample;
    hide CalmSoFar, Current;
    hide Verified, FlagsFollow, Scannable, MessageSink.OnlyFolder, Names, IsDetail, Accounts;
    hide StateBudget.MessageStateBudget.Held, StateBudget.MessageStateBudget.Leaked;
    hide StateBudget.MessageStateBudget.IsIdle;
    hide BoundedSoFar, NoFailures, NoneFatal, IsFatal, Thrifty, MessageStage.StageTidy, CostsTheRest, Rests;
    hide ImapServer.Costs;
    hide StateBudget.MessageStateBudget.Valid, MessageSink.TallyAgrees, ImapServer.Lawful, ImapServer.Foretells;
    ghost var calm := Unhindered(server, sink, budget)
      && Ample(server.world, sink.side, inventory, advertised, FetchLimit(sink.stage.durable));
    if calm {
      CalmAtFirst(server.world, sink.stage, sink.side, inventory, advertised);
      ThriftyAtFirst(server.work, server.world, sink.stage, sink.side, inventory, advertised);
    }
    ghost var begun, origin, staged, leaked := server.now, server.work, sink.stage, budget.Leaked(sink.side);
    var left, condstore, consecutive := inventory, advertised, 0;
    var total: nat, incompleteCount: nat := 0, 0;
    var incomplete: seq<(string, FetchError)> := [];
    effort, closing, failed := Effort(0, 0, 0, 0), map[], map[];
    NothingVisitedYet(sink.stage, sink.side, server.chronicle, begun, inventory);
    InOrderAtFirst(server, sink, budget);
    var verdict: Option<AccountError> := None;
    while left != {} && verdict.None?
      invariant InOrder(server, sink, budget, begun, staged, leaked)
      invariant sink.tally.count == Sum(sink.tally.counts)
      invariant Visited(sink.stage, sink.tally, sink.side, server.chronicle, begun, server.now,
                        inventory, left, closing, failed)
      invariant Metered(origin, server.work, effort, consecutive, closing, failed)
      invariant verdict.None? ==> IsDetail(incomplete, incompleteCount, failed) && NoneFatal(failed)
      invariant verdict.Some? ==> !verdict.value.AccountLimit? && Names(verdict.value, inventory, closing, failed)
      invariant verdict.None? && NoFailures(failed) ==> total == Sum(sink.tally.counts)
      invariant server.TimeMoves()
      invariant calm ==>
        verdict.None? && NoFailures(failed) && condstore == advertised && Unhindered(server, sink, budget)
      invariant calm ==> effort.reconnects == 0 && effort.scans == effort.successes
      invariant StageTidy(old(sink.stage)) ==> StageTidy(sink.stage)
      invariant calm ==>
        Thrifty(origin, server.work, server.world, staged, sink.stage, sink.side, inventory, left, advertised)
      invariant calm ==> CalmSoFar(server.world, sink.stage, sink.tally, sink.side, inventory, left, advertised)
      decreases left
    {
      var mailbox :| mailbox in left;
      var visit;
      ghost var stage, tally, world, work := sink.stage, sink.tally, server.world, server.work;
      if calm {
        CalmMeansScannable(server, sink, inventory, left, advertised, mailbox);
      }
      visit, condstore, consecutive, effort, closing := VisitFolder(
        server, sink, budget, classify, mailbox, condstore, consecutive, effort,
        begun, origin, staged, leaked, inventory, left, closing, failed);
      if calm {
        OnlyOthersKept(stage, tally, sink.stage, sink.tally, Place(sink.side, mailbox));
        ThriftyGoesOn(origin, work, server.work, world, staged, stage, sink.stage, sink.side,
                      inventory, left, advertised, mailbox);
        CalmVisitGoesOn(world, stage, tally, sink.stage, sink.tally, sink.side, inventory, left, advertised, mailbox);
      }
      match visit
      case Stopped(reason) =>
        NotIncomplete(reason, inventory, closing, failed);
        verdict := Some(reason);
        break;
      case Passed(folderExists) =>
        left := left - {mailbox};
        total := SaturatingAdd(total, folderExists);
        if sink.tally.count > FetchLimit(sink.stage.durable) {
          verdict := Some(AccountLimit);
        }
      case Lost(error) =>
        DetailGrows(incomplete, incompleteCount, failed, mailbox, error);
        ghost var before := failed;
        failed := failed[mailbox := error];
        left := left - {mailbox};
        if error.KilledMidway? || error.Control? {
          verdict := Some(if error.Control? then Aborted(error) else AccountKilled);
          FatalIsNamed(inventory, closing, before, mailbox, error);
        } else {
          incompleteCount := incompleteCount + 1;
          if |incomplete| < MAX_FOLDER_FAILURE_DETAILS {
            incomplete := incomplete + [(mailbox, error)];
          }
          if error.SessionFatal? {
            LostSessionIsNamed(inventory, closing, before, incomplete, incompleteCount, mailbox, error);
            verdict := Some(Incomplete(incomplete, incompleteCount));
          }
        }
    }
    VisitedMeans(sink.stage, sink.tally, sink.side, server.chronicle, begun, server.now, inventory, left, closing, failed);
    if calm {
      ThriftyAtTheEnd(origin, server.work, server.world, staged, sink.stage, sink.side, inventory, advertised);
      CalmAtTheEnd(server.world, sink.stage, sink.tally, sink.side, inventory, advertised);
    }
    MeteredAtTheEnd(origin, server.work, effort, consecutive, closing, failed);
    if verdict.None? {
      DetailsTell(incomplete, incompleteCount, failed, inventory, closing);
    }
    if verdict.None? && |incomplete| > 0 {
      verdict := Some(Incomplete(incomplete, incompleteCount));
    }
    r := if verdict.Some? then Rejected(verdict.value) else Complete(Summary(inventory, total));
  }

  /** How many rows are staged for each folder of one side. */
  ghost function RowCounts(stage: Stage, side: Side): map<string, nat> {
    var names := set p | p in stage.folders && p.side == side :: p.mailbox;
    map m | m in names :: |Rows(stage, Place(side, m))|
  }

  lemma CertifiedAreStaged(
    stage: Stage, side: Side, past: seq<World>, from: nat, until: nat, closing: map<string, nat>, m: string)
    requires Certified(stage, side, past, from, until, closing) && m in closing
    ensures Place(side, m) in stage.folders
  {
    hide Verified;
    VerifiedIsStaged(stage, Place(side, m), At(past[closing[m]], Place(side, m)));
  }

  /** After a complete scan the counters are the stage, folder by folder. */
  lemma CountsAreTheStage(
    stage: Stage, t: Tally, side: Side, past: seq<World>, from: nat, until: nat, closing: map<string, nat>)
    requires TallyAgrees(stage, side, t) && t.counts.Keys == closing.Keys
    requires Certified(stage, side, past, from, until, closing) && StagedWithin(stage, side, closing.Keys)
    ensures RowCounts(stage, side) == t.counts && t.count == Sum(RowCounts(stage, side))
  {
    hide Collections.Sum, Certified;
    var counts := RowCounts(stage, side);
    forall m ensures m in counts <==> m in t.counts {
      if m in t.counts {
        assert m in closing.Keys;
        CertifiedAreStaged(stage, side, past, from, until, closing, m);
        assert Place(side, m).mailbox == m;
      }
    }
  }

  /** The entries of these folders are as they were. */
  ghost predicate EntriesKept(s: Stage, t: Stage, side: Side, names: set<string>) {
    && s.durable == t.durable
    && forall m :: m in names ==>
         && (Place(side, m) in s.folders <==> Place(side, m) in t.folders)
         && (Place(side, m) in s.folders ==> s.folders[Place(side, m)] == t.folders[Place(side, m)])
  }

  lemma RetainKeepsTrust(s: Stage, side: Side, inventory: set<string>, w: World)
    requires StageTrusted(s, w)
    ensures var t := Retain(s, side, inventory);
      && StageTrusted(t, w) && StagedWithin(t, side, inventory) && OtherSideKept(s, t, side) && t.durable == s.durable
      && EntriesKept(s, t, side, inventory) && (StageTidy(s) ==> StageTidy(t))
  {
    SubStageTrusted(s, Retain(s, side, inventory), w);
    if StageTidy(s) {
      SubStageTidy(s, Retain(s, side, inventory));
    }
  }

  /** The inventory: every selectable folder that the mapping does not exclude. */
  method ListInventory(server: Server, classify: Classifier, side: Side, excluded: set<string>)
    returns (r: Answer<set<string>>, problem: AccountError)
    requires server.Valid()
    modifies server
    ensures server.Valid() && WorldEvolves(old(server.world), server.world)
    ensures r.Reply? ==> r.value == Listed(server.world, side) - excluded && r.value != {}
    ensures !problem.AccountLimit? && !problem.Incomplete? && (!r.Reply? ==> (r.Killed? <==> problem.AccountKilled?))
    ensures server.TimeMoves() && server.work == old(server.work).(refused := server.work.refused)
    ensures r.Reply? ==> server.work.refused == old(server.work.refused)
    ensures Calm(old(server.script), server.advertises) && !r.Reply? ==>
      problem == if Listed(server.world, side) == {} then NoSelectableFolders else EverythingExcluded
    ensures Calm(old(server.script), server.advertises) && Listed(server.world, side) - excluded != {} ==> r.Reply?
  {
    problem := AccountKilled;
    var reply := server.List(side);
    if !reply.Reply? {
      r := if reply.Killed? then Killed else Refused(reply.code);
      problem := if reply.Killed? then AccountKilled else Unusable(CommandFailed(reply.code));
      return;
    }
    var names := SelectableNames(reply.value.descriptors);
    if reply.value.mailboxCount == 0 || names == [] {
      return Refused(0), NoSelectableFolders;
    }
    assert names[0] in Elements(names);
    if reply.value.selectableCount != |names| {
      return Refused(0), UnreadableNames;
    }
    var inventory := Elements(names) - excluded;
    if inventory == {} {
      return Refused(0), EverythingExcluded;
    }
    r := Reply(inventory);
  }

  /** Some selectable folder is not excluded, and all of those can be scanned. */
  ghost predicate AmpleAccount(w: World, side: Side, excluded: set<string>, condstore: bool, room: int) {
    Listed(w, side) - excluded != {} && Ample(w, side, Listed(w, side) - excluded, condstore, room)
  }

  lemma NothingKeptYet(stage: Stage, side: Side)
    ensures OtherSideKept(stage, stage, side)
  {
  }

  /** An account scan that ended before its first folder. */
  lemma NothingScannedYet(
    stage: Stage, side: Side, past: seq<World>, now: nat, names: set<string>, error: AccountError)
    requires !error.Incomplete?
    ensures Surveyed(stage, side, past, now, now, names, map[], map[]) && Names(error, names, map[], map[])
  {
  }

  /** One session more, and nothing else; a good opening was refused nothing. */
  ghost predicate Opened(before: Work, after: Work, good: bool) {
    && after == before.(connects := before.connects + 1, session := after.session, refused := after.refused)
    && (good ==> after.refused == before.refused)
  }

  /** A new session and the inventory it lists; the reply says whether the session advertises CONDSTORE. */
  method OpenAccount(server: Server, classify: Classifier, side: Side, excluded: set<string>)
    returns (r: Answer<(set<string>, bool)>, problem: AccountError)
    requires server.Valid()
    modifies server
    ensures server.Valid() && WorldEvolves(old(server.world), server.world)
    ensures r.Reply? ==> r.value.0 == Listed(server.world, side) - excluded && r.value.0 != {}
    ensures !problem.AccountLimit? && !problem.Incomplete? && (!r.Reply? ==> (r.Killed? <==> problem.AccountKilled?))
    ensures server.TimeMoves() && Opened(old(server.work), server.work, r.Reply?)
    ensures r.Reply? ==> server.work.session == r.value.1
    ensures Calm(old(server.script), server.advertises) && Listed(server.world, side) - excluded != {} ==>
      r.Reply? && r.value.1 == server.advertises
  {
    hide ImapServer.ValidWorld, ImapServer.WorldEvolves, ImapServer.Calm, ImapServer.Listed;
    hide ImapServer.Lawful, ImapServer.Foretells;
    var session := server.Connect();
    if !session.Reply? {
      problem := if session.Killed? then AccountKilled else Unusable(CommandFailed(session.code));
      r := if session.Killed? then Killed else Refused(session.code);
      return;
    }
    var inventory;
    inventory, problem := ListInventory(server, classify, side, excluded);
    RunEvolves(server.chronicle, old(server.now), server.now);
    r := match inventory
      case Reply(names) => Reply((names, session.value))
      case Refused(code) => Refused(code)
      case Killed => Killed;
  }

  /** Open an account, and stage nothing but its inventory. */
  method BeginAccount(
    server: Server, sink: StageMessageSink, budget: MessageStateBudget, classify: Classifier, excluded: set<string>)
    returns (r: Answer<(set<string>, bool)>, problem: AccountError)
    requires Ready(server, sink, budget)
    modifies server, sink
    ensures Ready(server, sink, budget) && WorldEvolves(old(server.world), server.world)
    ensures OtherSideKept(old(sink.stage), sink.stage, sink.side) && sink.stage.durable == old(sink.stage.durable)
    ensures StageTidy(old(sink.stage)) ==> StageTidy(sink.stage)
    ensures r.Reply? ==> EntriesKept(old(sink.stage), sink.stage, sink.side, r.value.0)
    ensures old(sink.failures) < sink.failures ==> !r.Reply? && problem == Unusable(StageFailed)
    ensures r.Reply? ==>
      && r.value.0 == Listed(server.world, sink.side) - excluded
      && sink.tally == EMPTY_TALLY && StagedWithin(sink.stage, sink.side, r.value.0)
    ensures !problem.AccountLimit? && !problem.Incomplete? && (!r.Reply? ==> (r.Killed? <==> problem.AccountKilled?))
    ensures server.TimeMoves() && Opened(old(server.work), server.work, r.Reply?)
    ensures r.Reply? ==> server.work.session == r.value.1
    ensures Calm(old(server.script), server.advertises) && old(sink.faults) == [] ==>
      Listed(server.world, sink.side) - excluded != {} ==>
      r.Reply? && r.value.1 == server.advertises && sink.faults == []
  {
    hide ImapServer.ValidWorld, ImapServer.WorldEvolves, ImapServer.Calm, ImapServer.Listed, ImapServer.Lawful;
    hide ImapServer.Foretells, MessageStage.StageTrusted, MessageStage.Retain, MessageSink.TallyAgrees, OtherSideKept;
    hide StateBudget.MessageStateBudget.Valid, StagedWithin;
    NothingKeptYet(sink.stage, sink.side);
    r, problem := OpenAccount(server, classify, sink.side, excluded);
    StageTrustLasts(sink.stage, old(server.world), server.world);
    if r.Reply? {
      var retained := sink.RetainMailboxes(r.value.0);
      if retained.Done? {
        RetainKeepsTrust(old(sink.stage), sink.side, r.value.0, server.world);
      } else {
        r, problem := Refused(0), Unusable(StageFailed);
      }
    }
  }

  lemma OpeningIsFree(before: Work, begun: Work, after: Work)
    requires Opened(before, begun, true)
    ensures forall n :: Costs(begun, after, n) ==> Costs(before, after, n)
  {
  }

  lemma NothingSpent(work: Work)
    ensures Spent(work, work, 0, 0)
    ensures Bounded(Effort(0, 0, 0, 0)) && Accounts(Effort(0, 0, 0, 0), map[], map[])
  {
  }

  /** The effort is what the account scan really did: one session and at most three reconnects between
      two good folders, at most two scans of each visited folder and of one more for each reconnect. */
  ghost predicate Frugal(
    before: Work, after: Work, e: Effort, closing: map<string, nat>, failed: map<string, FetchError>)
  {
    && Bounded(e) && Accounts(e, closing, failed)
    && Spent(before, after, 1 + e.reconnects, e.scans)
    && after.connects - before.connects <= 1 + MostReconnects(|closing|)
    && |after.scans| - |before.scans| <= MostScans(|closing| + |failed|, MostReconnects(|closing|))
  }

  lemma EffortIsFrugal(
    e: Effort, before: Work, begun: Work, after: Work, good: bool, closing: map<string, nat>, failed: map<string, FetchError>)
    requires Bounded(e) && Accounts(e, closing, failed)
    requires Opened(before, begun, good) && Spent(begun, after, e.reconnects, e.scans)
    ensures Frugal(before, after, e, closing, failed)
  {
  }

  /**
   Scan a whole account.  It is all or nothing: a complete result names every selectable
   folder that is not excluded at the moment `listing` of the LIST, each certified at its own
   closing SELECT after it, with nothing staged beside them, and the account total is the number
   of rows staged.  However it ends, the effort is the real one and bounded, the failed folders
   are clean, and the error accounts for them.
   */
  method FetchAccount(
    server: Server, sink: StageMessageSink, budget: MessageStateBudget, classify: Classifier, excluded: set<string>)
    returns (r: AccountResult, effort: Effort,
             ghost listing: nat, ghost closing: map<string, nat>, ghost failed: map<string, FetchError>)
    requires Ready(server, sink, budget) && budget.Held(sink.side) == 0
    modifies server, sink, budget
    ensures Ready(server, sink, budget) && WorldEvolves(old(server.world), server.world)
    ensures budget.Held(sink.side) == 0 && budget.Leaked(sink.side) == old(budget.Leaked(sink.side))
    ensures OtherSideKept(old(sink.stage), sink.stage, sink.side)
    ensures Frugal(old(server.work), server.work, effort, closing, failed)
    ensures old(server.now) <= listing <= server.now
    ensures Surveyed(sink.stage, sink.side, server.chronicle, listing, server.now,
                     Listed(server.chronicle[listing], sink.side) - excluded, closing, failed)
    ensures r.Rejected? ==> !r.error.AccountLimit?
    ensures r.Rejected? ==> Names(r.error, Listed(server.chronicle[listing], sink.side) - excluded, closing, failed)
    ensures r.Complete? ==>
      && r.summary.mailboxes == closing.Keys == Listed(server.chronicle[listing], sink.side) - excluded
      && StagedWithin(sink.stage, sink.side, closing.Keys)
      && r.summary.totalExists == sink.tally.count == Sum(RowCounts(sink.stage, sink.side))
    ensures server.TimeMoves() && (StageTidy(old(sink.stage)) ==> StageTidy(sink.stage))
    ensures old(Unhindered(server, sink, budget)) ==>
      AmpleAccount(old(server.world), sink.side, excluded, server.advertises, FetchLimit(old(sink.stage).durable)) ==>
      && r.Complete? && Unhindered(server, sink, budget) && effort.reconnects == 0 && effort.scans == effort.successes
      && Current(sink.stage, sink.side, server.world, closing.Keys, server.advertises)
      && Costs(old(server.work), server.work,
               Sum(Rests(old(server.world), old(sink.stage), sink.side, closing.Keys, server.advertises)))
  {
    hide ImapServer.ValidWorld, ImapServer.WorldEvolves, OtherSideKept, Verified, MessageStage.StageTrusted;
    hide Collections.Sum;
    hide Ample, Current, ImapServer.Calm, ImapServer.Listed, MessageSink.FetchLimit, FailuresClean, Certified;
    hide ImapServer.Lawful, ImapServer.Foretells, Names, Bounded, Accounts, Surveyed, StagedWithin;
    hide StateBudget.MessageStateBudget.Valid, MessageSink.TallyAgrees, MessageStage.Retain, RowCounts;
    hide Frugal, ImapServer.Spent, StateBudget.MessageStateBudget.Held, StateBudget.MessageStateBudget.Leaked;
    hide StateBudget.MessageStateBudget.IsIdle, Rests, MessageStage.StageTidy, ImapServer.Costs, EntriesKept;
    effort, closing, failed := Effort(0, 0, 0, 0), map[], map[];
    var account, problem := BeginAccount(server, sink, budget, classify, excluded);
    listing := server.now;
    ghost var work := server.work;
    if !account.Reply? {
      NothingScannedYet(sink.stage, sink.side, server.chronicle, listing,
                        Listed(server.world, sink.side) - excluded, problem);
      NothingSpent(work);
      EffortIsFrugal(effort, old(server.work), work, work, account.Reply?, closing, failed);
      r := Rejected(problem);
      return;
    }
    var (inventory, advertised) := account.value;
    ghost var stage2 := sink.stage;
    RestsOfKept(old(server.world), old(sink.stage), stage2, sink.side, inventory, server.advertises);
    r, effort, closing, failed := ScanFolders(server, sink, budget, classify, inventory, advertised);
    EffortIsFrugal(effort, old(server.work), work, server.work, true, closing, failed);
    OpeningIsFree(old(server.work), work, server.work);
    RunEvolves(server.chronicle, old(server.now), server.now);
    OtherSideKeptTransitive(old(sink.stage), stage2, sink.stage, sink.side);
    if r.Complete? {
      SurveyCertifies(sink.stage, sink.side, server.chronicle, listing, server.now, inventory, closing, failed);
      CountsAreTheStage(sink.stage, sink.tally, sink.side, server.chronicle, listing, server.now, closing);
    }
  }
}
