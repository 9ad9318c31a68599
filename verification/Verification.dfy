/** Revalidation of scanned accounts, and what a whole verification run proves. */
module Verification {
  import opened AccountScan
  import opened Collections
  import opened ImapServer
  import opened MailboxScan
  import opened MessageSink
  import opened MessageStage
  import opened StateBudget
  import opened Text

  predicate SourceSnapshotMatches(expected: Snapshot, current: Snapshot) {
    && expected.uidvalidity == current.uidvalidity
    && expected.uidnext == current.uidnext
    && expected.exists_ == current.exists_
    && expected.highestModseq == current.highestModseq
  }

  /** The reply shows the expected snapshot, its mod-sequence included. */
  predicate SameSnapshot(reply: SelectReply, expected: Snapshot) {
    && reply.uidvalidity == Some(expected.uidvalidity) && reply.uidnext == Some(expected.uidnext)
    && reply.exists_ == expected.exists_
    && expected.highestModseq == if reply.modseq.Highest? then Some(reply.modseq.value) else None
  }

  /** Each folder showed its expected snapshot at some moment of this part of the run. */
  ghost predicate SeenBetween(
    past: seq<World>, from: nat, until: nat, side: Side, snapshots: map<string, Snapshot>, seen: map<string, nat>)
  {
    forall m :: m in seen ==>
      && m in snapshots && from <= seen[m] <= until < |past|
      && Matches(At(past[seen[m]], Place(side, m)), snapshots[m])
  }

  lemma SeenGrows(
    past: seq<World>, from: nat, until: nat, later: nat, side: Side,
    snapshots: map<string, Snapshot>, seen: map<string, nat>, m: string)
    requires SeenBetween(past, from, until, side, snapshots, seen) && from <= until <= later < |past|
    requires m in snapshots && Matches(At(past[later], Place(side, m)), snapshots[m])
    ensures SeenBetween(past, from, later, side, snapshots, seen[m := later])
  {
    hide MessageStage.Matches;
  }

  /** The folder still shows the snapshot, asked for in the same way. */
  ghost predicate Unchanged(f: Folder, mailbox: string, condstore: bool, expected: Snapshot) {
    && Usable(mailbox, f, condstore) && Matches(f, expected)
    && (expected.highestModseq.Some? <==> condstore && f.tracked)
  }

  /** EXAMINE one folder and compare it with its scanned snapshot. */
  method ExamineFolder(server: Server, place: Place, condstore: bool, expected: Snapshot)
    returns (ok: bool, ghost shown: Option<SelectReply>)
    requires server.Valid()
    modifies server
    ensures server.Valid() && WorldEvolves(old(server.world), server.world)
    ensures ok <==> shown.Some? && Identifies(shown.value, condstore) && SameSnapshot(shown.value, expected)
    ensures ok ==> Matches(At(server.world, place), expected) && !HasControl(place.mailbox)
    ensures server.TimeMoves()
    ensures Calm(old(server.script), server.advertises) ==>
      Unchanged(At(server.world, place), place.mailbox, condstore, expected) ==> ok
  {
    shown := None;
    var check := server.Check();
    if !check.Reply? || HasControl(place.mailbox) {
      return false, None;
    }
    ghost var world := server.world;
    var reply := server.Select(place, condstore);
    WorldEvolvesTransitive(old(server.world), world, server.world);
    if !reply.Reply? {
      return false, None;
    }
    shown := Some(reply.value);
    if reply.value.uidvalidity.None? || reply.value.uidnext.None? {
      return false, shown;
    }
    var modseq := reply.value.modseq;
    if condstore && (modseq.Missing? || modseq == Highest(0)) {
      return false, shown;
    }
    var current := Snapshot(
      reply.value.uidvalidity.value, reply.value.uidnext.value, reply.value.exists_,
      if modseq.Highest? then Some(modseq.value) else None);
    ok := SourceSnapshotMatches(expected, current);
  }

  ghost predicate AllUnchanged(w: World, side: Side, condstore: bool, snapshots: map<string, Snapshot>) {
    forall m :: m in snapshots ==> Unchanged(At(w, Place(side, m)), m, condstore, snapshots[m])
  }

  lemma NothingSeenYet(past: seq<World>, now: nat, side: Side, snapshots: map<string, Snapshot>)
    ensures SeenBetween(past, now, now, side, snapshots, map[])
  {
  }

  method ExamineFolders(
    server: Server, side: Side, condstore: bool, snapshots: map<string, Snapshot>)
    returns (ok: bool, ghost seen: map<string, nat>)
    requires server.Valid()
    modifies server
    ensures server.Valid() && WorldEvolves(old(server.world), server.world)
    ensures ok ==>
      && seen.Keys == snapshots.Keys
      && SeenBetween(server.chronicle, old(server.now), server.now, side, snapshots, seen)
    ensures server.TimeMoves()
    ensures Calm(old(server.script), server.advertises) ==>
      AllUnchanged(old(server.world), side, condstore, snapshots) ==> ok
  {
    hide ImapServer.ValidWorld, ImapServer.WorldEvolves, MessageStage.Matches, SeenBetween, ImapServer.Calm, Unchanged;
    hide ImapServer.Lawful, ImapServer.Foretells;
    ghost var past, begun := server.chronicle, server.now;
    NothingSeenYet(past, begun, side, snapshots);
    var left := snapshots.Keys;
    seen := map[];
    WorldEvolvesReflexive(server.world);
    while left != {}
      invariant server.Valid() && WorldEvolves(old(server.world), server.world)
      invariant left <= snapshots.Keys && seen.Keys == snapshots.Keys - left
      invariant SeenBetween(past, begun, server.now, side, snapshots, seen)
      invariant server.TimeMoves()
      decreases left
    {
      var mailbox :| mailbox in left;
      ghost var world, now := server.world, server.now;
      ghost var shown;
      ok, shown := ExamineFolder(server, Place(side, mailbox), condstore, snapshots[mailbox]);
      WorldEvolvesTransitive(old(server.world), world, server.world);
      if !ok {
        return;
      }
      SeenGrows(past, begun, now, server.now, side, snapshots, seen, mailbox);
      seen := seen[mailbox := server.now];
      left := left - {mailbox};
    }
    ok := true;
  }

  /**
   Re-list an account and re-examine all its folders.  `instant` is the moment of the LIST:
   the selectable folders were then exactly the expected ones, and each of them showed
   its scanned snapshot at some later moment.
   */
  method RevalidateAccount(
    server: Server, side: Side, expected: set<string>, excluded: set<string>, snapshots: map<string, Snapshot>)
    returns (ok: bool, ghost instant: nat, ghost seen: map<string, nat>)
    requires server.Valid()
    modifies server
    ensures server.Valid() && WorldEvolves(old(server.world), server.world)
    ensures ok ==>
      && old(server.now) <= instant <= server.now
      && Listed(server.chronicle[instant], side) - excluded == expected
      && seen.Keys == snapshots.Keys == expected
      && SeenBetween(server.chronicle, instant, server.now, side, snapshots, seen)
    ensures server.TimeMoves()
    ensures Calm(old(server.script), server.advertises) ==>
      snapshots.Keys == expected == Listed(old(server.world), side) - excluded ==>
      AllUnchanged(old(server.world), side, server.advertises, snapshots) ==> ok
  {
    hide ImapServer.ValidWorld, ImapServer.WorldEvolves, SeenBetween, ImapServer.Calm, ImapServer.Listed, AllUnchanged;
    hide ImapServer.Lawful, ImapServer.Foretells;
    instant, seen := server.now, map[];
    WorldEvolvesReflexive(server.world);
    if |snapshots| != |expected| || exists m :: m in expected && m !in snapshots {
      return false, instant, seen;
    }
    MapSize(snapshots);
    SubsetOfEqualSize(expected, snapshots.Keys);
    var session := server.Connect();
    if !session.Reply? {
      return false, instant, seen;
    }
    var reply := server.List(side);
    instant := server.now;
    RunEvolves(server.chronicle, old(server.now), instant);
    if !reply.Reply? || reply.value.selectableCount != |SelectableNames(reply.value.descriptors)| {
      return false, instant, seen;
    }
    if Elements(SelectableNames(reply.value.descriptors)) - excluded != expected {
      return false, instant, seen;
    }
    ok, seen := ExamineFolders(server, side, session.value, snapshots);
    RunEvolves(server.chronicle, old(server.now), server.now);
  }

  // ----- Double collect

  /** At this moment each folder held exactly the messages that are staged, as their rows report them. */
  ghost predicate HeldAt(stage: Stage, side: Side, names: set<string>, w: World) {
    forall m :: m in names ==>
      && Place(side, m) in stage.folders
      && Attests(Rows(stage, Place(side, m)), At(w, Place(side, m)),
                 stage.folders[Place(side, m)].cursor.snapshot.highestModseq.Some?)
  }

  /** Equal snapshots before and after pin the folder in between to its staged rows. */
  lemma FolderPinned(e: StagedFolder, before: Folder, between: Folder, after: Folder)
    requires ValidFolder(before) && ValidFolder(between) && ValidFolder(after)
    requires Evolves(before, between) && Evolves(between, after)
    requires Matches(before, e.cursor.snapshot) && Matches(after, e.cursor.snapshot)
    requires Attests(e.rows, before, e.cursor.snapshot.highestModseq.Some?)
    ensures Attests(e.rows, between, e.cursor.snapshot.highestModseq.Some?)
  {
    var tracked := e.cursor.snapshot.highestModseq.Some?;
    Sandwich(before, between, after);
    EvolvesTransitive(before, between, after);
    Sandwich(before, before, after);
    forall u ensures u in between.messages <==> u in before.messages {
      assert u in between.messages <==> u in between.uids;
      assert u in before.messages <==> u in before.uids;
    }
    forall u | u in e.rows
      ensures u in between.messages && IsEvidence(e.rows[u], between.messages[u], tracked, between.thorough)
    {
      assert Evidence(before.messages[u], tracked) == Evidence(between.messages[u], tracked);
    }
  }

  /**
   Double collect: if every folder was certified by `scanned` and showed the same snapshot
   again after `recheck`, then in every lawful world from `scanned` to `recheck` all the folders
   at once held exactly their staged rows.
   */
  lemma DoubleCollect(
    stage: Stage, side: Side, past: seq<World>, scanned: nat, recheck: nat, end: nat,
    closing: map<string, nat>, snapshots: map<string, Snapshot>, seen: map<string, nat>, u: World)
    requires Lawful(past) && scanned <= recheck < |past|
    requires Certified(stage, side, past, 0, scanned, closing)
    requires seen.Keys == closing.Keys && SeenBetween(past, recheck, end, side, snapshots, seen)
    requires forall m :: m in closing && m in snapshots && Place(side, m) in stage.folders ==>
      snapshots[m] == stage.folders[Place(side, m)].cursor.snapshot
    requires ValidWorld(u) && WorldEvolves(past[scanned], u) && WorldEvolves(u, past[recheck])
    ensures HeldAt(stage, side, closing.Keys, u)
  {
    hide ImapServer.ValidFolder, ImapServer.Evolves, MessageStage.Matches, MessageStage.Attests, ImapServer.Lawful;
    forall m | m in closing.Keys
      ensures Place(side, m) in stage.folders
      ensures Attests(Rows(stage, Place(side, m)), At(u, Place(side, m)),
                      stage.folders[Place(side, m)].cursor.snapshot.highestModseq.Some?)
    {
      assert m in closing.Keys && m in seen.Keys;
      PinnedBetween(stage, Place(side, m), past, closing[m], scanned, recheck, seen[m], u);
    }
  }

  /** The same for one folder. */
  lemma PinnedBetween(
    stage: Stage, p: Place, past: seq<World>, closing: nat, scanned: nat, recheck: nat, seen: nat, u: World)
    requires Lawful(past) && closing <= scanned <= recheck <= seen < |past|
    requires ValidWorld(u) && WorldEvolves(past[scanned], u) && WorldEvolves(u, past[recheck])
    requires Verified(stage, p, At(past[closing], p)) && Matches(At(past[seen], p), stage.folders[p].cursor.snapshot)
    ensures Attests(Rows(stage, p), At(u, p), stage.folders[p].cursor.snapshot.highestModseq.Some?)
  {
    hide ImapServer.ValidFolder, ImapServer.Evolves, MessageStage.Matches, MessageStage.Attests, ImapServer.Lawful;
    RunEvolves(past, closing, scanned);
    RunEvolves(past, recheck, seen);
    EvolvesTransitive(At(past[closing], p), At(past[scanned], p), At(u, p));
    EvolvesTransitive(At(u, p), At(past[recheck], p), At(past[seen], p));
    FolderPinned(stage.folders[p], At(past[closing], p), At(u, p), At(past[seen], p));
  }

  // ----- A verification run over both accounts

  function StagedNames(stage: Stage, side: Side): set<string> {
    set p | p in stage.folders && p.side == side :: p.mailbox
  }

  /** The scanned snapshots of one side, if every folder has complete staged evidence. */
  function SideSnapshots(stage: Stage, side: Side): Option<map<string, Snapshot>> {
    if exists m :: m in StagedNames(stage, side) && !HasEvidence(stage, Place(side, m)) then None
    else Some(map m | m in StagedNames(stage, side) :: CursorSnapshot(stage, Place(side, m)))
  }

  predicate HasEvidence(stage: Stage, p: Place) {
    p in stage.folders && stage.folders[p].cursor.completed &&
    |stage.folders[p].rows| == stage.folders[p].cursor.snapshot.exists_
  }

  function CursorSnapshot(stage: Stage, p: Place): Snapshot {
    if p in stage.folders then stage.folders[p].cursor.snapshot else Snapshot(0, 0, 0, None)
  }

  /** At every world of the run from `from` to `until` both accounts held exactly their staged rows. */
  ghost predicate PinnedThroughout(
    stage: Stage, source: set<string>, destination: set<string>, past: seq<World>, from: nat, until: nat)
  {
    && until < |past|
    && forall k :: from <= k <= until ==>
         HeldAt(stage, Source, source, past[k]) && HeldAt(stage, Destination, destination, past[k])
  }

  lemma CertifiedSince(
    stage: Stage, side: Side, past: seq<World>, earlier: nat, from: nat, until: nat, closing: map<string, nat>)
    requires earlier <= from && Certified(stage, side, past, from, until, closing)
    ensures Certified(stage, side, past, earlier, until, closing)
  {
    hide Verified;
  }

  lemma CertifiedSurvivesOtherSide(
    s: Stage, t: Stage, side: Side, other: Side, past: seq<World>, from: nat, until: nat, later: nat,
    closing: map<string, nat>)
    requires side != other && OtherSideKept(s, t, other)
    requires Certified(s, side, past, from, until, closing) && until <= later < |past|
    ensures Certified(t, side, past, from, later, closing)
  {
    hide Verified;
    forall m | m in closing ensures Verified(t, Place(side, m), At(past[closing[m]], Place(side, m))) {
      var p := Place(side, m);
      VerifiedIsStaged(s, p, At(past[closing[m]], p));
      VerifiedMoves(s, t, p, At(past[closing[m]], p));
    }
  }

  lemma NamesSurviveOtherSide(s: Stage, t: Stage, side: Side, other: Side)
    requires side != other && OtherSideKept(s, t, other)
    ensures StagedNames(s, side) == StagedNames(t, side)
  {
    assert forall p :: p in s.folders && p.side == side <==> p in t.folders && p.side == side;
  }

  lemma SnapshotNames(stage: Stage, side: Side)
    requires SideSnapshots(stage, side).Some?
    ensures SideSnapshots(stage, side).value.Keys == StagedNames(stage, side)
  {
  }

  /** Both double collects overlap: the source is pinned from its scan to its last recheck. */
  lemma OverlappingCollects(
    stage: Stage, past: seq<World>, scanned: nat, recheck: nat, rechecked: nat, again: nat, end: nat,
    sourceClosing: map<string, nat>, sourceSnapshots: map<string, Snapshot>, sourceSeen: map<string, nat>,
    destinationClosing: map<string, nat>, destinationSnapshots: map<string, Snapshot>, destinationSeen: map<string, nat>)
    requires Lawful(past) && scanned <= recheck <= again < |past|
    requires Certified(stage, Source, past, 0, scanned, sourceClosing)
    requires Certified(stage, Destination, past, 0, scanned, destinationClosing)
    requires sourceSeen.Keys == sourceClosing.Keys && destinationSeen.Keys == destinationClosing.Keys
    requires SeenBetween(past, again, end, Source, sourceSnapshots, sourceSeen)
    requires SeenBetween(past, recheck, rechecked, Destination, destinationSnapshots, destinationSeen)
    requires SideSnapshots(stage, Source) == Some(sourceSnapshots)
    requires SideSnapshots(stage, Destination) == Some(destinationSnapshots)
    ensures PinnedThroughout(stage, sourceClosing.Keys, destinationClosing.Keys, past, scanned, recheck)
  {
    hide ImapServer.ValidWorld, Certified, SeenBetween, HeldAt, ImapServer.WorldEvolves, ImapServer.Lawful;
    forall k | scanned <= k <= recheck
      ensures HeldAt(stage, Source, sourceClosing.Keys, past[k])
      ensures HeldAt(stage, Destination, destinationClosing.Keys, past[k])
    {
      RunEvolves(past, scanned, k);
      RunEvolves(past, k, recheck);
      RunEvolves(past, k, again);
      DoubleCollect(stage, Source, past, scanned, again, end, sourceClosing, sourceSnapshots, sourceSeen, past[k]);
      DoubleCollect(stage, Destination, past, scanned, recheck, rechecked,
                    destinationClosing, destinationSnapshots, destinationSeen, past[k]);
    }
  }

  lemma StagedNamesAreCertified(
    stage: Stage, side: Side, past: seq<World>, from: nat, until: nat, closing: map<string, nat>)
    requires Certified(stage, side, past, from, until, closing) && StagedWithin(stage, side, closing.Keys)
    ensures StagedNames(stage, side) == closing.Keys
  {
    hide Certified;
    forall m | m in closing.Keys ensures m in StagedNames(stage, side) {
      CertifiedAreStaged(stage, side, past, from, until, closing, m);
      assert Place(side, m).mailbox == m;
    }
  }

  /** Scan one account with a new sink; the stage is all that outlives a crash. */
  method ScanSide(
    server: Server, budget: MessageStateBudget, side: Side, staged: Stage, classify: Classifier,
    excluded: set<string>, faults: seq<bool>)
    returns (r: AccountResult, stage: Stage, ghost listing: nat, ghost closing: map<string, nat>)
    requires server.Valid() && StageTrusted(staged, server.world)
    requires budget.Valid() && budget.Held(side) == 0 && (budget.serial ==> budget.Held(Other(side)) == 0)
    modifies server, budget
    ensures server.Valid() && WorldEvolves(old(server.world), server.world) && StageTrusted(stage, server.world)
    ensures budget.Valid() && budget.Held(side) == 0 && (budget.serial ==> budget.Held(Other(side)) == 0)
    ensures budget.Leaked(side) == old(budget.Leaked(side))
    ensures OtherSideKept(staged, stage, side)
    ensures StageTidy(staged) ==> StageTidy(stage)
    ensures r.Complete? ==>
      && old(server.now) <= listing <= server.now
      && r.summary.mailboxes == closing.Keys == StagedNames(stage, side) == Listed(server.chronicle[listing], side) - excluded
      && r.summary.totalExists == Sum(RowCounts(stage, side))
      && Certified(stage, side, server.chronicle, listing, server.now, closing)
    ensures server.TimeMoves()
    ensures Calm(old(server.script), server.advertises) && faults == [] && old(budget.IsIdle()) ==>
      AmpleAccount(old(server.world), side, excluded, server.advertises, FetchLimit(staged.durable)) ==>
      r.Complete? && budget.IsIdle()
      && Current(stage, side, server.world, StagedNames(stage, side), server.advertises)
      && StagedNames(stage, side) == Listed(old(server.world), side) - excluded
  {
    hide ImapServer.ValidWorld, ImapServer.WorldEvolves, MessageStage.StageTrusted, Certified, OtherSideKept;
    hide Surveyed, Names;
    hide MessageStage.StageTidy, StagedNames, StagedWithin, RowCounts, Collections.Sum, ImapServer.Listed;
    hide ImapServer.Calm, Current, AmpleAccount;
    hide MessageSink.StageMessageSink.Valid, MessageSink.FetchLimit, Bounded, Accounts, Frugal;
    hide StateBudget.MessageStateBudget.Valid;
    hide ImapServer.Lawful, ImapServer.Foretells;
    var sink := new StageMessageSink(side, staged, faults);
    var effort;
    ghost var failed;
    r, effort, listing, closing, failed := FetchAccount(server, sink, budget, classify, excluded);
    stage := sink.stage;
    if r.Complete? {
      SurveyCertifies(stage, side, server.chronicle, listing, server.now,
                      Listed(server.chronicle[listing], side) - excluded, closing, failed);
      StagedNamesAreCertified(stage, side, server.chronicle, listing, server.now, closing);
    }
  }

  /** Every staged folder has its evidence, and the server still shows its snapshot. */
  ghost predicate Recheckable(stage: Stage, side: Side, w: World, condstore: bool) {
    forall m :: m in StagedNames(stage, side) ==>
      && HasEvidence(stage, Place(side, m))
      && Unchanged(At(w, Place(side, m)), m, condstore, CursorSnapshot(stage, Place(side, m)))
  }

  lemma RecheckableSnapshots(stage: Stage, side: Side, w: World, condstore: bool)
    requires Recheckable(stage, side, w, condstore)
    ensures SideSnapshots(stage, side).Some?
    ensures AllUnchanged(w, side, condstore, SideSnapshots(stage, side).value)
  {
    hide Unchanged;
  }

  /** What an undisturbed scan staged can be rechecked. */
  lemma CurrentIsRecheckable(stage: Stage, side: Side, w: World, excluded: set<string>, condstore: bool, room: int)
    requires Current(stage, side, w, StagedNames(stage, side), condstore)
    requires StagedNames(stage, side) == Listed(w, side) - excluded
    requires AmpleAccount(w, side, excluded, condstore, room)
    ensures Recheckable(stage, side, w, condstore)
  {
    hide MessageStage.Attests, LightFolder, Collections.Sum, StagedNames, Usable, MessageStage.Matches;
    hide ImapServer.Listed;
    forall m | m in StagedNames(stage, side)
      ensures HasEvidence(stage, Place(side, m))
      ensures Unchanged(At(w, Place(side, m)), m, condstore, CursorSnapshot(stage, Place(side, m)))
    {
      assert Verified(stage, Place(side, m), At(w, Place(side, m)));
    }
  }

  lemma SameDurability(s: Stage, t: Stage, side: Side)
    requires OtherSideKept(s, t, side)
    ensures s.durable == t.durable
  {
  }

  lemma CurrentSurvivesOtherSide(s: Stage, t: Stage, side: Side, other: Side, w: World, condstore: bool)
    requires side != other && OtherSideKept(s, t, other)
    requires Current(s, side, w, StagedNames(s, side), condstore)
    ensures Current(t, side, w, StagedNames(t, side), condstore)
  {
    hide MessageStage.Attests, MessageStage.Matches;
    NamesSurviveOtherSide(s, t, side, other);
    forall m | m in StagedNames(t, side)
      ensures Verified(t, Place(side, m), At(w, Place(side, m)))
      ensures FlagsFollow(t, Place(side, m), At(w, Place(side, m)), condstore)
    {
      assert t.folders[Place(side, m)] == s.folders[Place(side, m)];
      assert Verified(s, Place(side, m), At(w, Place(side, m))) && FlagsFollow(s, Place(side, m), At(w, Place(side, m)), condstore);
    }
  }

  /** What two undisturbed scans staged, one after the other, can be rechecked. */
  lemma ScannedIsRecheckable(s: Stage, t: Stage, w: World, excluded: set<string>, condstore: bool, room: int)
    requires OtherSideKept(s, t, Destination)
    requires Current(s, Source, w, StagedNames(s, Source), condstore)
    requires Current(t, Destination, w, StagedNames(t, Destination), condstore)
    requires StagedNames(s, Source) == Listed(w, Source) - excluded && AmpleAccount(w, Source, excluded, condstore, room)
    requires StagedNames(t, Destination) == Listed(w, Destination) - {}
    requires AmpleAccount(w, Destination, {}, condstore, room)
    ensures Recheckable(t, Source, w, condstore) && Recheckable(t, Destination, w, condstore)
  {
    hide OtherSideKept, Current, StagedNames, ImapServer.Listed, AmpleAccount, Recheckable;
    NamesSurviveOtherSide(s, t, Source, Destination);
    CurrentSurvivesOtherSide(s, t, Source, Destination, w, condstore);
    CurrentIsRecheckable(t, Source, w, excluded, condstore, room);
    CurrentIsRecheckable(t, Destination, w, {}, condstore, room);
  }

  /** Scan the source, then the destination, over one stage. */
  method ScanBoth(server: Server, staged: Stage, classify: Classifier, excluded: set<string>, faults: seq<bool>)
    returns (ok: bool, stage: Stage, ghost source: map<string, nat>, ghost destination: map<string, nat>)
    requires server.Valid() && StageTrusted(staged, server.world)
    modifies server
    ensures server.Valid() && WorldEvolves(old(server.world), server.world) && StageTrusted(stage, server.world)
    ensures StageTidy(staged) ==> StageTidy(stage)
    ensures ok ==>
      && source.Keys == StagedNames(stage, Source) && destination.Keys == StagedNames(stage, Destination)
      && Certified(stage, Source, server.chronicle, old(server.now), server.now, source)
      && Certified(stage, Destination, server.chronicle, old(server.now), server.now, destination)
    ensures server.TimeMoves()
    ensures Calm(old(server.script), server.advertises) && faults == [] ==>
      AmpleAccount(old(server.world), Source, excluded, server.advertises, FetchLimit(staged.durable)) ==>
      AmpleAccount(old(server.world), Destination, {}, server.advertises, FetchLimit(staged.durable)) ==>
      && ok
      && StagedNames(stage, Source) == Listed(old(server.world), Source) - excluded
      && StagedNames(stage, Destination) == Listed(old(server.world), Destination)
      && Recheckable(stage, Source, old(server.world), server.advertises)
      && Recheckable(stage, Destination, old(server.world), server.advertises)
  {
    hide ImapServer.ValidWorld, ImapServer.WorldEvolves, MessageStage.StageTrusted, Certified, OtherSideKept;
    hide MessageStage.StageTidy, StagedNames, RowCounts, Collections.Sum, ImapServer.Listed;
    hide StateBudget.MessageStateBudget.Valid;
    hide ImapServer.Calm, AmpleAccount, Ample, Current, Recheckable, MessageSink.FetchLimit;
    hide ImapServer.Lawful, ImapServer.Foretells;
    ghost var past, world := server.chronicle, server.world;
    ghost var calm := Calm(server.script, server.advertises) && faults == []
      && AmpleAccount(server.world, Source, excluded, server.advertises, FetchLimit(staged.durable))
      && AmpleAccount(server.world, Destination, {}, server.advertises, FetchLimit(staged.durable));
    // The two scans take turns, so no other reservation is alive during either.
    var budget := new MessageStateBudget([]);
    var first, second;
    ghost var sourceListing, destinationListing;
    source, destination := map[], map[];
    first, stage, sourceListing, source := ScanSide(server, budget, Source, staged, classify, excluded, faults);
    if first.Rejected? {
      return false, stage, source, destination;
    }
    ghost var between, stage1 := server.now, stage;
    SameDurability(staged, stage, Source);
    second, stage, destinationListing, destination := ScanSide(server, budget, Destination, stage, classify, {}, faults);
    RunEvolves(past, old(server.now), server.now);
    if second.Rejected? {
      return false, stage, source, destination;
    }
    CertifiedSince(stage1, Source, past, old(server.now), sourceListing, between, source);
    CertifiedSince(stage, Destination, past, old(server.now), destinationListing, server.now, destination);
    CertifiedSurvivesOtherSide(stage1, stage, Source, Destination, past, old(server.now), between, server.now, source);
    NamesSurviveOtherSide(stage1, stage, Source, Destination);
    if calm {
      ScannedIsRecheckable(stage1, stage, world, excluded, server.advertises, FetchLimit(staged.durable));
    }
    ok := true;
  }

  /** Recheck the source, then the destination, then the source once more. */
  method RecheckBoth(
    server: Server, stage: Stage, excluded: set<string>, ghost source: map<string, nat>, ghost destination: map<string, nat>)
    returns (ok: bool, ghost relisted: nat, ghost recheck: nat)
    requires server.Valid()
    requires source.Keys == StagedNames(stage, Source) && destination.Keys == StagedNames(stage, Destination)
    requires Certified(stage, Source, server.chronicle, 0, server.now, source)
    requires Certified(stage, Destination, server.chronicle, 0, server.now, destination)
    modifies server
    ensures server.Valid() && WorldEvolves(old(server.world), server.world)
    ensures ok ==>
      && old(server.now) <= relisted <= recheck <= server.now
      && Listed(server.chronicle[relisted], Source) - excluded == source.Keys
      && Listed(server.chronicle[recheck], Destination) == destination.Keys
      && PinnedThroughout(stage, source.Keys, destination.Keys, server.chronicle, old(server.now), recheck)
    ensures server.TimeMoves()
    ensures Calm(old(server.script), server.advertises) ==>
      source.Keys == Listed(old(server.world), Source) - excluded && destination.Keys == Listed(old(server.world), Destination) ==>
      Recheckable(stage, Source, old(server.world), server.advertises) ==>
      Recheckable(stage, Destination, old(server.world), server.advertises) ==> ok
  {
    hide ImapServer.ValidWorld, ImapServer.WorldEvolves, Certified, SeenBetween, PinnedThroughout, Recheckable;
    hide StagedNames, ImapServer.Listed, SideSnapshots, ImapServer.Calm, AllUnchanged, ImapServer.Lawful;
    hide ImapServer.Foretells;
    if Recheckable(stage, Source, server.world, server.advertises) {
      RecheckableSnapshots(stage, Source, server.world, server.advertises);
    }
    if Recheckable(stage, Destination, server.world, server.advertises) {
      RecheckableSnapshots(stage, Destination, server.world, server.advertises);
    }
    relisted, recheck := server.now, server.now;
    WorldEvolvesReflexive(server.world);
    var sourceSnapshots, destinationSnapshots := SideSnapshots(stage, Source), SideSnapshots(stage, Destination);
    if sourceSnapshots.None? || destinationSnapshots.None? {
      return false, relisted, recheck;
    }
    SnapshotNames(stage, Source);
    SnapshotNames(stage, Destination);
    ghost var seen1, seen2, seen3, again;
    ok, relisted, seen1 :=
      RevalidateAccount(server, Source, sourceSnapshots.value.Keys, excluded, sourceSnapshots.value);
    if !ok {
      return;
    }
    ok, recheck, seen2 :=
      RevalidateAccount(server, Destination, destinationSnapshots.value.Keys, {}, destinationSnapshots.value);
    ghost var rechecked := server.now;
    RunEvolves(server.chronicle, old(server.now), rechecked);
    if !ok {
      return;
    }
    ok, again, seen3 :=
      RevalidateAccount(server, Source, sourceSnapshots.value.Keys, excluded, sourceSnapshots.value);
    RunEvolves(server.chronicle, old(server.now), server.now);
    if !ok {
      return;
    }
    OverlappingCollects(stage, server.chronicle, old(server.now), recheck, rechecked, again, server.now,
                        source, sourceSnapshots.value, seen3, destination, destinationSnapshots.value, seen2);
  }

  /**
   A verification run: both scans, then the three rechecks of the run.  `scanned` is the moment at
   which both scans are done, `relisted` and `recheck` those of the first LIST of the source and
   of the LIST of the destination in the rechecks.
   */
  method VerifyPair(
    server: Server, staged: Stage, classify: Classifier, excluded: set<string>,
    faults: seq<bool>)
    returns (ok: bool, stage: Stage, ghost scanned: nat, ghost relisted: nat, ghost recheck: nat)
    requires server.Valid() && StageTrusted(staged, server.world)
    modifies server
    ensures server.Valid() && WorldEvolves(old(server.world), server.world) && StageTrusted(stage, server.world)
    ensures StageTidy(staged) ==> StageTidy(stage)
    ensures Calm(old(server.script), server.advertises) && faults == [] ==>
      AmpleAccount(old(server.world), Source, excluded, server.advertises, FetchLimit(staged.durable)) ==>
      AmpleAccount(old(server.world), Destination, {}, server.advertises, FetchLimit(staged.durable)) ==> ok
    ensures server.TimeMoves()
    ensures ok ==>
      var source, destination := StagedNames(stage, Source), StagedNames(stage, Destination);
      && old(server.now) <= scanned <= relisted <= recheck <= server.now
      && Listed(server.chronicle[relisted], Source) - excluded == source
      && Listed(server.chronicle[recheck], Destination) == destination
      && PinnedThroughout(stage, source, destination, server.chronicle, scanned, recheck)
  {
    hide ImapServer.ValidWorld, ImapServer.WorldEvolves, MessageStage.StageTrusted, Certified, StagedNames;
    hide MessageStage.StageTidy, ImapServer.Listed, PinnedThroughout, ImapServer.Calm, AmpleAccount, Recheckable;
    hide MessageSink.FetchLimit;
    hide ImapServer.Lawful, ImapServer.Foretells;
    scanned, relisted, recheck := server.now, server.now, server.now;
    ghost var past, source, destination := server.chronicle, map[], map[];
    ok, stage, source, destination := ScanBoth(server, staged, classify, excluded, faults);
    if !ok {
      return;
    }
    scanned := server.now;
    ghost var world := server.world;
    CertifiedSince(stage, Source, past, 0, old(server.now), scanned, source);
    CertifiedSince(stage, Destination, past, 0, old(server.now), scanned, destination);
    ok, relisted, recheck := RecheckBoth(server, stage, excluded, source, destination);
    RunEvolves(past, old(server.now), server.now);
    StageTrustLasts(stage, world, server.world);
  }

  /** What a restarted controller brings along: its own faults and its exclusions. */
  datatype Attempt = Attempt(excluded: set<string>, faults: seq<bool>)

  /**
   Crash and resume: any number of runs, each of which may fail or be killed at any
   command, over one durable stage and a server that keeps changing.  The first run that
   ends well proves as much as a run that started from an empty stage would.
   */
  method VerifyWithRestarts(server: Server, staged: Stage, classify: Classifier, attempts: seq<Attempt>)
    returns (success: Option<nat>, stage: Stage, ghost scanned: nat, ghost relisted: nat, ghost recheck: nat)
    requires server.Valid() && StageTrusted(staged, server.world)
    modifies server
    ensures server.Valid() && WorldEvolves(old(server.world), server.world) && StageTrusted(stage, server.world)
    ensures StageTidy(staged) ==> StageTidy(stage)
    ensures old(server.now) <= server.now
    ensures Calm(old(server.script), server.advertises) && attempts != [] && attempts[0].faults == [] ==>
      AmpleAccount(old(server.world), Source, attempts[0].excluded, server.advertises, FetchLimit(staged.durable)) ==>
      AmpleAccount(old(server.world), Destination, {}, server.advertises, FetchLimit(staged.durable)) ==>
      success == Some(0)
    ensures success.Some? ==>
      var source, destination := StagedNames(stage, Source), StagedNames(stage, Destination);
      && success.value < |attempts|
      && old(server.now) <= scanned <= relisted <= recheck <= server.now
      && Listed(server.chronicle[relisted], Source) - attempts[success.value].excluded == source
      && Listed(server.chronicle[recheck], Destination) == destination
      && PinnedThroughout(stage, source, destination, server.chronicle, scanned, recheck)
  {
    hide ImapServer.ValidWorld, ImapServer.WorldEvolves, MessageStage.StageTrusted, PinnedThroughout, StagedNames;
    hide ImapServer.Listed;
    hide ImapServer.Lawful, ImapServer.Foretells;
    hide ImapServer.Calm, AmpleAccount, MessageSink.FetchLimit, MessageStage.StageTidy;
    stage, scanned, relisted, recheck := staged, server.now, server.now, server.now;
    ghost var calm := Calm(server.script, server.advertises) && attempts != [] && attempts[0].faults == []
      && AmpleAccount(server.world, Source, attempts[0].excluded, server.advertises, FetchLimit(staged.durable))
      && AmpleAccount(server.world, Destination, {}, server.advertises, FetchLimit(staged.durable));
    RunEvolves(server.chronicle, server.now, server.now);
    for i := 0 to |attempts|
      invariant server.Valid() && WorldEvolves(old(server.world), server.world) && StageTrusted(stage, server.world)
      invariant old(server.now) <= server.now && (StageTidy(staged) ==> StageTidy(stage))
      invariant if i == 0 then unchanged(server) && stage == staged else !calm
    {
      var ok;
      ok, stage, scanned, relisted, recheck := VerifyPair(
        server, stage, classify, attempts[i].excluded, attempts[i].faults);
      RunEvolves(server.chronicle, old(server.now), server.now);
      if ok {
        return Some(i), stage, scanned, relisted, recheck;
      }
    }
    success := None;
  }

  /** Every stage starts out trusted. */
  lemma EmptyStageIsTrusted(durable: bool, w: World)
    ensures StageTrusted(Stage(durable, map[]), w) && StageTidy(Stage(durable, map[]))
  {
  }
}
