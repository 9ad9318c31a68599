/** The counters of one side's scan, kept in step with the rows of the durable stage. */
module MessageSink {
  import opened Collections
  import opened Decimal
  import opened ImapServer
  import opened MessageStage

  const MAX_MESSAGE_FETCH_RECORDS := 1_000_000
  const MAX_DURABLE_MESSAGE_FETCH_RECORDS := 3_000_000

  function FetchLimit(durable: bool): nat {
    if durable then MAX_DURABLE_MESSAGE_FETCH_RECORDS else MAX_MESSAGE_FETCH_RECORDS
  }

  /** True when the sum overflows the machine word or passes the limit. */
  predicate LimitExceeded(existing: nat, incoming: nat, limit: nat): (exceeded: bool)
    ensures limit <= U64_MAX ==> (exceeded <==> limit < existing + incoming)
  {
    existing + incoming > U64_MAX || existing + incoming > limit
  }

  /** The account total, the count of each folder scanned so far, and the folder whose
      pages are arriving. */
  datatype Tally = Tally(count: nat, counts: map<string, nat>, active: Option<string>)

  const EMPTY_TALLY := Tally(0, map[], None)

  function ResetMailbox(t: Tally, mailbox: string): Tally {
    var count := if mailbox in t.counts then SaturatingSub(t.count, t.counts[mailbox]) else t.count;
    t.(count := count, counts := t.counts[mailbox := 0])
  }

  /** Fails before a folder scan began and on overflow of the machine word. */
  function AddMessages(t: Tally, added: nat): Option<Tally> {
    if t.active.None? then None
    else
      var mailbox := t.active.value;
      var share := (if mailbox in t.counts then t.counts[mailbox] else 0) + added;
      if t.count + added > U64_MAX || share > U64_MAX then None
      else Some(t.(count := t.count + added, counts := t.counts[mailbox := share]))
  }

  ghost predicate RowsCounted(stage: Stage, side: Side, counts: map<string, nat>) {
    forall m :: m in counts ==> counts[m] == |Rows(stage, Place(side, m))|
  }

  /** The total is the sum of the folder counts, each of which is the number of rows
      staged for that folder, and it never passes the limit of the stage. */
  ghost predicate TallyAgrees(stage: Stage, side: Side, t: Tally) {
    && t.count == Sum(t.counts)
    && t.count <= FetchLimit(stage.durable)
    && RowsCounted(stage, side, t.counts)
    && (t.active.Some? ==> t.active.value in t.counts)
  }

  /** Only one folder's count may differ. */
  ghost predicate OthersCounted(t: Tally, u: Tally, mailbox: string) {
    forall m :: m != mailbox ==>
      (m in t.counts <==> m in u.counts) && (m in t.counts ==> t.counts[m] == u.counts[m])
  }

  /** Nothing staged or counted outside one folder differs. */
  ghost predicate OnlyFolder(s: Stage, t: Tally, s': Stage, t': Tally, p: Place) {
    OthersKept(s, s', p) && OthersCounted(t, t', p.mailbox)
  }

  lemma OnlyFolderReflexive(s: Stage, t: Tally, p: Place)
    ensures OnlyFolder(s, t, s, t, p)
  {
  }

  lemma OnlyFolderTransitive(s: Stage, t: Tally, s': Stage, t': Tally, s'': Stage, t'': Tally, p: Place)
    requires OnlyFolder(s, t, s', t', p) && OnlyFolder(s', t', s'', t'', p)
    ensures OnlyFolder(s, t, s'', t'', p)
  {
  }

  lemma CountFollowsRows(s: Stage, s': Stage, side: Side, counts: map<string, nat>, mailbox: string, n: nat)
    requires forall m :: m in counts && m != mailbox ==> counts[m] == |Rows(s, Place(side, m))|
    requires OthersKept(s, s', Place(side, mailbox)) && n == |Rows(s', Place(side, mailbox))|
    ensures RowsCounted(s', side, counts[mailbox := n])
  {
    forall m | m in counts && m != mailbox ensures Rows(s', Place(side, m)) == Rows(s, Place(side, m)) {}
  }

  lemma ResetAgrees(s: Stage, s': Stage, side: Side, t: Tally, mailbox: string)
    requires TallyAgrees(s, side, t)
    requires OthersKept(s, s', Place(side, mailbox)) && Rows(s', Place(side, mailbox)) == map[]
    ensures TallyAgrees(s', side, ResetMailbox(t, mailbox))
    ensures OthersCounted(t, ResetMailbox(t, mailbox), mailbox)
  {
    hide Collections.Sum;
    CountFollowsRows(s, s', side, t.counts, mailbox, 0);
    SumUpdate(t.counts, mailbox, 0);
  }

  lemma AddAgrees(s: Stage, s': Stage, side: Side, t: Tally, added: nat)
    requires t.active.Some? && t.active.value in t.counts
    requires t.count == Sum(t.counts) && t.count + added <= FetchLimit(s'.durable)
    requires forall m :: m in t.counts && m != t.active.value ==> t.counts[m] == |Rows(s, Place(side, m))|
    requires t.counts[t.active.value] + added == |Rows(s', Place(side, t.active.value))|
    requires OthersKept(s, s', Place(side, t.active.value))
    ensures AddMessages(t, added).Some? && TallyAgrees(s', side, AddMessages(t, added).value)
    ensures OthersCounted(t, AddMessages(t, added).value, t.active.value)
    ensures AddMessages(t, added).value.active == t.active
  {
    hide Collections.Sum;
    var mailbox := t.active.value;
    CountFollowsRows(s, s', side, t.counts, mailbox, t.counts[mailbox] + added);
    SumUpdate(t.counts, mailbox, t.counts[mailbox] + added);
    SumBoundsParts(t.counts, mailbox);
  }

  /** A folder's staged rows become the count of this attempt, whatever it was before. */
  lemma AdoptAgrees(s: Stage, side: Side, t: Tally, mailbox: string)
    requires TallyAgrees(s, side, t)
    requires t.count + |Rows(s, Place(side, mailbox))| <= FetchLimit(s.durable)
    ensures var u := AddMessages(ResetMailbox(t, mailbox).(active := Some(mailbox)), |Rows(s, Place(side, mailbox))|);
      u.Some? && TallyAgrees(s, side, u.value) && OthersCounted(t, u.value, mailbox) && u.value.active == Some(mailbox)
  {
    hide Collections.Sum;
    var reset := ResetMailbox(t, mailbox);
    SumUpdate(t.counts, mailbox, 0);
    AddAgrees(s, s, side, reset.(active := Some(mailbox)), |Rows(s, Place(side, mailbox))|);
  }

  datatype SinkResult<+T> = Done(value: T) | StageFault | OverLimit

  /** Nothing is counted for the folder, and no page may arrive for it before a new scan begins. */
  predicate Forgets(before: Tally, after: Tally, mailbox: string) {
    && mailbox in after.counts && after.counts[mailbox] == 0 && after.count <= before.count
    && (forall m :: m in before.counts && m != mailbox ==> m in after.counts && after.counts[m] == before.counts[m])
    && (forall m :: m in after.counts && m != mailbox ==> m in before.counts)
    && after.active == if before.active == Some(mailbox) then None else before.active
  }

  function Forget(t: Tally, mailbox: string): Tally {
    ResetMailbox(t, mailbox).(active := if t.active == Some(mailbox) then None else t.active)
  }

  lemma ForgettingAgrees(s: Stage, side: Side, t: Tally, mailbox: string)
    requires TallyAgrees(s, side, t)
    ensures var next, forgotten := DeleteMailbox(s, Place(side, mailbox)), Forget(t, mailbox);
      && TallyAgrees(next, side, forgotten) && Forgets(t, forgotten, mailbox)
      && OnlyFolder(s, t, next, forgotten, Place(side, mailbox))
  {
    hide Collections.Sum;
    RemovingKeepsOthers(s, Place(side, mailbox));
    ResetAgrees(s, DeleteMailbox(s, Place(side, mailbox)), side, t, mailbox);
  }

  class StageMessageSink {
    const side: Side
    var stage: Stage
    var tally: Tally
    /** Which of the coming stage transactions fail. */
    var faults: seq<bool>
    /** How many have failed so far. */
    ghost var failures: nat

    /** The next transaction will fail. */
    function Fails(): bool reads `faults { faults != [] && faults[0] }

    ghost predicate Valid() reads `stage, `tally {
      TallyAgrees(stage, side, tally)
    }

    /** Everything staged and counted outside one folder is as it was. */
    twostate predicate OnlyFolderChanged(mailbox: string) reads this {
      OnlyFolder(old(stage), old(tally), stage, tally, Place(side, mailbox))
    }

    constructor (side: Side, stage: Stage, faults: seq<bool>)
      ensures Valid() && this.side == side && this.stage == stage && tally == EMPTY_TALLY && this.faults == faults
      ensures failures == 0
    {
      this.side, this.stage, this.tally, this.faults := side, stage, EMPTY_TALLY, faults;
      failures := 0;
    }

    method Transact() returns (ok: bool)
      modifies this`faults, this`failures
      ensures ok <==> !old(Fails())
      ensures faults == if old(faults) == [] then [] else old(faults)[1..]
      ensures failures == old(failures) + if ok then 0 else 1
    {
      ok := true;
      if faults != [] {
        ok, faults := !faults[0], faults[1..];
      }
      failures := failures + if ok then 0 else 1;
    }

    method Begin(mailbox: string, snapshot: Snapshot) returns (r: SinkResult<()>)
      requires Valid()
      modifies this
      ensures (r.Done? <==> !old(Fails())) && failures == old(failures) + if old(Fails()) then 1 else 0
      ensures Valid() && OnlyFolderChanged(mailbox)
      ensures r.Done? ==>
        && stage == BeginScan(old(stage), Place(side, mailbox), snapshot)
        && tally.active == Some(mailbox) && tally.count <= old(tally).count
      ensures !r.Done? ==> stage == old(stage) && tally == old(tally)
      ensures old(faults) == [] ==> r.Done? && faults == []
    {
      var ok := Transact();
      if !ok {
        return StageFault;
      }
      var next := BeginScan(stage, Place(side, mailbox), snapshot);
      OneEntryChanges(stage, Place(side, mailbox), next.folders[Place(side, mailbox)]);
      ResetAgrees(stage, next, side, tally, mailbox);
      stage, tally := next, ResetMailbox(tally, mailbox).(active := Some(mailbox));
      r := Done(());
    }

    /** Adopt the rows already staged for the folder as this attempt's own. */
    method Adopt(mailbox: string, rows: nat) returns (ok: bool)
      requires Valid()
      requires rows == |Rows(stage, Place(side, mailbox))|
      modifies this`tally
      ensures Valid() && OnlyFolderChanged(mailbox)
      ensures ok <==> !LimitExceeded(old(tally).count, rows, FetchLimit(stage.durable))
      ensures ok ==> tally.active == Some(mailbox) && tally.count <= old(tally).count + rows
      ensures !ok ==> tally == old(tally)
    {
      if LimitExceeded(tally.count, rows, FetchLimit(stage.durable)) {
        return false;
      }
      AdoptAgrees(stage, side, tally, mailbox);
      tally := AddMessages(ResetMailbox(tally, mailbox).(active := Some(mailbox)), rows).value;
      ok := true;
    }

    /** A completed folder is reused only under its own tracked snapshot. */
    method ReuseCompleted(mailbox: string, snapshot: Snapshot) returns (r: SinkResult<bool>)
      requires Valid()
      modifies this
      ensures (r.StageFault? <==> old(Fails())) && failures == old(failures) + if old(Fails()) then 1 else 0
      ensures Valid() && OnlyFolderChanged(mailbox) && stage == old(stage)
      ensures r == Done(true) ==>
        && tally.active == Some(mailbox)
        && ReusableCompleted(stage, Place(side, mailbox), snapshot).Some?
        && tally.count <= old(tally).count + snapshot.exists_
      ensures r == Done(false) ==> ReusableCompleted(stage, Place(side, mailbox), snapshot).None?
      ensures r != Done(true) ==> tally == old(tally)
      ensures old(faults) == [] ==> !r.StageFault? && faults == []
      ensures r.OverLimit? ==> LimitExceeded(tally.count, snapshot.exists_, FetchLimit(stage.durable))
    {
      var ok := Transact();
      if !ok {
        return StageFault;
      }
      var found := ReusableCompleted(stage, Place(side, mailbox), snapshot);
      if found.None? {
        return Done(false);
      }
      var adopted := Adopt(mailbox, found.value);
      r := if adopted then Done(true) else OverLimit;
    }

    /** A committed prefix is resumed only under its own tracked snapshot. */
    method ResumePrefix(mailbox: string, snapshot: Snapshot) returns (r: SinkResult<Option<(nat, nat)>>)
      requires Valid()
      modifies this
      ensures (r.StageFault? <==> old(Fails())) && failures == old(failures) + if old(Fails()) then 1 else 0
      ensures Valid() && OnlyFolderChanged(mailbox) && stage == old(stage)
      ensures r.Done? && r.value.Some? ==>
        && tally.active == Some(mailbox)
        && ResumablePrefix(stage, Place(side, mailbox), snapshot) == r.value
        && tally.count <= old(tally).count + r.value.value.0
      ensures r == Done(None) ==> ResumablePrefix(stage, Place(side, mailbox), snapshot).None?
      ensures !(r.Done? && r.value.Some?) ==> tally == old(tally)
      ensures old(faults) == [] ==> !r.StageFault? && faults == []
      ensures r.OverLimit? ==> LimitExceeded(tally.count, snapshot.exists_, FetchLimit(stage.durable))
    {
      var ok := Transact();
      if !ok {
        return StageFault;
      }
      var found := ResumablePrefix(stage, Place(side, mailbox), snapshot);
      if found.None? {
        return Done(None);
      }
      var adopted := Adopt(mailbox, found.value.0);
      r := if adopted then Done(found) else OverLimit;
    }

    /** One transaction for the page and its cursor; new UIDs only, so rows and counts agree. */
    method InsertPageAndCheckpoint(mailbox: string, snapshot: Snapshot, lastUid: nat, page: map<nat, Row>)
      returns (r: SinkResult<()>)
      requires Valid()
      requires tally.active == Some(mailbox)
      requires !LimitExceeded(tally.count, |page|, FetchLimit(stage.durable))
      requires page.Keys !! Rows(stage, Place(side, mailbox)).Keys
      modifies this
      ensures (old(Fails()) ==> r.StageFault?) && failures == old(failures) + if old(Fails()) then 1 else 0
      ensures Valid() && OnlyFolderChanged(mailbox) && tally.active == old(tally).active
      ensures r.Done? ==>
        && InsertPage(old(stage), Place(side, mailbox), snapshot, lastUid, page) == Some(stage)
        && tally.count == old(tally).count + |page|
      ensures !r.Done? ==> stage == old(stage) && tally == old(tally)
      ensures old(faults) == [] ==> faults == []
      ensures old(faults) == [] && InsertPage(old(stage), Place(side, mailbox), snapshot, lastUid, page).Some? ==>
        r.Done?
    {
      var ok := Transact();
      var place := Place(side, mailbox);
      var inserted := InsertPage(stage, place, snapshot, lastUid, page);
      if !ok || inserted.None? {
        return StageFault;
      }
      DisjointUnionSize(Rows(stage, place), page);
      OneEntryChanges(stage, place, inserted.value.folders[place]);
      AddAgrees(stage, inserted.value, side, tally, |page|);
      stage, tally := inserted.value, AddMessages(tally, |page|).value;
      r := Done(());
    }

    method CompleteMailbox(mailbox: string, snapshot: Snapshot, lastUid: nat) returns (r: SinkResult<()>)
      requires Valid()
      requires tally.active == Some(mailbox)
      modifies this
      ensures (old(Fails()) ==> r.StageFault?) && failures == old(failures) + if old(Fails()) then 1 else 0
      ensures Valid() && OnlyFolderChanged(mailbox) && tally == old(tally)
      ensures r.Done? ==> Complete(old(stage), Place(side, mailbox), snapshot, lastUid) == Some(stage)
      ensures !r.Done? ==> stage == old(stage)
      ensures old(faults) == [] && Complete(old(stage), Place(side, mailbox), snapshot, lastUid).Some? ==>
        r.Done? && faults == []
    {
      var ok := Transact();
      var place := Place(side, mailbox);
      var completed := Complete(stage, place, snapshot, lastUid);
      if !ok || completed.None? {
        return StageFault;
      }
      OneEntryChanges(stage, place, completed.value.folders[place]);
      stage := completed.value;
      r := Done(());
    }

    /** The rows of a folder and its share of the total leave together. */
    method Rollback(mailbox: string) returns (r: SinkResult<()>)
      requires Valid()
      modifies this
      ensures (r.Done? <==> !old(Fails())) && failures == old(failures) + if old(Fails()) then 1 else 0
      ensures Valid() && OnlyFolderChanged(mailbox)
      ensures r.Done? ==> stage == DeleteMailbox(old(stage), Place(side, mailbox)) && Forgets(old(tally), tally, mailbox)
      ensures !r.Done? ==> stage == old(stage) && tally == old(tally)
      ensures old(faults) == [] ==> r.Done? && faults == []
    {
      hide Forgets, Forget, TallyAgrees, OnlyFolder, MessageStage.DeleteMailbox;
      OnlyFolderReflexive(stage, tally, Place(side, mailbox));
      var ok := Transact();
      if !ok {
        return StageFault;
      }
      ForgettingAgrees(stage, side, tally, mailbox);
      stage, tally := DeleteMailbox(stage, Place(side, mailbox)), Forget(tally, mailbox);
      r := Done(());
    }

    /** Keep only the folders of the current inventory and count afresh. */
    method RetainMailboxes(inventory: set<string>) returns (r: SinkResult<()>)
      requires Valid()
      modifies this
      ensures (r.Done? <==> !old(Fails())) && failures == old(failures) + if old(Fails()) then 1 else 0
      ensures Valid()
      ensures r.Done? ==> stage == Retain(old(stage), side, inventory) && tally == EMPTY_TALLY
      ensures !r.Done? ==> stage == old(stage) && tally == old(tally)
      ensures old(faults) == [] ==> r.Done? && faults == []
    {
      var ok := Transact();
      if !ok {
        return StageFault;
      }
      stage, tally := Retain(stage, side, inventory), EMPTY_TALLY;
      r := Done(());
    }
  }
}
