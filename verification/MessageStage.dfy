/**
 The durable verification stage, one entry per folder and side: the staged rows and
 the cursor that names the SELECT snapshot they belong to.  Each operation here is
 one committed transaction, so a crash falls between two of them.
 */
module MessageStage {
  import opened Collections
  import opened ImapServer

  datatype Snapshot = Snapshot(uidvalidity: nat, uidnext: nat, exists_: nat, highestModseq: Option<nat>)

  /** A row holds what its FETCH record reported. */
  type Row = Items

  /** `finished` is the completion time stamp; a later page leaves it in place. */
  datatype Cursor = Cursor(snapshot: Snapshot, lastUid: nat, completed: bool, finished: bool)

  datatype StagedFolder = StagedFolder(cursor: Cursor, rows: map<nat, Row>)

  datatype Stage = Stage(durable: bool, folders: map<Place, StagedFolder>)

  function Rows(s: Stage, p: Place): map<nat, Row> {
    if p in s.folders then s.folders[p].rows else map[]
  }

  function BeginScan(s: Stage, p: Place, snapshot: Snapshot): Stage {
    s.(folders := s.folders[p := StagedFolder(Cursor(snapshot, 0, false, false), map[])])
  }

  /** A page and its cursor move together, and only under the snapshot of the scan. */
  function InsertPage(s: Stage, p: Place, snapshot: Snapshot, lastUid: nat, page: map<nat, Row>): Option<Stage> {
    if p !in s.folders || s.folders[p].cursor.snapshot != snapshot then None
    else
      var e := s.folders[p];
      var cursor := e.cursor.(lastUid := lastUid, completed := false);
      Some(s.(folders := s.folders[p := StagedFolder(cursor, e.rows + page)]))
  }

  function Complete(s: Stage, p: Place, snapshot: Snapshot, lastUid: nat): Option<Stage> {
    if p !in s.folders || s.folders[p].cursor.snapshot != snapshot || |s.folders[p].rows| != snapshot.exists_
    then None
    else
      var e := s.folders[p];
      Some(s.(folders := s.folders[p := e.(cursor := Cursor(snapshot, lastUid, true, true))]))
  }

  function DeleteMailbox(s: Stage, p: Place): Stage {
    s.(folders := s.folders - {p})
  }

  /** Drop every folder of one side that the inventory does not name. */
  function Retain(s: Stage, side: Side, inventory: set<string>): Stage {
    s.(folders := map p | p in s.folders && (p.side != side || p.mailbox in inventory) :: s.folders[p])
  }

  function ReusableCompleted(s: Stage, p: Place, snapshot: Snapshot): Option<nat> {
    if !s.durable || snapshot.highestModseq.None? || p !in s.folders then None
    else
      var e := s.folders[p];
      if && e.cursor.snapshot == snapshot && e.cursor.completed && e.cursor.finished
         && |e.rows| == snapshot.exists_
      then Some(snapshot.exists_)
      else None
  }

  predicate IsGreatestUid(rows: map<nat, Row>, uid: nat) {
    uid in rows && forall u :: u in rows ==> u <= uid
  }

  function ResumablePrefix(s: Stage, p: Place, snapshot: Snapshot): Option<(nat, nat)> {
    if !s.durable || snapshot.highestModseq.None? || p !in s.folders then None
    else
      var e := s.folders[p];
      if && e.cursor.snapshot == snapshot && !e.cursor.completed && !e.cursor.finished
         && 0 < |e.rows| <= snapshot.exists_
         && 0 < e.cursor.lastUid <= MAX_UID && e.cursor.lastUid < snapshot.uidnext
         && IsGreatestUid(e.rows, e.cursor.lastUid)
      then Some((|e.rows|, e.cursor.lastUid))
      else None
  }

  /**
   Rows of a durable stage are used again only under their own tracked snapshot: all of them if the scan
   of it was completed and finished, and otherwise those up to their greatest UID, if there are any.
   */
  lemma ReuseExactly(s: Stage, p: Place, snapshot: Snapshot)
    ensures
      var usable := s.durable && snapshot.highestModseq.Some? && p in s.folders && s.folders[p].cursor.snapshot == snapshot;
      var reusable, resumable := ReusableCompleted(s, p, snapshot), ResumablePrefix(s, p, snapshot);
      && (reusable.Some? ==> usable && reusable.value == |s.folders[p].rows|)
      && (usable && s.folders[p].cursor.completed && s.folders[p].cursor.finished ==>
            (reusable.Some? <==> |s.folders[p].rows| == snapshot.exists_))
      && (resumable.Some? ==> usable && resumable.value.0 == |s.folders[p].rows|)
      && (usable && !s.folders[p].cursor.completed && !s.folders[p].cursor.finished ==>
            (resumable.Some? <==>
               && 1 <= |s.folders[p].rows| <= snapshot.exists_
               && s.folders[p].cursor.lastUid in s.folders[p].rows
               && (forall u :: u in s.folders[p].rows ==> u <= s.folders[p].cursor.lastUid)
               && 1 <= s.folders[p].cursor.lastUid <= snapshot.uidnext - 1 && s.folders[p].cursor.lastUid <= MAX_UID))
      && (reusable.None? || resumable.None?)
  {
  }

  /** How many rows of the snapshot an earlier scan has saved for this one. */
  function Saved(s: Stage, p: Place, snapshot: Snapshot): nat {
    if ReusableCompleted(s, p, snapshot).Some? then snapshot.exists_
    else match ResumablePrefix(s, p, snapshot)
      case Some((count, _)) => count
      case None => 0
  }

  /** Only one entry may differ. */
  ghost predicate OthersKept(s: Stage, t: Stage, p: Place) {
    && s.durable == t.durable
    && forall q :: q != p ==>
         (q in s.folders <==> q in t.folders) && (q in s.folders ==> s.folders[q] == t.folders[q])
  }

  lemma OneEntryChanges(s: Stage, p: Place, e: StagedFolder)
    ensures OthersKept(s, s.(folders := s.folders[p := e]), p)
  {
  }

  lemma RemovingKeepsOthers(s: Stage, p: Place)
    ensures OthersKept(s, DeleteMailbox(s, p), p)
  {
  }

  // ----- What staged rows prove

  /** The folder shows this snapshot; an untracked snapshot says nothing about flags. */
  ghost predicate Matches(f: Folder, snapshot: Snapshot) {
    && f.listed
    && f.uidvalidity == snapshot.uidvalidity
    && f.uidnext == snapshot.uidnext
    && |f.uids| == snapshot.exists_
    && (snapshot.highestModseq.Some? ==> f.tracked && f.modseq == snapshot.highestModseq.value)
  }

  /** The row that a folder's message deserves: flags only under a tracked mod-sequence. */
  function Evidence(message: Message, tracked: bool): Row {
    if tracked then AllItems(message) else AllItems(message).(flags := None)
  }

  /** Every row reports what the folder holds under that UID, in full if the folder is thorough. */
  ghost predicate RowsOf(rows: map<nat, Row>, f: Folder, tracked: bool) {
    forall u :: u in rows ==> u in f.messages && IsEvidence(rows[u], f.messages[u], tracked, f.thorough)
  }

  predicate IsEvidence(row: Row, message: Message, tracked: bool, thorough: bool) {
    IsPart(row, Evidence(message, tracked)) && (thorough ==> row == Evidence(message, tracked))
  }

  ghost predicate HoldsPrefix(rows: map<nat, Row>, f: Folder, tracked: bool) {
    && |rows| <= |f.uids|
    && rows.Keys == Elements(f.uids[..|rows|])
    && RowsOf(rows, f, tracked)
  }

  /** The rows are those of the folder: one for each message, none of them wrong. */
  ghost predicate Attests(rows: map<nat, Row>, f: Folder, tracked: bool) {
    rows.Keys == f.messages.Keys && RowsOf(rows, f, tracked)
  }

  /** All the rows of a folder, with nothing missing. */
  ghost function AllRows(f: Folder, tracked: bool): map<nat, Row> {
    map u | u in f.messages :: Evidence(f.messages[u], tracked)
  }

  /** The row has every item of the message that a scan asks for. */
  predicate IsWhole(row: Row, message: Message, tracked: bool) {
    && (message.meta.messageId.Some? ==> row.messageId.Some?)
    && row.internalDate.Some? && row.sizeBytes.Some? && (tracked ==> row.flags.Some?)
  }

  /** The rows of a folder are exactly its messages if and only if no record left an item out,
      and a thorough folder's always are; staged flags are the server's wherever there are any. */
  lemma WholeExactly(rows: map<nat, Row>, f: Folder, tracked: bool)
    requires Attests(rows, f, tracked)
    ensures rows == AllRows(f, tracked) <==> forall u :: u in rows ==> IsWhole(rows[u], f.messages[u], tracked)
    ensures f.thorough ==> rows == AllRows(f, tracked)
    ensures forall u :: u in rows ==> (rows[u].flags == Some(f.messages[u].flags) <==> rows[u].flags.Some?)
  {
    forall u | u in rows ensures rows[u] == Evidence(f.messages[u], tracked) <==> IsWhole(rows[u], f.messages[u], tracked) {
      assert IsEvidence(rows[u], f.messages[u], tracked, f.thorough);
    }
    if forall u :: u in rows ==> IsWhole(rows[u], f.messages[u], tracked) {
      assert rows == AllRows(f, tracked);
    }
    if rows == AllRows(f, tracked) {
      forall u | u in rows ensures IsWhole(rows[u], f.messages[u], tracked) {
        assert rows[u] == AllRows(f, tracked)[u];
      }
    }
    if f.thorough {
      assert rows == AllRows(f, tracked);
    }
  }

  lemma FullPrefixIsExact(rows: map<nat, Row>, f: Folder, tracked: bool)
    requires ValidFolder(f) && HoldsPrefix(rows, f, tracked) && |rows| == |f.uids|
    ensures Attests(rows, f, tracked)
  {
    assert f.uids[..|rows|] == f.uids;
    forall u ensures u in rows <==> u in f.messages {
      assert u in rows.Keys <==> u in Elements(f.uids);
    }
  }

  /**
   The invariant of a stage entry: should the folder, now or at any later time, show
   the snapshot of the cursor, then the staged rows are those of its first messages.
   Time alone cannot break it, which is why it survives a crash of the controller.
   */
  ghost predicate Trustworthy(e: StagedFolder, now: Folder) {
    forall f {:trigger Evolves(now, f)} :: ValidFolder(f) && Evolves(now, f) && Matches(f, e.cursor.snapshot) ==>
      HoldsPrefix(e.rows, f, e.cursor.snapshot.highestModseq.Some?)
  }

  ghost predicate StageTrusted(s: Stage, w: World) {
    forall p {:trigger s.folders[p]} :: p in s.folders ==> Trustworthy(s.folders[p], At(w, p))
  }

  lemma TrustLasts(e: StagedFolder, now: Folder, later: Folder)
    requires ValidFolder(now) && ValidFolder(later) && Evolves(now, later)
    requires Trustworthy(e, now)
    ensures Trustworthy(e, later)
  {
    forall f | ValidFolder(f) && Evolves(later, f) && Matches(f, e.cursor.snapshot)
      ensures HoldsPrefix(e.rows, f, e.cursor.snapshot.highestModseq.Some?)
    {
      EvolvesTransitive(now, later, f);
    }
  }

  lemma StageTrustLasts(s: Stage, v: World, w: World)
    requires ValidWorld(v) && ValidWorld(w) && WorldEvolves(v, w)
    requires StageTrusted(s, v)
    ensures StageTrusted(s, w)
  {
    forall p | p in s.folders ensures Trustworthy(s.folders[p], At(w, p)) {
      TrustLasts(s.folders[p], At(v, p), At(w, p));
    }
  }

  /** An entry stays trustworthy when only its progress marks move. */
  lemma ProgressKeepsTrust(e: StagedFolder, cursor: Cursor, now: Folder)
    requires Trustworthy(e, now) && cursor.snapshot == e.cursor.snapshot
    ensures Trustworthy(e.(cursor := cursor), now)
  {
    forall f | ValidFolder(f) && Evolves(now, f) && Matches(f, e.cursor.snapshot)
      ensures HoldsPrefix(e.rows, f, e.cursor.snapshot.highestModseq.Some?)
    {
      assert Evolves(now, f);
    }
  }

  lemma PrefixGrows(rows: map<nat, Row>, page: map<nat, Row>, uids: seq<nat>, more: nat)
    requires StrictlyIncreasing(uids) && |rows| <= more <= |uids|
    requires rows.Keys == Elements(uids[..|rows|])
    requires page.Keys == Elements(uids[|rows|..more])
    ensures (rows + page).Keys == Elements(uids[..more]) && |rows + page| == more
  {
    ElementsSplit(uids, |rows|, more);
    PrefixHasNoDuplicates(uids, more);
    MapSize(rows + page);
  }

  lemma PageJoinsPrefix(rows: map<nat, Row>, page: map<nat, Row>, f: Folder, tracked: bool, more: nat)
    requires StrictlyIncreasing(f.uids)
    requires HoldsPrefix(rows, f, tracked) && RowsOf(page, f, tracked)
    requires |rows| <= more <= |f.uids|
    requires page.Keys == Elements(f.uids[|rows|..more])
    ensures HoldsPrefix(rows + page, f, tracked)
  {
    PrefixGrows(rows, page, f.uids, more);
    assert RowsOf(rows + page, f, tracked);
  }

  /** Rows fetched at any moment between two equal snapshots are the rows of both. */
  lemma RowsStayCurrent(page: map<nat, Row>, snapshot: Snapshot, opening: Folder, fetched: Folder, f: Folder)
    requires ValidFolder(opening) && ValidFolder(fetched) && ValidFolder(f)
    requires Matches(opening, snapshot) && Matches(f, snapshot)
    requires Evolves(opening, fetched) && Evolves(fetched, f)
    requires RowsOf(page, fetched, snapshot.highestModseq.Some?)
    ensures RowsOf(page, f, snapshot.highestModseq.Some?)
  {
    Sandwich(opening, fetched, f);
    forall u | u in page ensures u in f.messages {
      assert u in fetched.uids;
    }
  }

  /** Staging the next page in sequence order extends the trusted prefix, although the
      UIDs were listed and the rows fetched at two different moments of the scan. */
  lemma PageExtendsPrefix(
    rows: map<nat, Row>, page: map<nat, Row>, snapshot: Snapshot, more: nat,
    opening: Folder, listing: Folder, fetched: Folder, f: Folder)
    requires ValidFolder(opening) && ValidFolder(listing) && ValidFolder(fetched) && ValidFolder(f)
    requires Matches(opening, snapshot) && Matches(f, snapshot)
    requires Evolves(opening, listing) && Evolves(listing, f)
    requires Evolves(opening, fetched) && Evolves(fetched, f)
    requires |rows| <= more <= |listing.uids|
    requires page.Keys == Elements(listing.uids[|rows|..more])
    requires RowsOf(page, fetched, snapshot.highestModseq.Some?)
    requires HoldsPrefix(rows, f, snapshot.highestModseq.Some?)
    ensures HoldsPrefix(rows + page, f, snapshot.highestModseq.Some?)
  {
    assert listing.uids == f.uids by {
      Sandwich(opening, listing, f);
    }
    RowsStayCurrent(page, snapshot, opening, fetched, f);
    PageJoinsPrefix(rows, page, f, snapshot.highestModseq.Some?, more);
  }

  lemma PageKeepsTrust(
    e: StagedFolder, next: StagedFolder, page: map<nat, Row>, more: nat,
    opening: Folder, listing: Folder, fetched: Folder, now: Folder)
    requires ValidFolder(opening) && ValidFolder(listing) && ValidFolder(fetched) && ValidFolder(now)
    requires Matches(opening, e.cursor.snapshot)
    requires Evolves(opening, listing) && Evolves(listing, now)
    requires Evolves(opening, fetched) && Evolves(fetched, now)
    requires |e.rows| <= more <= |listing.uids|
    requires page.Keys == Elements(listing.uids[|e.rows|..more])
    requires RowsOf(page, fetched, e.cursor.snapshot.highestModseq.Some?)
    requires Trustworthy(e, now)
    requires next.cursor.snapshot == e.cursor.snapshot && next.rows == e.rows + page
    ensures Trustworthy(next, now)
  {
    forall f | ValidFolder(f) && Evolves(now, f) && Matches(f, e.cursor.snapshot)
      ensures HoldsPrefix(next.rows, f, e.cursor.snapshot.highestModseq.Some?)
    {
      EvolvesTransitive(listing, now, f);
      EvolvesTransitive(fetched, now, f);
      PageExtendsPrefix(e.rows, page, e.cursor.snapshot, more, opening, listing, fetched, f);
    }
  }

  /** Changing one entry, or removing entries, keeps the rest of the stage trusted. */
  lemma EntryKeepsStageTrusted(s: Stage, p: Place, e: StagedFolder, w: World)
    requires StageTrusted(s, w) && Trustworthy(e, At(w, p))
    ensures StageTrusted(s.(folders := s.folders[p := e]), w)
  {
    var t := s.(folders := s.folders[p := e]);
    forall q | q in t.folders ensures Trustworthy(t.folders[q], At(w, q)) {
      if q != p {
        assert t.folders[q] == s.folders[q];
      }
    }
  }

  lemma SubStageTrusted(s: Stage, t: Stage, w: World)
    requires StageTrusted(s, w)
    requires forall p :: p in t.folders ==> p in s.folders && t.folders[p] == s.folders[p]
    ensures StageTrusted(t, w)
  {
  }

  lemma FreshEntryIsTrusted(snapshot: Snapshot, now: Folder)
    ensures Trustworthy(StagedFolder(Cursor(snapshot, 0, false, false), map[]), now)
  {
    forall f | ValidFolder(f) && Evolves(now, f) && Matches(f, snapshot)
      ensures HoldsPrefix(map[], f, snapshot.highestModseq.Some?)
    {
      assert f.uids[..0] == [];
    }
  }

  /**
   A staged folder that is complete for a snapshot has the rows of the server's folder at
   every moment at which the server shows that snapshot.
   */
  lemma CompleteEntryIsExact(e: StagedFolder, now: Folder, f: Folder)
    requires ValidFolder(f) && Evolves(now, f) && Trustworthy(e, now)
    requires Matches(f, e.cursor.snapshot) && |e.rows| == e.cursor.snapshot.exists_
    ensures Attests(e.rows, f, e.cursor.snapshot.highestModseq.Some?)
  {
    FullPrefixIsExact(e.rows, f, e.cursor.snapshot.highestModseq.Some?);
  }

  // ----- What an earlier scan saves

  /** How scans leave an entry: completed with all its rows, or unfinished with a cursor at its last row. */
  predicate Tidy(e: StagedFolder) {
    if e.cursor.completed then e.cursor.finished && |e.rows| == e.cursor.snapshot.exists_
    else !e.cursor.finished && (e.rows != map[] ==> IsGreatestUid(e.rows, e.cursor.lastUid))
  }

  ghost predicate StageTidy(s: Stage) {
    forall p :: p in s.folders ==> Tidy(s.folders[p])
  }

  lemma EntryKeepsStageTidy(s: Stage, p: Place, e: StagedFolder)
    requires StageTidy(s) && Tidy(e)
    ensures StageTidy(s.(folders := s.folders[p := e]))
  {
  }

  /** Beginning a folder and completing it leave it tidy. */
  lemma BegunIsTidy(s: Stage, p: Place, snapshot: Snapshot)
    requires StageTidy(s)
    ensures StageTidy(BeginScan(s, p, snapshot))
  {
    EntryKeepsStageTidy(s, p, BeginScan(s, p, snapshot).folders[p]);
  }

  lemma CompletedIsTidy(s: Stage, p: Place, snapshot: Snapshot, lastUid: nat)
    requires StageTidy(s) && Complete(s, p, snapshot, lastUid).Some?
    ensures StageTidy(Complete(s, p, snapshot, lastUid).value)
  {
    EntryKeepsStageTidy(s, p, Complete(s, p, snapshot, lastUid).value.folders[p]);
  }

  /** So does a page above the rows of an unfinished folder. */
  lemma PageIsTidy(s: Stage, p: Place, snapshot: Snapshot, lastUid: nat, page: map<nat, Row>)
    requires StageTidy(s) && InsertPage(s, p, snapshot, lastUid, page).Some? && !s.folders[p].cursor.completed
    requires IsGreatestUid(page, lastUid) && forall u :: u in s.folders[p].rows ==> u <= lastUid
    ensures StageTidy(InsertPage(s, p, snapshot, lastUid, page).value)
    ensures !InsertPage(s, p, snapshot, lastUid, page).value.folders[p].cursor.completed
  {
    EntryKeepsStageTidy(s, p, InsertPage(s, p, snapshot, lastUid, page).value.folders[p]);
  }

  lemma SubStageTidy(s: Stage, t: Stage)
    requires StageTidy(s) && forall p :: p in t.folders ==> p in s.folders && t.folders[p] == s.folders[p]
    ensures StageTidy(t)
  {
  }

  /** What one scan completes, the next one reuses under the same tracked snapshot. */
  lemma CompletedIsReusable(s: Stage, p: Place, snapshot: Snapshot, lastUid: nat)
    requires Complete(s, p, snapshot, lastUid).Some? && s.durable && snapshot.highestModseq.Some?
    ensures ReusableCompleted(Complete(s, p, snapshot, lastUid).value, p, snapshot) == Some(snapshot.exists_)
  {
  }

  /**
   Nothing is wasted: should the folder show the snapshot of its tidy, trusted entry, then a scan
   finds every staged row saved, whether the earlier scan was completed or cut off after a page.
   */
  lemma NothingIsWasted(s: Stage, p: Place, f: Folder)
    requires p in s.folders && Tidy(s.folders[p]) && Trustworthy(s.folders[p], f)
    requires ValidFolder(f) && Matches(f, s.folders[p].cursor.snapshot)
    requires s.durable && s.folders[p].cursor.snapshot.highestModseq.Some?
    ensures Saved(s, p, s.folders[p].cursor.snapshot) == |s.folders[p].rows|
  {
    var e := s.folders[p];
    EvolvesReflexive(f);
    assert HoldsPrefix(e.rows, f, true);
    if !e.cursor.completed && e.rows != map[] {
      assert e.cursor.lastUid in f.uids by {
        assert e.cursor.lastUid in e.rows.Keys;
      }
    }
  }
}
