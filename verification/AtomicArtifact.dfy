/** Crash-safe publication of artifacts over a file system that may lose unsynced work. */
module AtomicArtifact {
  import opened Collections

  /** A file's bytes, and whether they were flushed to storage. */
  datatype File = File(content: string, synced: bool)

  /** A directory entry: what a reader sees now, what storage is sure to hold, and the
      values that it took since the directory was last flushed. */
  datatype Entry = Entry(now: Option<File>, durable: Option<File>, pending: seq<Option<File>>)

  type Disk = map<string, Entry>

  const NO_ENTRY := Entry(None, None, [])

  function Get(disk: Disk, name: string): Entry {
    if name in disk then disk[name] else NO_ENTRY
  }

  function Put(disk: Disk, name: string, value: Option<File>): Disk {
    var e := Get(disk, name);
    disk[name := Entry(value, e.durable, e.pending + [value])]
  }

  /** Flushing the directory makes every entry as it is now durable. */
  function FlushDirectory(disk: Disk): Disk {
    map name | name in disk :: Entry(disk[name].now, disk[name].now, [])
  }

  /** What a power loss leaves of an entry: any value since the last flush, and any bytes
      at all where they were not synced. */
  function Settle(e: Entry, pick: nat, garbage: string): Entry {
    var values := [e.durable] + e.pending;
    var kept := values[pick % |values|];
    var after := if kept.Some? && !kept.value.synced then Some(File(garbage, true)) else kept;
    Entry(after, after, [])
  }

  datatype PowerLoss = PowerLoss(picks: map<string, nat>, garbage: map<string, string>)

  function Crash(disk: Disk, loss: PowerLoss): Disk {
    map name | name in disk :: Settle(
      disk[name],
      if name in loss.picks then loss.picks[name] else 0,
      if name in loss.garbage then loss.garbage[name] else "")
  }

  // ----- Names

  const TEMPORARY_MARKER := ".tmp-"
  /** One hour, in seconds. */
  const STALE_TEMPORARY_AGE := 60 * 60

  /** `Path::file_stem`: the name up to its last dot, if that dot is not the first character. */
  function StemLength(name: string, i: nat): nat
    requires i <= |name|
  {
    if i == 0 then |name|
    else if name[i - 1] == '.' then (if i - 1 == 0 then |name| else i - 1)
    else StemLength(name, i - 1)
  }

  lemma {:induction false} StemLengthInRange(name: string, i: nat)
    requires i <= |name|
    ensures StemLength(name, i) <= |name|
  {
    if i > 0 {
      StemLengthInRange(name, i - 1);
    }
  }

  function Stem(name: string): string {
    StemLengthInRange(name, |name|);
    name[..StemLength(name, |name|)]
  }

  type UuidSyntax = string -> bool

  /** Named `<stem>.tmp-<uuid>`, as the writer names its temporaries. */
  predicate IsTemporaryOf(isUuid: UuidSyntax, name: string, path: string) {
    var prefix := Stem(path) + TEMPORARY_MARKER;
    prefix <= name && isUuid(name[|prefix|..])
  }

  predicate Stale(ages: map<string, nat>, name: string) {
    name in ages && ages[name] >= STALE_TEMPORARY_AGE
  }

  /** The disk after the sweep; a removal that fails is left for the next write. */
  function Swept(disk: Disk, isUuid: UuidSyntax, path: string, ages: map<string, nat>, stuck: set<string>): Disk {
    map name | name in disk ::
      if disk[name].now.Some? && IsTemporaryOf(isUuid, name, path) && Stale(ages, name) && name !in stuck
      then Entry(None, disk[name].durable, disk[name].pending + [None]) else disk[name]
  }

  // ----- Safety of a destination

  /** Whatever a reader sees or a power loss leaves is complete and acceptable. */
  ghost predicate Acceptable(value: Option<File>, good: set<Option<string>>) {
    match value
    case None => None in good
    case Some(file) => file.synced && Some(file.content) in good
  }

  ghost predicate Safe(disk: Disk, name: string, good: set<Option<string>>) {
    var e := Get(disk, name);
    && Acceptable(e.now, good) && Acceptable(e.durable, good)
    && forall i :: 0 <= i < |e.pending| ==> Acceptable(e.pending[i], good)
  }

  lemma CrashIsSafe(disk: Disk, name: string, good: set<Option<string>>, loss: PowerLoss)
    requires Safe(disk, name, good)
    ensures Safe(Crash(disk, loss), name, good)
  {
    if name in disk {
      var e := disk[name];
      var values := [e.durable] + e.pending;
      assert forall i :: 0 <= i < |values| ==> Acceptable(values[i], good);
    }
  }

  lemma RenameIsSafe(disk: Disk, temporary: string, path: string, file: File, good: set<Option<string>>)
    requires Safe(disk, path, good) && temporary != path && file.synced
    ensures Safe(Put(Put(disk, path, Some(file)), temporary, None), path, good + {Some(file.content)})
  {
  }

  lemma FlushIsSafe(disk: Disk, name: string, good: set<Option<string>>)
    requires Safe(disk, name, good)
    ensures Safe(FlushDirectory(disk), name, good)
    ensures Get(disk, name).now.Some? && Get(disk, name).now.value.synced ==>
      Safe(FlushDirectory(disk), name, {Some(Get(disk, name).now.value.content)})
  {
  }

  lemma {:induction false} StemStopsAtDot(name: string, i: nat, dot: nat)
    requires 0 < dot < i <= |name| && name[dot] == '.'
    requires forall k :: dot < k < i ==> name[k] != '.'
    ensures StemLength(name, i) == dot
  {
    if i - 1 != dot {
      StemStopsAtDot(name, i - 1, dot);
    }
  }

  lemma StemOfTemporary(stem: string, uuid: string)
    requires stem != "" && '.' !in uuid
    ensures Stem(stem + TEMPORARY_MARKER + uuid) == stem
  {
    var name := stem + TEMPORARY_MARKER + uuid;
    assert TEMPORARY_MARKER[1..] == "tmp-";
    forall k | |stem| < k < |name| ensures name[k] != '.' {
      if k < |stem| + 5 {
        assert name[k] == TEMPORARY_MARKER[k - |stem|] && TEMPORARY_MARKER[k - |stem|] in TEMPORARY_MARKER[1..];
      } else {
        assert name[k] == uuid[k - |stem| - 5] && uuid[k - |stem| - 5] in uuid;
      }
    }
    StemStopsAtDot(name, |name|, |stem|);
  }

  // ----- The writer

  datatype Outcome = Done | Fails | PowerFails(loss: PowerLoss)

  /** How each step of one write goes; `written` bytes arrive before a failing write stops. */
  datatype Course = Course(
    admitted: bool, open: Outcome, write: Outcome, written: nat, sync: Outcome, restrict: Outcome,
    rename: Outcome, restrictFinal: Outcome, flush: Outcome, cleanup: Outcome)

  predicate GoesWell(course: Course) {
    && course.admitted && course.open.Done? && course.write.Done? && course.sync.Done? && course.restrict.Done?
    && course.rename.Done? && course.restrictFinal.Done? && course.flush.Done?
  }

  datatype WriteResult = Written | Failed | FailedAndLeft | Crashed

  datatype Status = Status(disk: Disk, result: WriteResult, renamed: bool)

  /** A step that does not succeed: an error, or a power loss on the spot. */
  function Stopped(disk: Disk, outcome: Outcome, renamed: bool): Status {
    if outcome.PowerFails? then Status(Crash(disk, outcome.loss), Crashed, renamed) else Status(disk, Failed, renamed)
  }

  /** The temporary holds these bytes, flushed or not. */
  function Holding(disk: Disk, temporary: string, content: string, synced: bool): Disk {
    Put(disk, temporary, Some(File(content, synced)))
  }

  function Partial(content: string, written: nat): string {
    if written <= |content| then content[..written] else content
  }

  function Renamed(disk: Disk, temporary: string, path: string): Disk {
    if temporary == path then disk else Put(Put(disk, path, Get(disk, temporary).now), temporary, None)
  }

  /** The steps up to and including the directory flush; the first that fails is the last. */
  function Published(disk: Disk, path: string, temporary: string, content: string, course: Course): Status {
    if !course.open.Done? then Stopped(disk, course.open, false)
    else if Get(disk, temporary).now.Some? then Stopped(disk, Fails, false)
    else
      var created := Holding(disk, temporary, "", false);
      if !course.write.Done? then
        Stopped(Holding(created, temporary, Partial(content, course.written), false), course.write, false)
      else
        var filled := Holding(created, temporary, content, false);
        var synced := Holding(filled, temporary, content, true);
        var replaced := Renamed(synced, temporary, path);
        if !course.sync.Done? then Stopped(filled, course.sync, false)
        else if !course.restrict.Done? then Stopped(synced, course.restrict, false)
        else if !course.rename.Done? then Stopped(synced, course.rename, false)
        else if !course.restrictFinal.Done? then Stopped(replaced, course.restrictFinal, true)
        else if !course.flush.Done? then Stopped(replaced, course.flush, true)
        else Status(FlushDirectory(replaced), Written, true)
  }

  /** After a failure the temporary is removed, or reported if that fails too. */
  function CleanedUp(s: Status, temporary: string, cleanup: Outcome): Status {
    if !s.result.Failed? || Get(s.disk, temporary).now.None? then s
    else match cleanup
      case Done => s.(disk := Put(s.disk, temporary, None))
      case Fails => s.(result := FailedAndLeft)
      case PowerFails(loss) => s.(disk := Crash(s.disk, loss), result := Crashed)
  }

  /** One write of an artifact, with the name of its temporary and what happens to its steps. */
  datatype Job = Job(
    path: string, uuid: string, content: string, ages: map<string, nat>, stuck: set<string>, course: Course)

  function Temporary(job: Job): string { Stem(job.path) + TEMPORARY_MARKER + job.uuid }

  function Write(disk: Disk, isUuid: UuidSyntax, job: Job): Status {
    if job.path == "" || !job.course.admitted then Status(disk, Failed, false)
    else
      var swept := Swept(disk, isUuid, job.path, job.ages, job.stuck);
      CleanedUp(Published(swept, job.path, Temporary(job), job.content, job.course), Temporary(job), job.course.cleanup)
  }

  // ----- What is acceptable after a history

  /** One finished write. */
  datatype Record = Record(path: string, content: string, result: WriteResult, renamed: bool)

  /** What is acceptable of an artifact after a write: the last successful content, or one
      that a later write got as far as renaming into place. */
  ghost function GoodAfter(good: set<Option<string>>, watch: string, w: Record): set<Option<string>> {
    if w.path != watch then good
    else if w.result.Written? then {Some(w.content)}
    else if w.renamed then good + {Some(w.content)}
    else good
  }

  datatype Incident = Publication(job: Job) | Loss(loss: PowerLoss)

  /** Every temporary is named as the writer names its temporaries. */
  ghost predicate IsNamed(isUuid: UuidSyntax, events: seq<Incident>) {
    forall e :: e in events && e.Publication? ==> isUuid(e.job.uuid)
  }

  function History(disk: Disk, isUuid: UuidSyntax, events: seq<Incident>): (Disk, seq<Record>) {
    if events == [] then (disk, [])
    else
      var n := |events| - 1;
      var (before, log) := History(disk, isUuid, events[..n]);
      match events[n]
      case Loss(loss) => (Crash(before, loss), log)
      case Publication(job) =>
        var s := Write(before, isUuid, job);
        (s.disk, log + [Record(job.path, job.content, s.result, s.renamed)])
  }

  ghost function GoodAfterAll(good: set<Option<string>>, watch: string, log: seq<Record>): set<Option<string>> {
    if log == [] then good
    else GoodAfter(GoodAfterAll(good, watch, log[..|log| - 1]), watch, log[|log| - 1])
  }

  // ----- Safety of every ordinary name

  ghost predicate LooksTemporary(isUuid: UuidSyntax, name: string) {
    exists stem, uuid :: NamedAs(isUuid, name, stem, uuid)
  }

  ghost predicate NamedAs(isUuid: UuidSyntax, name: string, stem: string, uuid: string) {
    stem != "" && isUuid(uuid) && name == stem + TEMPORARY_MARKER + uuid
  }

  lemma {:induction false} StemLengthIsPositive(name: string, i: nat)
    requires name != "" && i <= |name|
    ensures 0 < StemLength(name, i)
  {
    if i > 0 {
      StemLengthIsPositive(name, i - 1);
    }
  }

  lemma StemIsNotEmpty(name: string)
    requires name != ""
    ensures Stem(name) != ""
  {
    StemLengthIsPositive(name, |name|);
    StemLengthInRange(name, |name|);
    assert |Stem(name)| == StemLength(name, |name|);
  }

  lemma TemporaryLooksTemporary(isUuid: UuidSyntax, name: string, path: string)
    requires path != ""
    ensures IsTemporaryOf(isUuid, name, path) ==> LooksTemporary(isUuid, name)
  {
    var prefix := Stem(path) + TEMPORARY_MARKER;
    StemIsNotEmpty(path);
    if IsTemporaryOf(isUuid, name, path) {
      assert NamedAs(isUuid, name, Stem(path), name[|prefix|..]);
    }
  }

  lemma TemporaryIsTemporary(isUuid: UuidSyntax, job: Job)
    requires isUuid(job.uuid) && job.path != ""
    ensures LooksTemporary(isUuid, Temporary(job))
  {
    StemIsNotEmpty(job.path);
    assert NamedAs(isUuid, Temporary(job), Stem(job.path), job.uuid);
  }

  lemma SweepSparesOrdinary(
    disk: Disk, isUuid: UuidSyntax, path: string, ages: map<string, nat>, stuck: set<string>, watch: string)
    requires path != "" && !LooksTemporary(isUuid, watch)
    ensures Get(Swept(disk, isUuid, path, ages, stuck), watch) == Get(disk, watch)
  {
    TemporaryLooksTemporary(isUuid, watch, path);
  }

  lemma PutElsewhere(disk: Disk, name: string, value: Option<File>, watch: string, good: set<Option<string>>)
    requires Safe(disk, watch, good) && name != watch
    ensures Safe(Put(disk, name, value), watch, good)
  {
  }

  lemma StoppedIsSafe(disk: Disk, outcome: Outcome, renamed: bool, watch: string, good: set<Option<string>>)
    requires Safe(disk, watch, good)
    ensures Safe(Stopped(disk, outcome, renamed).disk, watch, good)
  {
    if outcome.PowerFails? {
      CrashIsSafe(disk, watch, good, outcome.loss);
    }
  }

  lemma RenamedIsSafe(disk: Disk, temporary: string, path: string, content: string, watch: string, good: set<Option<string>>)
    requires Safe(disk, watch, good) && temporary != watch
    requires Get(disk, temporary).now == Some(File(content, true))
    ensures Safe(Renamed(disk, temporary, path), watch, if path == watch then good + {Some(content)} else good)
    ensures path == watch ==> Get(Renamed(disk, temporary, path), path).now == Some(File(content, true))
  {
    if path == watch {
      RenameIsSafe(disk, temporary, path, File(content, true), good);
    }
  }

  /** Every prefix of the steps keeps every name but the temporary safe. */
  lemma PublishedIsSafe(
    disk: Disk, path: string, temporary: string, content: string, course: Course, watch: string, good: set<Option<string>>)
    requires Safe(disk, watch, good) && temporary != watch
    ensures var s := Published(disk, path, temporary, content, course);
      Safe(s.disk, watch, GoodAfter(good, watch, Record(path, content, s.result, s.renamed)))
  {
    hide Safe, Crash, FlushDirectory, Renamed, Put;
    var created := Holding(disk, temporary, "", false);
    var part := Holding(created, temporary, Partial(content, course.written), false);
    var filled := Holding(created, temporary, content, false);
    var synced := Holding(filled, temporary, content, true);
    var replaced := Renamed(synced, temporary, path);
    var more := if path == watch then good + {Some(content)} else good;
    PutElsewhere(disk, temporary, Some(File("", false)), watch, good);
    PutElsewhere(created, temporary, Some(File(Partial(content, course.written), false)), watch, good);
    PutElsewhere(created, temporary, Some(File(content, false)), watch, good);
    PutElsewhere(filled, temporary, Some(File(content, true)), watch, good);
    HoldsIt(filled, temporary, content);
    RenamedIsSafe(synced, temporary, path, content, watch, good);
    StoppedIsSafe(disk, if course.open.Done? then Fails else course.open, false, watch, good);
    StoppedIsSafe(part, course.write, false, watch, good);
    StoppedIsSafe(filled, course.sync, false, watch, good);
    StoppedIsSafe(synced, course.restrict, false, watch, good);
    StoppedIsSafe(synced, course.rename, false, watch, good);
    StoppedIsSafe(replaced, course.restrictFinal, true, watch, more);
    StoppedIsSafe(replaced, course.flush, true, watch, more);
    FlushIsSafe(replaced, watch, more);
  }

  lemma HoldsIt(disk: Disk, temporary: string, content: string)
    ensures Get(Holding(disk, temporary, content, true), temporary).now == Some(File(content, true))
  {
  }

  lemma CleanedUpIsSafe(s: Status, temporary: string, cleanup: Outcome, watch: string, good: set<Option<string>>)
    requires Safe(s.disk, watch, good) && temporary != watch
    ensures Safe(CleanedUp(s, temporary, cleanup).disk, watch, good)
  {
    PutElsewhere(s.disk, temporary, None, watch, good);
    if cleanup.PowerFails? {
      CrashIsSafe(s.disk, watch, good, cleanup.loss);
    }
  }

  /** Cleaning up turns a failure into a reported or a crashed one, and nothing else. */
  lemma CleanedUpKeepsRecord(s: Status, temporary: string, cleanup: Outcome, path: string, content: string, watch: string,
                             good: set<Option<string>>)
    ensures var t := CleanedUp(s, temporary, cleanup);
      GoodAfter(good, watch, Record(path, content, t.result, t.renamed)) ==
      GoodAfter(good, watch, Record(path, content, s.result, s.renamed))
  {
  }

  lemma WriteIsSafe(disk: Disk, isUuid: UuidSyntax, job: Job, watch: string, good: set<Option<string>>)
    requires isUuid(job.uuid) && !LooksTemporary(isUuid, watch) && Safe(disk, watch, good)
    ensures var s := Write(disk, isUuid, job);
      Safe(s.disk, watch, GoodAfter(good, watch, Record(job.path, job.content, s.result, s.renamed)))
  {
    hide Published, CleanedUp, Swept, GoodAfter;
    if job.path == "" || !job.course.admitted {
      NothingWritten(good, watch, job.path, job.content);
    } else {
      var temporary := Temporary(job);
      TemporaryIsTemporary(isUuid, job);
      var swept := Swept(disk, isUuid, job.path, job.ages, job.stuck);
      SweepSparesOrdinary(disk, isUuid, job.path, job.ages, job.stuck, watch);
      PublishedIsSafe(swept, job.path, temporary, job.content, job.course, watch, good);
      var s := Published(swept, job.path, temporary, job.content, job.course);
      CleanedUpIsSafe(s, temporary, job.course.cleanup, watch,
                      GoodAfter(good, watch, Record(job.path, job.content, s.result, s.renamed)));
      CleanedUpKeepsRecord(s, temporary, job.course.cleanup, job.path, job.content, watch, good);
    }
  }

  lemma NothingWritten(good: set<Option<string>>, watch: string, path: string, content: string)
    ensures GoodAfter(good, watch, Record(path, content, Failed, false)) == good
  {
  }

  lemma WriteKeepsAllSafe(disk: Disk, isUuid: UuidSyntax, job: Job)
    requires isUuid(job.uuid)
    ensures var s := Write(disk, isUuid, job);
      forall watch, good :: !LooksTemporary(isUuid, watch) && Safe(disk, watch, good) ==>
        Safe(s.disk, watch, GoodAfter(good, watch, Record(job.path, job.content, s.result, s.renamed)))
  {
    hide Safe, LooksTemporary, Write, GoodAfter;
    var s := Write(disk, isUuid, job);
    forall watch, good | !LooksTemporary(isUuid, watch) && Safe(disk, watch, good)
      ensures Safe(s.disk, watch, GoodAfter(good, watch, Record(job.path, job.content, s.result, s.renamed)))
    {
      WriteIsSafe(disk, isUuid, job, watch, good);
    }
  }

  /** How a write ends: with the content in place, or without its temporary unless that is reported. */
  lemma WriteEnds(disk: Disk, isUuid: UuidSyntax, job: Job)
    requires isUuid(job.uuid)
    ensures var s := Write(disk, isUuid, job);
      && (s.result.Written? ==> s.renamed)
      && (s.result.Written? && !LooksTemporary(isUuid, job.path) ==>
            Get(s.disk, job.path).now == Some(File(job.content, true)))
      && (GoesWell(job.course) && job.path != "" && Get(disk, Temporary(job)).now.None? ==> s.result.Written?)
      && (!LooksTemporary(isUuid, job.path) && job.course.admitted && job.path != "" ==>
            s.result.Written? || s.result.Failed? ==> Get(s.disk, Temporary(job)).now == None)
  {
    hide LooksTemporary, Swept, Stem;
    if job.path != "" && job.course.admitted {
      var temporary := Temporary(job);
      TemporaryIsTemporary(isUuid, job);
      var swept := Swept(disk, isUuid, job.path, job.ages, job.stuck);
      SweepAddsNothing(disk, isUuid, job, temporary);
      PublishedEnds(swept, job.path, temporary, job.content, job.course);
    }
  }

  /** The sweep takes an existing file if and only if it is an old temporary of the artifact that can be removed. */
  lemma SweptExactly(
    disk: Disk, isUuid: UuidSyntax, path: string, ages: map<string, nat>, stuck: set<string>, name: string)
    ensures
      var after := Get(Swept(disk, isUuid, path, ages, stuck), name);
      if IsRemovable(isUuid, path, ages, stuck, name) && Get(disk, name).now.Some?
      then after == Entry(None, Get(disk, name).durable, Get(disk, name).pending + [None])
      else after == Get(disk, name)
  {
    var prefix := Stem(path) + TEMPORARY_MARKER;
    if IsTemporaryOf(isUuid, name, path) {
      assert name == prefix + name[|prefix|..];
    }
    forall uuid | name == Stem(path) + ".tmp-" + uuid ensures name[|prefix|..] == uuid && prefix <= name {
    }
  }

  /** A temporary of the artifact, last written an hour ago or earlier, that no error protects. */
  ghost predicate IsRemovable(isUuid: UuidSyntax, path: string, ages: map<string, nat>, stuck: set<string>, name: string) {
    && (exists uuid :: isUuid(uuid) && name == Stem(path) + ".tmp-" + uuid)
    && name in ages && ages[name] >= 3600 && name !in stuck
  }

  /** The steps that must succeed before the new content is in place. */
  predicate ReachesRename(course: Course) {
    && course.admitted && course.open.Done? && course.write.Done? && course.sync.Done?
    && course.restrict.Done? && course.rename.Done?
  }

  predicate LosesPower(course: Course) {
    || course.open.PowerFails? || course.write.PowerFails? || course.sync.PowerFails? || course.restrict.PowerFails?
    || course.rename.PowerFails? || course.restrictFinal.PowerFails? || course.flush.PowerFails?
    || course.cleanup.PowerFails?
  }

  /** The name chosen for the temporary is free once the old temporaries are swept. */
  predicate IsFresh(disk: Disk, isUuid: UuidSyntax, job: Job) {
    job.path != "" && Get(Swept(disk, isUuid, job.path, job.ages, job.stuck), Temporary(job)).now.None?
  }

  lemma PublishedExactly(disk: Disk, path: string, temporary: string, content: string, course: Course)
    requires course.admitted
    ensures
      var s, free := Published(disk, path, temporary, content, course), Get(disk, temporary).now.None?;
      && (s.result.Written? <==> free && GoesWell(course))
      && (s.renamed <==> free && ReachesRename(course))
      && (s.result.Crashed? ==> LosesPower(course))
      && (!s.renamed && !s.result.Crashed? && temporary != path ==> Get(s.disk, path) == Get(disk, path))
      && !s.result.FailedAndLeft?
  {
  }

  /**
   A write succeeds if and only if each of its steps does, and the new content is in place if and only
   if they did up to the rename; before that a failure leaves the artifact as it was.
   */
  lemma WriteExactly(disk: Disk, isUuid: UuidSyntax, job: Job)
    requires isUuid(job.uuid)
    ensures var s := Write(disk, isUuid, job);
      && (s.result.Written? <==> IsFresh(disk, isUuid, job) && GoesWell(job.course))
      && (s.renamed <==> IsFresh(disk, isUuid, job) && ReachesRename(job.course))
      && (s.result.Crashed? ==> LosesPower(job.course))
      && (s.result.FailedAndLeft? ==> job.course.cleanup.Fails? && Get(s.disk, Temporary(job)).now.Some?)
      && (!s.renamed && !s.result.Crashed? && !LooksTemporary(isUuid, job.path) ==>
            Get(s.disk, job.path) == Get(disk, job.path))
  {
    hide LooksTemporary, Swept, Stem, Published, GoesWell;
    if job.path != "" && job.course.admitted {
      TemporaryIsTemporary(isUuid, job);
      var swept := Swept(disk, isUuid, job.path, job.ages, job.stuck);
      PublishedExactly(swept, job.path, Temporary(job), job.content, job.course);
      if !LooksTemporary(isUuid, job.path) {
        SweepSparesOrdinary(disk, isUuid, job.path, job.ages, job.stuck, job.path);
      }
    } else {
      NotAdmitted(job.course);
    }
  }

  lemma NotAdmitted(course: Course)
    ensures GoesWell(course) ==> course.admitted
  {
  }

  lemma SweepAddsNothing(disk: Disk, isUuid: UuidSyntax, job: Job, name: string)
    ensures Get(disk, name).now.None? ==> Get(Swept(disk, isUuid, job.path, job.ages, job.stuck), name).now.None?
  {
  }

  lemma PublishedEnds(disk: Disk, path: string, temporary: string, content: string, course: Course)
    ensures var s := Published(disk, path, temporary, content, course);
      && (s.result.Written? || s.result.Failed? || s.result.Crashed?)
      && (s.result.Written? ==> s.renamed)
      && (s.result.Written? && temporary != path ==>
            Get(s.disk, path).now == Some(File(content, true)) && Get(s.disk, temporary).now == None)
      && (GoesWell(course) && Get(disk, temporary).now.None? ==> s.result.Written?)
  {
  }

  lemma {:induction false} HistoryIsSafe(
    disk: Disk, isUuid: UuidSyntax, events: seq<Incident>, watch: string, good: set<Option<string>>)
    requires IsNamed(isUuid, events) && !LooksTemporary(isUuid, watch) && Safe(disk, watch, good)
    ensures var (after, log) := History(disk, isUuid, events);
      Safe(after, watch, GoodAfterAll(good, watch, log))
  {
    hide Safe, LooksTemporary, Write, Crash, GoodAfter;
    if events != [] {
      var n := |events| - 1;
      HistoryIsSafe(disk, isUuid, events[..n], watch, good);
      var (before, log) := History(disk, isUuid, events[..n]);
      match events[n]
      case Loss(loss) => CrashIsSafe(before, watch, GoodAfterAll(good, watch, log), loss);
      case Publication(job) =>
        assert events[n] in events;
        var s := Write(before, isUuid, job);
        WriteIsSafe(before, isUuid, job, watch, GoodAfterAll(good, watch, log));
        GoodAfterOneMore(good, watch, log, Record(job.path, job.content, s.result, s.renamed));
    }
  }

  lemma HistoryKeepsAllSafe(disk: Disk, isUuid: UuidSyntax, events: seq<Incident>)
    requires IsNamed(isUuid, events)
    ensures var (after, log) := History(disk, isUuid, events);
      forall watch, good :: !LooksTemporary(isUuid, watch) && Safe(disk, watch, good) ==>
        Safe(after, watch, GoodAfterAll(good, watch, log))
  {
    hide Safe, LooksTemporary, History, GoodAfterAll;
    var (after, log) := History(disk, isUuid, events);
    forall watch, good | !LooksTemporary(isUuid, watch) && Safe(disk, watch, good)
      ensures Safe(after, watch, GoodAfterAll(good, watch, log))
    {
      HistoryIsSafe(disk, isUuid, events, watch, good);
    }
  }

  // ----- The guard is exact

  /** No spelling of a UUID contains a dot. */
  ghost predicate DotFree(isUuid: UuidSyntax) {
    forall uuid :: isUuid(uuid) ==> '.' !in uuid
  }

  /** A name looks temporary exactly when its own writer would take it for one of its temporaries. */
  lemma LooksTemporaryExactly(isUuid: UuidSyntax, name: string)
    requires DotFree(isUuid)
    ensures LooksTemporary(isUuid, name) <==> IsTemporaryOf(isUuid, name, name)
  {
    if LooksTemporary(isUuid, name) {
      var stem, uuid :| NamedAs(isUuid, name, stem, uuid);
      StemOfTemporary(stem, uuid);
      assert name[|stem + TEMPORARY_MARKER|..] == uuid;
    } else if name != "" {
      TemporaryLooksTemporary(isUuid, name, name);
    }
  }

  function Settled(content: string): Entry { Entry(Some(File(content, true)), Some(File(content, true)), []) }

  /** A write that gets no further than its sweep. */
  function Aborted(path: string, uuid: string): Job {
    Job(path, uuid, "", map[path := STALE_TEMPORARY_AGE], {},
        Course(true, Fails, Done, 0, Done, Done, Done, Done, Done, Done))
  }

  /** An artifact that looks temporary is lost to its own next write, even one that fails at once. */
  lemma WriteCanTakeDestination(isUuid: UuidSyntax, path: string, uuid: string, content: string)
    requires DotFree(isUuid) && LooksTemporary(isUuid, path)
    ensures var disk: Disk := map[path := Settled(content)];
      var s := Write(disk, isUuid, Aborted(path, uuid));
      && Safe(disk, path, {Some(content)})
      && s.result == Failed && !s.renamed && Get(s.disk, path).now == None
      && !Safe(s.disk, path, GoodAfter({Some(content)}, path, Record(path, "", s.result, s.renamed)))
  {
    hide LooksTemporary;
    LooksTemporaryExactly(isUuid, path);
    var disk: Disk := map[path := Settled(content)];
    var swept := Swept(disk, isUuid, path, map[path := STALE_TEMPORARY_AGE], {});
    assert swept[path].now == None;
    assert Get(swept, Temporary(Aborted(path, uuid))).now == None;
    assert path != "";
  }

  /** Every history leaves the artifact with complete, acceptable content. */
  ghost predicate AlwaysSafe(isUuid: UuidSyntax, watch: string) {
    forall disk, events, good :: StaysSafe(isUuid, watch, disk, events, good)
  }

  ghost predicate StaysSafe(
    isUuid: UuidSyntax, watch: string, disk: Disk, events: seq<Incident>, good: set<Option<string>>)
  {
    IsNamed(isUuid, events) && Safe(disk, watch, good) ==>
      var (after, log) := History(disk, isUuid, events);
      Safe(after, watch, GoodAfterAll(good, watch, log))
  }

  /** Publication is crash-safe over all histories exactly for names that do not look temporary. */
  lemma GuardIsExact(isUuid: UuidSyntax, watch: string)
    requires DotFree(isUuid)
    ensures AlwaysSafe(isUuid, watch) <==> !LooksTemporary(isUuid, watch)
  {
    hide Safe, History, GoodAfterAll, DotFree;
    if LooksTemporary(isUuid, watch) {
      var stem, uuid :| NamedAs(isUuid, watch, stem, uuid);
      var disk: Disk := map[watch := Settled("")];
      var job := Aborted(watch, uuid);
      WriteCanTakeDestination(isUuid, watch, uuid, "");
      OneWrite(disk, isUuid, job, {Some("")}, watch);
      assert IsNamed(isUuid, [Publication(job)]);
      assert !StaysSafe(isUuid, watch, disk, [Publication(job)], {Some("")});
    } else {
      forall disk, events, good ensures StaysSafe(isUuid, watch, disk, events, good) {
        if IsNamed(isUuid, events) && Safe(disk, watch, good) {
          HistoryIsSafe(disk, isUuid, events, watch, good);
        }
      }
    }
  }

  lemma OneWrite(disk: Disk, isUuid: UuidSyntax, job: Job, good: set<Option<string>>, watch: string)
    ensures var s := Write(disk, isUuid, job);
      var w := Record(job.path, job.content, s.result, s.renamed);
      History(disk, isUuid, [Publication(job)]) == (s.disk, [w])
      && GoodAfterAll(good, watch, [w]) == GoodAfter(good, watch, w)
  {
    hide Write, GoodAfter;
    var s := Write(disk, isUuid, job);
    var w := Record(job.path, job.content, s.result, s.renamed);
    assert [Publication(job)][..0] == [] && [w][..0] == [] && [] + [w] == [w];
  }

  lemma GoodAfterOneMore(good: set<Option<string>>, watch: string, log: seq<Record>, w: Record)
    ensures GoodAfterAll(good, watch, log + [w]) == GoodAfter(GoodAfterAll(good, watch, log), watch, w)
  {
    assert (log + [w])[..|log|] == log;
  }

  /** The acceptable contents are those of the last successful write and of the later
      writes that were renamed into place; before any success, the initial ones as well. */
  lemma {:induction false} GoodAfterAllMeans(good: set<Option<string>>, watch: string, log: seq<Record>, c: Option<string>)
    ensures c in GoodAfterAll(good, watch, log) <==>
      || (c in good && forall i :: 0 <= i < |log| ==> !(log[i].path == watch && log[i].result.Written?))
      || (c.Some? && exists i :: 0 <= i < |log| && PublishedLast(log, watch, i, c.value))
  {
    if log != [] {
      var rest, last := log[..|log| - 1], log[|log| - 1];
      GoodAfterAllMeans(good, watch, rest, c);
      if c.Some? {
        forall i | 0 <= i < |rest|
          ensures PublishedLast(log, watch, i, c.value) <==>
            PublishedLast(rest, watch, i, c.value) && !(last.path == watch && last.result.Written?)
        {
          assert forall k :: i < k < |rest| ==> rest[k] == log[k];
          assert log[|log| - 1] == last;
        }
        assert PublishedLast(log, watch, |log| - 1, c.value) <==>
          last.path == watch && last.content == c.value && (last.renamed || last.result.Written?);
      }
    }
  }

  /** Write `i` put `content` in place, and no later write of the artifact succeeded. */
  ghost predicate PublishedLast(log: seq<Record>, watch: string, i: nat, content: string)
    requires i < |log|
  {
    && log[i].path == watch && log[i].content == content && (log[i].renamed || log[i].result.Written?)
    && forall k :: i < k < |log| ==> !(log[k].path == watch && log[k].result.Written?)
  }

  // ----- The file system

  class FileSystem {
    var disk: Disk

    constructor (disk: Disk)
      ensures this.disk == disk
    {
      this.disk := disk;
    }

    /** Remove the old temporaries beside the artifact, one by one. */
    method RemoveStaleTemporaries(isUuid: UuidSyntax, path: string, ages: map<string, nat>, stuck: set<string>)
      modifies this
      ensures disk == Swept(old(disk), isUuid, path, ages, stuck)
      ensures forall name :: name in old(disk) ==>
        (disk[name] != old(disk)[name] <==> old(disk)[name].now.Some? && IsRemovable(isUuid, path, ages, stuck, name))
    {
      forall name | name in disk
        ensures Swept(disk, isUuid, path, ages, stuck)[name] != disk[name] <==>
          disk[name].now.Some? && IsRemovable(isUuid, path, ages, stuck, name)
      {
        SweptExactly(disk, isUuid, path, ages, stuck, name);
      }
      var left := disk.Keys;
      while left != {}
        invariant left <= disk.Keys == old(disk).Keys
        invariant forall name :: name in left ==> disk[name] == old(disk)[name]
        invariant forall name :: name in disk && name !in left ==>
          disk[name] == Swept(old(disk), isUuid, path, ages, stuck)[name]
        decreases left
      {
        var name :| name in left;
        left := left - {name};
        if disk[name].now.Some? && IsTemporaryOf(isUuid, name, path) && Stale(ages, name) && name !in stuck {
          disk := disk[name := Entry(None, disk[name].durable, disk[name].pending + [None])];
        }
      }
    }

    method Interrupt(outcome: Outcome) returns (r: WriteResult)
      modifies this
      ensures forall renamed :: Status(disk, r, renamed) == Stopped(old(disk), outcome, renamed)
    {
      r := Failed;
      if outcome.PowerFails? {
        disk := Crash(disk, outcome.loss);
        r := Crashed;
      }
    }

    method Publish(path: string, temporary: string, content: string, course: Course)
      returns (r: WriteResult, renamed: bool)
      modifies this
      ensures Status(disk, r, renamed) == Published(old(disk), path, temporary, content, course)
    {
      hide Crash, Put, Get, FlushDirectory;
      renamed := false;
      if !course.open.Done? || Get(disk, temporary).now.Some? {
        r := Interrupt(if course.open.Done? then Fails else course.open);
        return;
      }
      disk := Put(disk, temporary, Some(File("", false)));
      if !course.write.Done? {
        disk := Put(disk, temporary, Some(File(Partial(content, course.written), false)));
        r := Interrupt(course.write);
        return;
      }
      disk := Put(disk, temporary, Some(File(content, false)));
      if !course.sync.Done? {
        r := Interrupt(course.sync);
        return;
      }
      disk := Put(disk, temporary, Some(File(content, true)));
      if !course.restrict.Done? {
        r := Interrupt(course.restrict);
        return;
      }
      if !course.rename.Done? {
        r := Interrupt(course.rename);
        return;
      }
      if temporary != path {
        disk := Put(Put(disk, path, Get(disk, temporary).now), temporary, None);
      }
      renamed := true;
      if !course.restrictFinal.Done? {
        r := Interrupt(course.restrictFinal);
        return;
      }
      if !course.flush.Done? {
        r := Interrupt(course.flush);
        return;
      }
      disk := FlushDirectory(disk);
      r := Written;
    }

    method CleanUp(temporary: string, r: WriteResult, renamed: bool, cleanup: Outcome) returns (final: WriteResult)
      modifies this
      ensures Status(disk, final, renamed) == CleanedUp(Status(old(disk), r, renamed), temporary, cleanup)
    {
      final := r;
      if r.Failed? && Get(disk, temporary).now.Some? {
        match cleanup
        case Done => disk := Put(disk, temporary, None);
        case Fails => final := FailedAndLeft;
        case PowerFails(loss) =>
          disk := Crash(disk, loss);
          final := Crashed;
      }
    }

    /**
     Write an artifact.  Whatever step fails or loses power, every artifact whose name does
     not look like a temporary is left complete: an old acceptable content, or the new one
     once its rename was reached.  Without a power loss the temporary is gone, or the
     result says that it could not be removed.
     */
    method WritePrivateAtomic(isUuid: UuidSyntax, job: Job) returns (r: WriteResult, renamed: bool)
      requires isUuid(job.uuid)
      modifies this
      ensures Status(disk, r, renamed) == Write(old(disk), isUuid, job)
      ensures r.Written? <==> IsFresh(old(disk), isUuid, job) && GoesWell(job.course)
      ensures renamed <==> IsFresh(old(disk), isUuid, job) && ReachesRename(job.course)
      ensures r.Crashed? ==> LosesPower(job.course)
      ensures r.FailedAndLeft? ==> job.course.cleanup.Fails? && Get(disk, Temporary(job)).now.Some?
      ensures !renamed && !r.Crashed? && !LooksTemporary(isUuid, job.path) ==>
        Get(disk, job.path) == Get(old(disk), job.path)
      ensures r.Written? && !LooksTemporary(isUuid, job.path) ==>
        Get(disk, job.path).now == Some(File(job.content, true))
      ensures !LooksTemporary(isUuid, job.path) && job.course.admitted && job.path != "" ==>
        r.Written? || r.Failed? ==> Get(disk, Temporary(job)).now == None
      ensures forall watch, good :: !LooksTemporary(isUuid, watch) && Safe(old(disk), watch, good) ==>
        Safe(disk, watch, GoodAfter(good, watch, Record(job.path, job.content, r, renamed)))
    {
      hide Safe, LooksTemporary, Published, CleanedUp, Swept, IsFresh, IsRemovable;
      WriteKeepsAllSafe(disk, isUuid, job);
      WriteExactly(disk, isUuid, job);
      WriteEnds(disk, isUuid, job);
      if job.path == "" || !job.course.admitted {
        return Failed, false;
      }
      var temporary := Stem(job.path) + TEMPORARY_MARKER + job.uuid;
      RemoveStaleTemporaries(isUuid, job.path, job.ages, job.stuck);
      r, renamed := Publish(job.path, temporary, job.content, job.course);
      r := CleanUp(temporary, r, renamed, job.course.cleanup);
    }

    /**
     Any history of writes and power losses in one directory: at every end of it the
     artifact shows, and would show after one more power loss, the content of its last
     successful write or of a later write that reached its rename; never a partial one.
     */
    method RunHistory(isUuid: UuidSyntax, events: seq<Incident>) returns (log: seq<Record>)
      requires IsNamed(isUuid, events)
      modifies this
      ensures (disk, log) == History(old(disk), isUuid, events)
      ensures forall watch, good :: !LooksTemporary(isUuid, watch) && Safe(old(disk), watch, good) ==>
        Safe(disk, watch, GoodAfterAll(good, watch, log))
    {
      hide Safe, LooksTemporary, Write, Crash;
      log := [];
      for i := 0 to |events|
        invariant (disk, log) == History(old(disk), isUuid, events[..i])
      {
        assert events[..i + 1][..i] == events[..i];
        match events[i] {
          case Loss(loss) => disk := Crash(disk, loss);
          case Publication(job) =>
            assert events[i] in events;
            var r, renamed := WritePrivateAtomic(isUuid, job);
            log := log + [Record(job.path, job.content, r, renamed)];
        }
      }
      assert events[..|events|] == events;
      HistoryKeepsAllSafe(old(disk), isUuid, events);
    }
  }
}
