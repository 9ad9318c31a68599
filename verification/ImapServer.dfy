/**
 The environment of a verification scan: IMAP folders that other clients may
 change between any two commands.  A folder obeys the UID and UIDVALIDITY rules
 of section 2.3.1.1 of RFC 3501 and the mod-sequence rules of sections 3.1.2.1
 and 3.1.2.2 of RFC 7162, and its mod-sequence counts flag changes also while it is
 not advertised; nothing else is assumed about it.  A FETCH record may lack items,
 except in folders marked as thorough.  Both mail servers of a migration live in one
 world, so a command sent to one of them also lets time pass on the other.
 */
module ImapServer {
  import opened Collections

  const MAX_UID: nat := 0xFFFF_FFFF

  datatype Side = Source | Destination

  /** One mailbox name on one of the two servers. */
  datatype Place = Place(side: Side, mailbox: string)

  /** What a UID fixes for ever: everything FETCH reports except the flags.  A message without
      any of the requested headers has no identifier. */
  datatype Metadata = Metadata(messageId: Option<string>, internalDate: string, sizeBytes: nat)

  type Flags = set<string>

  datatype Message = Message(meta: Metadata, flags: Flags)

  /** `modseq` counts flag changes whether or not the server advertises it; `tracked`
      says that it answers HIGHESTMODSEQ rather than NOMODSEQ.  A `thorough` folder's FETCH
      reports every item it is asked for, as section 7.4.2 of RFC 3501 has it. */
  datatype Folder = Folder(
    listed: bool, uidvalidity: nat, uidnext: nat,
    uids: seq<nat>, messages: map<nat, Message>,
    modseq: nat, tracked: bool, thorough: bool)

  const ABSENT := Folder(false, 0, 1, [], map[], 0, false, true)

  ghost predicate ValidFolder(f: Folder) {
    && 1 <= f.uidnext <= MAX_UID + 1
    && StrictlyIncreasing(f.uids)
    && (forall u :: u in f.uids ==> 1 <= u < f.uidnext)
    && (forall u :: u in f.uids <==> u in f.messages)
  }

  /** UIDs are distinct and positive, so a folder cannot hold more messages than UIDs. */
  lemma ExistsIsBounded(f: Folder)
    requires ValidFolder(f)
    ensures |f.uids| <= MAX_UID
  {
    if f.uids != [] {
      assert f.uids[0] in f.uids;
      var i := 0;
      while i + 1 < |f.uids|
        invariant 0 <= i < |f.uids| && i < f.uids[i]
      {
        i := i + 1;
      }
      assert f.uids[i] in f.uids;
    }
  }

  /** `b` is a state that a folder in state `a` may reach. */
  predicate Evolves(a: Folder, b: Folder) {
    && a.uidvalidity <= b.uidvalidity
    && (a.uidvalidity == b.uidvalidity ==>
          && a.uidnext <= b.uidnext
          && a.modseq <= b.modseq
          && a.thorough == b.thorough
          && forall u :: u in b.messages ==> a.uidnext <= u || Kept(a, b, u))
  }

  /** Message `u` is the one that `a` already held, with the same flags unless the
      mod-sequence moved. */
  predicate Kept(a: Folder, b: Folder, u: nat)
    requires u in b.messages
  {
    && u in a.messages
    && a.messages[u].meta == b.messages[u].meta
    && (a.modseq == b.modseq ==> a.messages[u].flags == b.messages[u].flags)
  }

  lemma EvolvesReflexive(f: Folder)
    ensures Evolves(f, f)
  {
  }

  lemma EvolvesTransitive(a: Folder, b: Folder, c: Folder)
    requires ValidFolder(a) && ValidFolder(b) && ValidFolder(c)
    requires Evolves(a, b) && Evolves(b, c)
    ensures Evolves(a, c)
  {
    if a.uidvalidity == c.uidvalidity {
      forall u | u in c.messages ensures a.uidnext <= u || Kept(a, c, u) {
        if !(b.uidnext <= u) {
          assert Kept(b, c, u);
        }
      }
    }
  }

  /** Equal UIDVALIDITY, UIDNEXT and EXISTS. */
  ghost predicate SameCursor(a: Folder, c: Folder) {
    a.uidvalidity == c.uidvalidity && a.uidnext == c.uidnext && |a.uids| == |c.uids|
  }

  lemma NothingAppended(a: Folder, b: Folder, c: Folder)
    requires ValidFolder(a) && ValidFolder(b) && ValidFolder(c)
    requires Evolves(a, b) && Evolves(b, c) && SameCursor(a, c)
    ensures Elements(c.uids) <= Elements(b.uids) <= Elements(a.uids)
    ensures forall u :: u in c.messages ==> u in b.messages && Kept(b, c, u)
  {
    forall u | u in c.messages ensures u in b.messages && Kept(b, c, u) {
      assert u in c.uids;
    }
    forall u | u in c.uids ensures u in b.uids {
      assert u in c.messages;
    }
    forall u | u in b.uids ensures u in a.uids {
      assert u in b.messages;
    }
  }

  /** A folder that shows the same cursor at two moments did not change its message
      set at any moment in between, and with an equal mod-sequence not even a flag. */
  lemma Sandwich(a: Folder, b: Folder, c: Folder)
    requires ValidFolder(a) && ValidFolder(b) && ValidFolder(c)
    requires Evolves(a, b) && Evolves(b, c) && SameCursor(a, c)
    ensures b.uids == c.uids && a.thorough == b.thorough == c.thorough
    ensures forall u :: u in c.messages ==> u in b.messages && b.messages[u].meta == c.messages[u].meta
    ensures a.modseq == c.modseq ==> b.messages == c.messages
  {
    NothingAppended(a, b, c);
    ShrinkingKeepsAll(a.uids, c.uids);
    assert Elements(b.uids) == Elements(c.uids);
    IncreasingIsUnique(b.uids, c.uids);
    if a.modseq == c.modseq {
      assert b.messages.Keys == c.messages.Keys;
      forall u | u in c.messages ensures b.messages[u] == c.messages[u] {
        assert Kept(b, c, u);
      }
      assert b.messages == c.messages;
    }
  }

  /** What another client, or the server itself, does to one folder. */
  datatype Step =
    | Append(gap: nat, message: Message)
    | Expunge(uid: nat, bump: nat)
    | Store(uid: nat, flags: Flags, bump: nat)
    | Advance(bump: nat)
    | Hide
    | Show
    | Renew(gap: nat, bump: nat)
    | Recreate(raise: nat, firstModseq: nat, thorough: bool)
    | Track(on: bool)

  function Without(s: seq<nat>, u: nat): seq<nat> {
    if s == [] then []
    else if s[0] == u then Without(s[1..], u)
    else [s[0]] + Without(s[1..], u)
  }

  lemma {:induction false} WithoutKeepsOrder(s: seq<nat>, u: nat)
    requires StrictlyIncreasing(s)
    ensures StrictlyIncreasing(Without(s, u))
    ensures forall x :: x in Without(s, u) <==> x in s && x != u
  {
    if s != [] {
      WithoutKeepsOrder(s[1..], u);
      var rest := Without(s[1..], u);
      assert s == [s[0]] + s[1..];
      forall j | 0 <= j < |rest| ensures s[0] < rest[j] {
        assert rest[j] in s[1..];
      }
    }
  }

  /** A step that the folder cannot take leaves it alone. */
  function Apply(f: Folder, step: Step): Folder {
    match step
    case Append(gap, message) =>
      var uid := f.uidnext + gap;
      if !f.listed || uid > MAX_UID then f
      else f.(uids := f.uids + [uid], messages := f.messages[uid := message],
              uidnext := uid + 1, modseq := f.modseq + 1)
    case Expunge(uid, bump) =>
      f.(uids := Without(f.uids, uid), messages := f.messages - {uid}, modseq := f.modseq + bump)
    case Store(uid, flags, bump) =>
      if uid !in f.messages then f
      else f.(messages := f.messages[uid := Message(f.messages[uid].meta, flags)],
              modseq := f.modseq + 1 + bump)
    case Advance(bump) => f.(modseq := f.modseq + bump)
    case Hide => f.(listed := false)
    case Show => f.(listed := true)
    case Renew(gap, bump) =>
      // Created again under the same UIDVALIDITY, with greater UIDs.
      f.(listed := true, uids := [], messages := map[], modseq := f.modseq + bump,
         uidnext := if f.uidnext + gap <= MAX_UID + 1 then f.uidnext + gap else f.uidnext)
    case Recreate(raise, firstModseq, thorough) =>
      Folder(true, f.uidvalidity + 1 + raise, 1, [], map[], firstModseq, f.tracked, thorough)
    case Track(on) => f.(tracked := on)
  }

  lemma AppendKeepsOrder(f: Folder, uid: nat)
    requires ValidFolder(f) && f.uidnext <= uid
    ensures StrictlyIncreasing(f.uids + [uid])
    ensures forall u :: u in f.uids + [uid] <==> u in f.uids || u == uid
  {
    assert forall i :: 0 <= i < |f.uids| ==> f.uids[i] in f.uids;
  }

  lemma ApplyKeepsValid(f: Folder, step: Step)
    requires ValidFolder(f)
    ensures ValidFolder(Apply(f, step))
  {
    match step
    case Append(gap, _) => AppendKeepsOrder(f, f.uidnext + gap);
    case Expunge(uid, _) => WithoutKeepsOrder(f.uids, uid);
    case _ =>
  }

  /** The changes are no fewer than those that the rules allow one by one. */
  lemma AnyChangeCanHappen(f: Folder, uid: nat, message: Message, flags: Flags, n: nat, on: bool)
    requires ValidFolder(f)
    ensures !Apply(f, Hide).listed && Apply(f, Show).listed && Apply(f, Track(on)).tracked == on
    ensures f.listed && f.uidnext <= uid <= MAX_UID ==>
      var g := Apply(f, Append(uid - f.uidnext, message)); g.uids == f.uids + [uid] && g.messages == f.messages[uid := message]
    ensures uid in f.messages ==> Apply(f, Expunge(uid, n)).messages == f.messages - {uid}
    ensures uid in f.messages ==> Apply(f, Store(uid, flags, n)).messages[uid] == Message(f.messages[uid].meta, flags)
    ensures f.modseq <= n ==> Apply(f, Advance(n - f.modseq)) == f.(modseq := n)
    ensures f.uidvalidity < n ==> Apply(f, Recreate(n - f.uidvalidity - 1, 1, on)).uidvalidity == n
  {
  }

  lemma ApplyEvolves(f: Folder, step: Step)
    ensures Evolves(f, Apply(f, step))
  {
    var g := Apply(f, step);
    if f.uidvalidity == g.uidvalidity {
      forall u | u in g.messages ensures f.uidnext <= u || Kept(f, g, u) {}
    }
  }

  type World = map<Place, Folder>

  function At(w: World, p: Place): Folder {
    if p in w then w[p] else ABSENT
  }

  ghost predicate ValidWorld(w: World) {
    forall p {:trigger At(w, p)} :: ValidFolder(At(w, p))
  }

  ghost predicate WorldEvolves(v: World, w: World) {
    forall p {:trigger At(v, p)} {:trigger At(w, p)} :: Evolves(At(v, p), At(w, p))
  }

  lemma WorldEvolvesReflexive(w: World)
    ensures WorldEvolves(w, w)
  {
  }

  lemma WorldEvolvesTransitive(u: World, v: World, w: World)
    requires ValidWorld(u) && ValidWorld(v) && ValidWorld(w)
    requires WorldEvolves(u, v) && WorldEvolves(v, w)
    ensures WorldEvolves(u, w)
  {
    forall p ensures Evolves(At(u, p), At(w, p)) {
      EvolvesTransitive(At(u, p), At(v, p), At(w, p));
    }
  }

  datatype Event = Event(place: Place, step: Step)

  function Change(w: World, e: Event): World {
    w[e.place := Apply(At(w, e.place), e.step)]
  }

  function Happen(w: World, events: seq<Event>): World
    decreases |events|
  {
    if events == [] then w else Happen(Change(w, events[0]), events[1..])
  }

  /** Every batch of changes by other clients is a lawful evolution of the world. */
  lemma {:induction false} HappenEvolves(w: World, events: seq<Event>)
    requires ValidWorld(w)
    ensures ValidWorld(Happen(w, events)) && WorldEvolves(w, Happen(w, events))
    decreases |events|
  {
    if events != [] {
      var e, next := events[0], Change(w, events[0]);
      ApplyKeepsValid(At(w, e.place), e.step);
      ApplyEvolves(At(w, e.place), e.step);
      forall p ensures ValidFolder(At(next, p)) && Evolves(At(w, p), At(next, p)) {
        assert ValidFolder(At(w, p));
      }
      HappenEvolves(next, events[1..]);
      WorldEvolvesTransitive(w, next, Happen(w, events));
    }
  }

  /** All worlds of a run in which these events happen one by one. */
  function Worlds(w: World, events: seq<Event>): (past: seq<World>)
    ensures |past| == |events| + 1 && past[0] == w
    decreases |events|
  {
    if events == [] then [w] else [w] + Worlds(Change(w, events[0]), events[1..])
  }

  /** Every world of a run is valid and evolves into all later ones. */
  ghost predicate Lawful(past: seq<World>) {
    && (forall i {:trigger ValidWorld(past[i])} :: 0 <= i < |past| ==> ValidWorld(past[i]))
    && (forall i, j {:trigger WorldEvolves(past[i], past[j])} :: 0 <= i <= j < |past| ==> WorldEvolves(past[i], past[j]))
  }

  lemma RunEvolves(past: seq<World>, from: nat, until: nat)
    requires Lawful(past) && from <= until < |past|
    ensures ValidWorld(past[from]) && ValidWorld(past[until]) && WorldEvolves(past[from], past[until])
  {
  }

  lemma {:induction false} WorldsAreLawful(w: World, events: seq<Event>)
    requires ValidWorld(w)
    ensures Lawful(Worlds(w, events))
    decreases |events|
  {
    hide ValidWorld, WorldEvolves, Change;
    var past := Worlds(w, events);
    WorldEvolvesReflexive(w);
    if events != [] {
      var next := Change(w, events[0]);
      assert next == Happen(w, events[..1]);
      HappenEvolves(w, events[..1]);
      WorldsAreLawful(next, events[1..]);
      forall j | 0 < j < |past| ensures WorldEvolves(w, past[j]) {
        assert past[j] == past[1..][j - 1];
        WorldEvolvesTransitive(w, next, past[j]);
      }
    }
  }

  /** After the first events the run is where these events lead. */
  lemma {:induction false} WorldsGoOn(w: World, first: seq<Event>, rest: seq<Event>)
    ensures Worlds(w, first + rest)[|first|..] == Worlds(Happen(w, first), rest)
    decreases |first|
  {
    hide Change;
    if first == [] {
      assert first + rest == rest;
    } else {
      WorldsGoOn(Change(w, first[0]), first[1..], rest);
      assert (first + rest)[1..] == first[1..] + rest;
    }
  }

  lemma RunGoesOn(past: seq<World>, now: nat, w: World, events: seq<Event>, rest: seq<Event>)
    requires now < |past| && past[now..] == Worlds(w, events + rest)
    ensures var next, later := Happen(w, events), now + |events|;
      && later < |past| && past[later] == next && past[later..] == Worlds(next, rest)
      && (events == [] ==> next == w)
  {
    WorldsGoOn(w, events, rest);
    assert past[now + |events|..] == past[now..][|events|..];
  }

  /** The SELECT or EXAMINE data that a scan compares. */
  datatype Modseq = Highest(value: nat) | NoModseq | Missing
  datatype SelectReply = SelectReply(
    exists_: nat, uidvalidity: Option<nat>, uidnext: Option<nat>, modseq: Modseq)

  /** The items of a FETCH record; the parser lets each of them be absent. */
  datatype Items = Items(
    messageId: Option<string>, internalDate: Option<string>, sizeBytes: Option<nat>, flags: Option<Flags>)

  /** Everything there is to report of a message. */
  function AllItems(message: Message): Items {
    Items(message.meta.messageId, Some(message.meta.internalDate), Some(message.meta.sizeBytes), Some(message.flags))
  }

  /** Every item that `x` has is as in `y`. */
  predicate IsPart(x: Items, y: Items) {
    && (x.messageId.Some? ==> x.messageId == y.messageId)
    && (x.internalDate.Some? ==> x.internalDate == y.internalDate)
    && (x.sizeBytes.Some? ==> x.sizeBytes == y.sizeBytes)
    && (x.flags.Some? ==> x.flags == y.flags)
  }

  /** Both records report the same items. */
  predicate SameItems(x: Items, y: Items) {
    && (x.messageId.Some? <==> y.messageId.Some?)
    && (x.internalDate.Some? <==> y.internalDate.Some?)
    && (x.sizeBytes.Some? <==> y.sizeBytes.Some?)
    && (x.flags.Some? <==> y.flags.Some?)
  }

  /** The items that a record leaves out, by UID. */
  datatype Gaps = Gaps(messageId: set<nat>, internalDate: set<nat>, sizeBytes: set<nat>, flags: set<nat>)

  const NO_GAPS := Gaps({}, {}, {}, {})

  function Report(message: Message, uid: nat, gaps: Gaps, withFlags: bool): (x: Items)
    ensures IsPart(x, AllItems(message))
  {
    Items(
      if uid in gaps.messageId then None else message.meta.messageId,
      if uid in gaps.internalDate then None else Some(message.meta.internalDate),
      if uid in gaps.sizeBytes then None else Some(message.meta.sizeBytes),
      if uid in gaps.flags || !withFlags then None else Some(message.flags))
  }

  datatype Descriptor = Descriptor(wireName: string, selectable: bool)

  function SelectableNames(ds: seq<Descriptor>): seq<string> {
    if ds == [] then []
    else if ds[0].selectable then [ds[0].wireName] + SelectableNames(ds[1..])
    else SelectableNames(ds[1..])
  }

  lemma {:induction false} SelectableNamesAppend(ds: seq<Descriptor>, d: Descriptor)
    ensures SelectableNames(ds + [d]) == SelectableNames(ds) + (if d.selectable then [d.wireName] else [])
  {
    if ds != [] {
      SelectableNamesAppend(ds[1..], d);
      assert (ds + [d])[1..] == ds[1..] + [d];
    }
  }

  datatype ListReply = ListReply(descriptors: seq<Descriptor>, mailboxCount: nat, selectableCount: nat)

  /** The selectable folders of one side. */
  function Listed(w: World, side: Side): set<string> {
    set p | p in w && p.side == side && w[p].listed :: p.mailbox
  }

  datatype Answer<+T> = Reply(value: T) | Refused(code: nat) | Killed

  datatype Outcome = Answered | Failed(code: nat) | Kill

  /** What happens around one command: the changes by others just before it, whether it
      is answered, what the session is told of the changes, and how the reply is shaped. */
  datatype Moment = Moment(
    events: seq<Event>, outcome: Outcome, glimpse: Option<World>,
    hideUidvalidity: bool, hideUidnext: bool, hideModseq: bool,
    omit: set<nat>, gaps: Gaps, unsolicitedFlags: bool, responseBytes: nat,
    unreadable: set<string>, containers: seq<string>, condstore: bool)

  /** Everything that others do, in order. */
  function AllEvents(script: seq<Moment>): seq<Event> {
    if script == [] then [] else script[0].events + AllEvents(script[1..])
  }

  /** From this moment on the run is what the script makes of the world. */
  ghost predicate Foretells(past: seq<World>, now: nat, script: seq<Moment>) {
    now < |past| && past[now..] == Worlds(past[now], AllEvents(script))
  }

  function Quiet(advertises: bool): Moment {
    Moment([], Answered, None, false, false, false, {}, NO_GAPS, false, 0, {}, [], advertises)
  }

  /** Nobody changes anything, the command is answered, and the reply omits nothing. */
  predicate IsCalm(m: Moment, advertises: bool) {
    && m.events == [] && m.outcome.Answered? && m.glimpse.None?
    && !m.hideUidvalidity && !m.hideUidnext && !m.hideModseq
    && m.omit == {} && m.unreadable == {} && m.condstore == advertises
  }

  ghost predicate Calm(script: seq<Moment>, advertises: bool) {
    forall i :: 0 <= i < |script| ==> IsCalm(script[i], advertises)
  }

  // ----- What a session is told

  predicate IsFolder(f: Folder) {
    && 1 <= f.uidnext <= MAX_UID + 1
    && (forall i, j :: 0 <= i < j < |f.uids| ==> f.uids[i] < f.uids[j])
    && (forall u :: u in f.uids ==> 1 <= u < f.uidnext)
    && Elements(f.uids) == f.messages.Keys
  }

  /** Some of the changes between the session's view and the world, in any lawful selection. */
  predicate IsGlimpse(view: World, glimpse: World, world: World) {
    forall p :: p in view.Keys + glimpse.Keys + world.Keys ==>
      && IsFolder(At(glimpse, p))
      && Evolves(At(view, p), At(glimpse, p)) && Evolves(At(glimpse, p), At(world, p))
  }

  lemma GlimpseIsLawful(view: World, glimpse: World, world: World)
    requires IsGlimpse(view, glimpse, world)
    ensures ValidWorld(glimpse) && WorldEvolves(view, glimpse) && WorldEvolves(glimpse, world)
  {
    hide Evolves;
    EvolvesReflexive(ABSENT);
    forall p ensures ValidFolder(At(glimpse, p)) {
      var f := At(glimpse, p);
      if p in view.Keys + glimpse.Keys + world.Keys {
        forall u ensures u in f.uids <==> u in f.messages {
          assert u in Elements(f.uids) <==> u in f.messages.Keys;
        }
      }
    }
    forall p ensures Evolves(At(view, p), At(glimpse, p)) && Evolves(At(glimpse, p), At(world, p)) {
      if p !in view.Keys + glimpse.Keys + world.Keys {
        assert At(view, p) == At(glimpse, p) == At(world, p) == ABSENT;
      }
    }
  }

  /** Folders whose names cannot be read are counted but not described. */
  method Describe(names: set<string>, unreadable: set<string>, containers: seq<string>)
    returns (r: ListReply)
    ensures Elements(SelectableNames(r.descriptors)) <= names
    ensures r.selectableCount == |SelectableNames(r.descriptors)| <==> names !! unreadable
    ensures names !! unreadable ==> Elements(SelectableNames(r.descriptors)) == names
    ensures SelectableNames(r.descriptors) != [] ==> r.mailboxCount > 0
    ensures r.mailboxCount >= |containers|
  {
    var ds: seq<Descriptor> := [];
    for i := 0 to |containers|
      invariant SelectableNames(ds) == [] && |ds| == i
    {
      SelectableNamesAppend(ds, Descriptor(containers[i], false));
      ds := ds + [Descriptor(containers[i], false)];
    }
    var left, hidden := names, 0;
    while left != {}
      invariant left <= names
      invariant Elements(SelectableNames(ds)) <= names - left
      invariant hidden == 0 ==> Elements(SelectableNames(ds)) == names - left
      invariant hidden == 0 <==> names - left !! unreadable
      invariant |ds| >= |containers|
    {
      var name :| name in left;
      assert names - (left - {name}) == names - left + {name};
      left := left - {name};
      if name in unreadable {
        hidden := hidden + 1;
      } else {
        SelectableNamesAppend(ds, Descriptor(name, true));
        assert Elements(SelectableNames(ds) + [name]) == Elements(SelectableNames(ds)) + {name};
        ds := ds + [Descriptor(name, true)];
      }
    }
    assert names - left == names;
    r := ListReply(ds, |ds| + hidden, |SelectableNames(ds)| + hidden);
  }

  /** How the scan of a folder ended. */
  datatype End = WentWell | FoundChanged | LostSession | WentWrong

  /** A scan that has ended, and whether nothing could disturb it when it began. */
  datatype Scan = Scan(end: End, undisturbed: bool)

  /** What a client has done so far: sessions opened and whether the last of them advertised CONDSTORE, SELECT and
      EXAMINE commands, folder scans, sequence numbers listed, UIDs fetched, bytes of FETCH replies, and commands and
      checks that were refused. */
  datatype Work = Work(
    connects: nat, session: bool, selects: nat, scans: seq<Scan>, listed: nat, fetched: nat, received: nat, refused: nat)

  const IDLE := Work(0, false, 0, [], 0, 0, 0, 0)

  /** The work with one command more, answered or refused. */
  function With(work: Work, answered: bool): Work {
    if answered then work else work.(refused := work.refused + 1)
  }

  /** No session and no finished scan, and so many SELECT commands at most. */
  ghost predicate Busy(before: Work, after: Work, selects: nat) {
    && after.connects == before.connects && after.session == before.session && after.scans == before.scans
    && before.selects <= after.selects <= before.selects + selects
  }

  /** Exactly so many positions were listed and messages fetched, and no command or check was refused. */
  ghost predicate Gains(before: Work, after: Work, listed: int, fetched: int) {
    && after.listed == before.listed + listed && after.fetched == before.fetched + fetched
    && after.refused == before.refused
  }

  ghost predicate Costs(before: Work, after: Work, n: int) { Gains(before, after, n, n) }

  /** One FETCH of so many messages, with a reply of so many bytes. */
  ghost predicate Asks(before: Work, after: Work, messages: nat, bytes: nat, answered: bool) {
    after == With(before.(fetched := before.fetched + messages, received := before.received + bytes), answered)
  }

  /** Nothing but FETCH of so many messages, with replies of so many bytes. */
  ghost predicate Fetches(before: Work, after: Work, messages: nat, bytes: nat) {
    after == before.(fetched := before.fetched + messages, received := before.received + bytes)
  }

  /** Exactly so many sessions and scans, with at most two SELECT commands for each scan. */
  ghost predicate Spent(before: Work, after: Work, connects: int, scans: int) {
    && after.connects == before.connects + connects
    && before.scans <= after.scans && |after.scans| == |before.scans| + scans
    && before.selects <= after.selects <= before.selects + 2 * scans
  }

  /**
   Both servers, driven by an arbitrary script with one moment per command, so that
   a statement about every script is a statement about every interleaving.
   FETCH is answered from the session's view, which lags behind the world: the server
   reports changes when it likes, and any selection of them, such as new messages but no
   expunged ones.  SELECT and EXAMINE always see the world itself.  The ghost chronicle names
   every world of the run, so that contracts can say at which moment something held.
   */
  class Server {
    var world: World
    var view: World
    var script: seq<Moment>
    /** Whether sessions advertise CONDSTORE once the script is over. */
    const advertises: bool
    /** Every world of the run, also those between two changes that precede one command. */
    ghost const chronicle: seq<World>
    /** The moment of the run that has been reached: the world is `chronicle[now]`. */
    ghost var now: nat
    ghost var work: Work

    ghost predicate Valid() reads this {
      && ValidWorld(world) && ValidWorld(view) && WorldEvolves(view, world)
      && now < |chronicle| && world == chronicle[now]
      && Lawful(chronicle) && Foretells(chronicle, now, script)
    }

    /** Time moves on, and in calm weather it leaves no trace. */
    twostate predicate TimeMoves() reads this {
      && old(now) <= now
      && (Calm(old(script), advertises) ==>
            && Calm(script, advertises) && world == old(world) && now == old(now)
            && (old(view) == old(world) ==> view == world))
    }

    /** The same without any work of the client. */
    twostate predicate MovesOn() reads this {
      TimeMoves() && work == old(work)
    }

    constructor (world: World, script: seq<Moment>, advertises: bool)
      requires ValidWorld(world)
      ensures Valid() && this.world == this.view == world && this.script == script && this.advertises == advertises
      ensures chronicle == Worlds(world, AllEvents(script)) && now == 0 && work == IDLE
    {
      WorldsAreLawful(world, AllEvents(script));
      WorldEvolvesReflexive(world);
      this.advertises := advertises;
      this.world := world;
      this.view := world;
      this.script := script;
      chronicle := Worlds(world, AllEvents(script));
      now := 0;
      work := IDLE;
    }

    /** How the next command ends, if the server gets as far as answering it. */
    ghost function NextOutcome(): Outcome reads this {
      if script == [] then Answered else script[0].outcome
    }

    method Tick() returns (m: Moment)
      requires Valid()
      modifies this
      ensures Valid()
      ensures WorldEvolves(old(world), world) && WorldEvolves(old(view), view)
      ensures MovesOn() && (Calm(old(script), advertises) ==> IsCalm(m, advertises))
      ensures m == (if old(script) == [] then Quiet(advertises) else old(script)[0])
      ensures script == if old(script) == [] then [] else old(script)[1..]
      ensures world == Happen(old(world), m.events)
      ensures view == if m.glimpse.Some? && IsGlimpse(old(view), m.glimpse.value, world) then m.glimpse.value else old(view)
    {
      hide Worlds, Happen, ValidWorld, WorldEvolves;
      m := Quiet(advertises);
      ghost var rest := AllEvents(script);
      if script != [] {
        m, script := script[0], script[1..];
        rest := AllEvents(script);
      }
      RunGoesOn(chronicle, now, world, m.events, rest);
      HappenEvolves(world, m.events);
      WorldEvolvesReflexive(view);
      WorldEvolvesTransitive(view, world, Happen(world, m.events));
      now := now + |m.events|;
      world := Happen(world, m.events);
      if m.glimpse.Some? && IsGlimpse(view, m.glimpse.value, world) {
        GlimpseIsLawful(view, m.glimpse.value, world);
        view := m.glimpse.value;
      }
    }

    /** The deadline and cancellation check that precedes a command. */
    method Check() returns (r: Answer<()>)
      requires Valid()
      modifies this
      ensures Valid()
      ensures WorldEvolves(old(world), world) && WorldEvolves(old(view), view)
      ensures TimeMoves() && work == With(old(work), r.Reply?)
      ensures (r.Reply? <==> old(NextOutcome()).Answered?) && (r.Killed? <==> old(NextOutcome()).Kill?)
      ensures Calm(old(script), advertises) ==> r.Reply?
    {
      var m := Tick();
      r := match m.outcome case Answered => Reply(()) case Failed(c) => Refused(c) case Kill => Killed;
      work := With(work, r.Reply?);
    }

    method Select(place: Place, condstore: bool) returns (r: Answer<SelectReply>)
      requires Valid()
      modifies this
      ensures Valid()
      ensures WorldEvolves(old(world), world) && WorldEvolves(old(view), view)
      ensures r.Reply? ==> view == world && Shows(At(world, place), condstore, r.value)
      ensures TimeMoves() && work == With(old(work).(selects := old(work.selects) + 1), r.Reply?)
      ensures Calm(old(script), advertises) && At(world, place).listed ==> r.Reply? && IsFull(r.value, condstore)
    {
      hide Lawful, Foretells, Calm;
      var m := Tick();
      work := With(work.(selects := work.selects + 1), m.outcome.Answered? && At(world, place).listed);
      match m.outcome
      case Failed(c) => r := Refused(c);
      case Kill => r := Killed;
      case Answered =>
        var f := At(world, place);
        if !f.listed {
          return Refused(0);
        }
        WorldEvolvesTransitive(old(view), view, world);
        WorldEvolvesReflexive(world);
        view := world;
        r := Reply(SelectReply(
          |f.uids|,
          if m.hideUidvalidity then None else Some(f.uidvalidity),
          if m.hideUidnext then None else Some(f.uidnext),
          if m.hideModseq || !condstore then Missing
          else if f.tracked then Highest(f.modseq) else NoModseq));
    }

    /** Sequence-number FETCH, parsed: one UID for each requested sequence number. */
    method FetchUids(place: Place, first: nat, last: nat) returns (r: Answer<seq<nat>>)
      requires Valid()
      requires 1 <= first <= last
      modifies this
      ensures Valid()
      ensures WorldEvolves(old(world), world) && WorldEvolves(old(view), view)
      ensures r.Reply? ==> last <= |At(view, place).uids| && r.value == At(view, place).uids[first - 1..last]
      ensures TimeMoves() && work == With(old(work).(listed := old(work.listed) + (last + 1 - first)), r.Reply?)
      ensures Calm(old(script), advertises) && last <= |At(view, place).uids| ==> r.Reply?
    {
      hide Lawful, Foretells, Evolves, Calm;
      var m := Tick();
      work := With(work.(listed := work.listed + (last + 1 - first)),
                   m.outcome.Answered? && last <= |At(view, place).uids|);
      match m.outcome
      case Failed(c) => r := Refused(c);
      case Kill => r := Killed;
      case Answered =>
        var uids := At(view, place).uids;
        r := if last <= |uids| then Reply(uids[first - 1..last]) else Refused(0);
    }

    /** UID FETCH of a set of UIDs, parsed. */
    method FetchMetadata(place: Place, requested: set<nat>, wantFlags: bool)
      returns (r: Answer<map<nat, Items>>, responseBytes: nat)
      requires Valid()
      modifies this
      ensures Valid()
      ensures WorldEvolves(old(world), world) && WorldEvolves(old(view), view)
      ensures r.Reply? ==> forall u :: u in r.value ==>
        && u in requested && u in At(view, place).messages
        && IsPart(r.value[u], AllItems(At(view, place).messages[u]))
        && (At(view, place).thorough ==>
              r.value[u] == AllItems(At(view, place).messages[u]).(flags := r.value[u].flags)
              && (wantFlags ==> r.value[u].flags.Some?))
      ensures TimeMoves()
      ensures Asks(old(work), work, |requested|, responseBytes, r.Reply?)
      ensures Calm(old(script), advertises) ==> r.Reply? && r.value.Keys == requested * At(view, place).messages.Keys
    {
      hide Lawful, Foretells, Evolves, ValidFolder, Calm;
      var m := Tick();
      responseBytes := m.responseBytes;
      work := With(work.(fetched := work.fetched + |requested|, received := work.received + responseBytes),
                   m.outcome.Answered?);
      match m.outcome
      case Failed(c) => r := Refused(c);
      case Kill => r := Killed;
      case Answered =>
        var messages := At(view, place).messages;
        var gaps := if At(view, place).thorough then NO_GAPS else m.gaps;
        r := Reply(map u | u in messages && u in requested && u !in m.omit ::
          Report(messages[u], u, gaps, wantFlags || m.unsolicitedFlags));
    }

    method List(side: Side) returns (r: Answer<ListReply>)
      requires Valid()
      modifies this
      ensures Valid()
      ensures WorldEvolves(old(world), world) && WorldEvolves(old(view), view)
      ensures r.Reply? ==>
        var names := SelectableNames(r.value.descriptors);
        && Elements(names) <= Listed(world, side)
        && (r.value.selectableCount == |names| ==> Elements(names) == Listed(world, side))
      ensures TimeMoves() && work == With(old(work), r.Reply?)
      ensures r.Reply? && SelectableNames(r.value.descriptors) != [] ==> r.value.mailboxCount > 0
      ensures Calm(old(script), advertises) ==>
        r.Reply? && r.value.selectableCount == |SelectableNames(r.value.descriptors)|
    {
      var m := Tick();
      work := With(work, m.outcome.Answered?);
      match m.outcome
      case Failed(c) => r := Refused(c);
      case Kill => r := Killed;
      case Answered =>
        var reply := Describe(Listed(world, side), m.unreadable, m.containers);
        r := Reply(reply);
    }

    /** A new authenticated session; the reply says whether it advertises CONDSTORE. */
    method Connect() returns (r: Answer<bool>)
      requires Valid()
      modifies this
      ensures Valid()
      ensures WorldEvolves(old(world), world) && WorldEvolves(old(view), view)
      ensures TimeMoves()
      ensures work == With(
        old(work).(connects := old(work.connects) + 1, session := if r.Reply? then r.value else old(work.session)), r.Reply?)
      ensures Calm(old(script), advertises) ==> r == Reply(advertises)
    {
      var m := Tick();
      r := match m.outcome case Answered => Reply(m.condstore) case Failed(c) => Refused(c) case Kill => Killed;
      work := With(
        work.(connects := work.connects + 1, session := if r.Reply? then r.value else work.session), r.Reply?);
    }

    /** A scan of a folder has ended. */
    ghost method EndScan(scan: Scan)
      requires Valid()
      modifies this`work
      ensures Valid() && work == old(work).(scans := old(work.scans) + [scan])
    {
      work := work.(scans := work.scans + [scan]);
    }
  }

  predicate IsFull(reply: SelectReply, condstore: bool) {
    reply.uidvalidity.Some? && reply.uidnext.Some? && (condstore ==> !reply.modseq.Missing?)
  }

  /** `reply` is what SELECT reports for `f`; any item may be missing from it. */
  ghost predicate Shows(f: Folder, condstore: bool, reply: SelectReply) {
    && f.listed
    && reply.exists_ == |f.uids|
    && (reply.uidvalidity.Some? ==> reply.uidvalidity.value == f.uidvalidity)
    && (reply.uidnext.Some? ==> reply.uidnext.value == f.uidnext)
    && match reply.modseq
       case Highest(value) => condstore && f.tracked && value == f.modseq
       case NoModseq => condstore && !f.tracked
       case Missing => true
  }
}
