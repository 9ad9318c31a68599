/** Bounded UID FETCH pages: the adaptive planner and the compact UID-set encoder. */
module UidPages {
  import opened Collections
  import opened Decimal

  const MAX_UID_SET_BYTES := 7_000
  const MESSAGE_FETCH_PAGE_SIZE := 128
  const METADATA_RESPONSE_TARGET := 1024 * 1024
  const MESSAGE_UID_ENUMERATION_PAGE_SIZE := 512

  datatype Planner = Planner(size: nat, least: nat, most: nat, targetBytes: nat)

  const METADATA_PLANNER := Planner(MESSAGE_FETCH_PAGE_SIZE, 32, 1024, METADATA_RESPONSE_TARGET)

  /** The next page size: at most double, immediately smaller, always within bounds. */
  function Observe(p: Planner, messages: nat, responseBytes: nat): (q: Planner)
    requires p.least <= p.most
    ensures q.least == p.least && q.most == p.most && q.targetBytes == p.targetBytes
    ensures messages > 0 ==> q.least <= q.size <= q.most
    ensures p.least <= p.size ==> q.size <= 2 * p.size
  {
    if messages == 0 then p
    else
      var average := responseBytes / messages;
      var perMessage := if average == 0 then 1 else average;
      var ideal := p.targetBytes / perMessage;
      var capped := if ideal <= 2 * p.size then ideal else 2 * p.size;
      p.(size := if capped < p.least then p.least else if capped > p.most then p.most else capped)
  }

  function PerMessage(messages: nat, responseBytes: nat): (bytes: nat)
    requires messages > 0
    ensures bytes >= 1
  {
    var average := responseBytes / messages;
    if average == 0 then 1 else average
  }

  /**
   The next page aims at the target: if its messages were as large as those of the last one, it would stay
   within the target unless it is as small as allowed, and a larger one would not unless it is as large as allowed.
   */
  lemma ObserveAims(p: Planner, messages: nat, responseBytes: nat)
    requires p.least <= p.most
    ensures messages == 0 ==> Observe(p, messages, responseBytes) == p
    ensures messages > 0 ==>
      var q, bytes := Observe(p, messages, responseBytes), PerMessage(messages, responseBytes);
      && (q.size <= p.least || q.size * bytes <= p.targetBytes)
      && (q.size >= p.most || q.size >= 2 * p.size || (q.size + 1) * bytes > p.targetBytes)
  {
    if messages > 0 {
      var bytes, size := PerMessage(messages, responseBytes), Observe(p, messages, responseBytes).size;
      QuotientIsLargest(p.targetBytes, bytes, size);
    }
  }

  lemma QuotientIsLargest(target: nat, unit: nat, size: nat)
    requires unit > 0
    ensures size <= target / unit ==> size * unit <= target
    ensures size >= target / unit ==> (size + 1) * unit > target
  {
    var q, r := target / unit, target % unit;
    assert target == q * unit + r;
    if size <= q {
      assert size * unit <= q * unit;
    }
    if size >= q {
      assert (size + 1) * unit >= (q + 1) * unit == q * unit + unit;
    }
  }

  // ----- Schedules of pages

  /** A page that was fetched: the size that the planner asked for, its messages, and the bytes of its reply. */
  datatype Page = Page(size: nat, messages: nat, bytes: nat)

  /** The planner after these pages. */
  function Follow(p: Planner, pages: seq<Page>): (q: Planner)
    requires p.least <= p.most
    ensures q.least == p.least && q.most == p.most
  {
    if pages == [] then p
    else
      var last := pages[|pages| - 1];
      Observe(Follow(p, pages[..|pages| - 1]), last.messages, last.bytes)
  }

  function Messages(pages: seq<Page>): nat {
    if pages == [] then 0 else Messages(pages[..|pages| - 1]) + pages[|pages| - 1].messages
  }

  function Bytes(pages: seq<Page>): nat {
    if pages == [] then 0 else Bytes(pages[..|pages| - 1]) + pages[|pages| - 1].bytes
  }

  /** What is left of the current listing after so many messages of `total`. */
  function Room(total: nat, done: nat): int {
    var listing := MESSAGE_UID_ENUMERATION_PAGE_SIZE - done % MESSAGE_UID_ENUMERATION_PAGE_SIZE;
    if total - done <= listing then total - done else listing
  }

  /** Each page is as large as the planner asks after the pages before it, or ends its listing. */
  ghost predicate Scheduled(p: Planner, pages: seq<Page>, total: nat)
    requires p.least <= p.most
  {
    forall i :: 0 <= i < |pages| ==> FitsSchedule(p, pages[..i], pages[i], total)
  }

  predicate FitsSchedule(p: Planner, before: seq<Page>, page: Page, total: nat)
    requires p.least <= p.most
  {
    var limit, room := if page.size == 0 then 1 else page.size, Room(total, Messages(before));
    && page.size == Follow(p, before).size && 0 < room
    && page.messages == if room <= limit then room else limit
  }

  lemma PageJoins(p: Planner, pages: seq<Page>, page: Page, total: nat)
    requires p.least <= p.most && Scheduled(p, pages, total) && FitsSchedule(p, pages, page, total)
    ensures Scheduled(p, pages + [page], total)
    ensures Follow(p, pages + [page]) == Observe(Follow(p, pages), page.messages, page.bytes)
    ensures Messages(pages + [page]) == Messages(pages) + page.messages
    ensures Bytes(pages + [page]) == Bytes(pages) + page.bytes
  {
    hide FitsSchedule;
    assert (pages + [page])[..|pages|] == pages;
    forall i | 0 <= i < |pages + [page]|
      ensures FitsSchedule(p, (pages + [page])[..i], (pages + [page])[i], total)
    {
      assert (pages + [page])[..i] == pages[..i];
      assert i == |pages| ==> pages[..i] == pages;
    }
  }

  /** The pages of the next listing continue the schedule. */
  lemma {:induction false} SchedulesJoin(p: Planner, a: seq<Page>, b: seq<Page>, n: nat, total: nat)
    requires p.least <= p.most && Scheduled(p, a, total) && Scheduled(Follow(p, a), b, n)
    requires Messages(a) % MESSAGE_UID_ENUMERATION_PAGE_SIZE == 0 && n == Room(total, Messages(a))
    ensures Scheduled(p, a + b, total) && Follow(p, a + b) == Follow(Follow(p, a), b)
    ensures Messages(a + b) == Messages(a) + Messages(b) && Bytes(a + b) == Bytes(a) + Bytes(b)
  {
    hide FitsSchedule, Room, Observe;
    if b == [] {
      assert a + b == a;
    } else {
      var rest, last := b[..|b| - 1], b[|b| - 1];
      forall i | 0 <= i < |rest| ensures FitsSchedule(Follow(p, a), rest[..i], rest[i], n) {
        assert rest[..i] == b[..i];
      }
      SchedulesJoin(p, a, rest, n, total);
      FitsLater(p, a, rest, last, n, total);
      PageJoins(p, a + rest, last, total);
      assert a + b == a + rest + [last];
    }
  }

  lemma FitsLater(p: Planner, a: seq<Page>, rest: seq<Page>, page: Page, n: nat, total: nat)
    requires p.least <= p.most && FitsSchedule(Follow(p, a), rest, page, n)
    requires Follow(p, a + rest) == Follow(Follow(p, a), rest) && Messages(a + rest) == Messages(a) + Messages(rest)
    requires Messages(a) % MESSAGE_UID_ENUMERATION_PAGE_SIZE == 0 && n == Room(total, Messages(a))
    ensures FitsSchedule(p, a + rest, page, total)
  {
    hide Follow, Messages;
    RoomOfListing(total, Messages(a), n, Messages(rest));
  }

  lemma RoomOfListing(total: nat, base: nat, n: nat, done: nat)
    requires base % MESSAGE_UID_ENUMERATION_PAGE_SIZE == 0 && n == Room(total, base) && Room(n, done) > 0
    ensures Room(n, done) == Room(total, base + done) == n - done
  {
    var size := MESSAGE_UID_ENUMERATION_PAGE_SIZE;
    assert done < n <= size;
    assert done % size == done;
    assert (base + done) % size == done by {
      assert base + done == size * (base / size) + done;
    }
  }

  // ----- Sequence-number listings

  /** The next sequence number to list, the UIDs accounted for, and the last of them. */
  datatype Progress = Progress(next: nat, count: nat, last: Option<nat>)

  /** A resumed prefix must be non-empty and fit into the folder. */
  function StartListing(exists_: nat, resume: Option<(nat, nat)>): (p: Option<Progress>)
    ensures exists_ <= U64_MAX ==>
      (p.None? <==> resume.Some? && (resume.value.0 == 0 || exists_ < resume.value.0 || resume.value.0 == U64_MAX))
  {
    match resume
    case None => Some(Progress(1, 0, None))
    case Some((count, lastUid)) =>
      if 0 < count <= exists_ && count < U64_MAX then Some(Progress(count + 1, count, Some(lastUid))) else None
  }

  function ListingEnd(p: Progress, exists_: nat): nat {
    var end := SaturatingAdd(p.next, MESSAGE_UID_ENUMERATION_PAGE_SIZE - 1);
    if end <= exists_ then end else exists_
  }

  /** Take a parsed listing, or refuse one whose UIDs do not continue the previous one. */
  function AcceptListing(p: Progress, exists_: nat, uids: seq<nat>): Option<Progress> {
    if p.last.Some? && uids != [] && uids[0] <= p.last.value then None
    else if p.count + |uids| > U64_MAX then None
    else Some(Progress(
      SaturatingAdd(ListingEnd(p, exists_), 1), p.count + |uids|,
      if uids == [] then p.last else Some(uids[|uids| - 1])))
  }

  /** What the parser lets through: one UID per sequence number, ascending, in the UID domain. */
  ghost predicate Parsed(first: nat, last: nat, uids: seq<nat>) {
    && |uids| == last + 1 - first
    && StrictlyIncreasing(uids)
    && forall i :: 0 <= i < |uids| ==> 1 <= uids[i] < 0x1_0000_0000
  }

  /** The run of the listing loop on the parsed replies of any server, honest or not. */
  ghost function RunListing(p: Progress, exists_: nat, replies: seq<seq<nat>>): Option<(Progress, seq<nat>)>
    decreases |replies|
  {
    if p.next > exists_ then Some((p, []))
    else if replies == [] || !Parsed(p.next, ListingEnd(p, exists_), replies[0]) then None
    else match AcceptListing(p, exists_, replies[0])
      case None => None
      case Some(q) =>
        match RunListing(q, exists_, replies[1..])
        case None => None
        case Some((end, more)) => Some((end, replies[0] + more))
  }

  lemma {:induction false} RunListingDelivers(p: Progress, exists_: nat, replies: seq<seq<nat>>)
    requires exists_ <= U64_MAX && 1 <= p.next <= U64_MAX
    requires p.next == p.count + 1 || exists_ == U64_MAX
    requires p.next > exists_ ==> p.next == exists_ + 1
    requires RunListing(p, exists_, replies).Some?
    ensures var (end, delivered) := RunListing(p, exists_, replies).value;
      && StrictlyIncreasing(delivered)
      && (p.last.Some? ==> forall i :: 0 <= i < |delivered| ==> p.last.value < delivered[i])
      && end.count == p.count + |delivered|
      && exists_ < U64_MAX && end.count == exists_
    decreases |replies|
  {
    if p.next <= exists_ {
      var uids := replies[0];
      var q := AcceptListing(p, exists_, uids).value;
      RunListingDelivers(q, exists_, replies[1..]);
      var more := RunListing(q, exists_, replies[1..]).value.1;
      assert uids != [] && q.last == Some(uids[|uids| - 1]);
      assert forall i :: 0 <= i < |uids| ==> uids[i] <= uids[|uids| - 1];
    }
  }

  /**
   Exactly-once paging against any server: whenever the listing loop ends well, the
   UIDs it delivered form one strictly increasing sequence above the resumed cursor,
   and together with the resumed prefix they number exactly EXISTS.  The saturating
   arithmetic at the top of the machine word never ends well.
   */
  lemma ExactlyOnce(exists_: nat, resume: Option<(nat, nat)>, replies: seq<seq<nat>>)
    requires exists_ <= U64_MAX
    requires StartListing(exists_, resume).Some?
    requires RunListing(StartListing(exists_, resume).value, exists_, replies).Some?
    ensures var (end, delivered) := RunListing(StartListing(exists_, resume).value, exists_, replies).value;
      && StrictlyIncreasing(delivered)
      && (resume.Some? ==> forall i :: 0 <= i < |delivered| ==> resume.value.1 < delivered[i])
      && (if resume.Some? then resume.value.0 else 0) + |delivered| == exists_ == end.count
      && exists_ < U64_MAX
  {
    RunListingDelivers(StartListing(exists_, resume).value, exists_, replies);
  }

  ghost predicate AllAccepted(p: Progress, exists_: nat, replies: seq<seq<nat>>)
    decreases |replies|
  {
    replies != [] ==>
      && p.next <= exists_
      && Parsed(p.next, ListingEnd(p, exists_), replies[0])
      && AcceptListing(p, exists_, replies[0]).Some?
      && AllAccepted(AcceptListing(p, exists_, replies[0]).value, exists_, replies[1..])
  }

  /** No server, and no EXISTS up to the top of the machine word, keeps the loop going:
      every accepted listing uses up part of the 32-bit UID domain. */
  lemma {:induction false} ListingsAreBounded(p: Progress, exists_: nat, replies: seq<seq<nat>>)
    requires p.next <= U64_MAX && AllAccepted(p, exists_, replies)
    requires p.last.Some? ==> p.last.value < 0x1_0000_0000
    ensures |replies| + (if p.last.Some? then p.last.value else 0) < 0x1_0000_0000
    decreases |replies|
  {
    if replies != [] {
      ListingsAreBounded(AcceptListing(p, exists_, replies[0]).value, exists_, replies[1..]);
    }
  }

  // ----- UID sets

  /** An inclusive UID range of an IMAP set. */
  datatype Range = Range(low: nat, high: nat)

  function Span(r: Range): seq<nat> {
    if r.low <= r.high then seq(r.high - r.low + 1, i requires 0 <= i => r.low + i) else []
  }

  /** The UIDs that a set denotes, in order. */
  function Expand(ranges: seq<Range>): seq<nat> {
    if ranges == [] then [] else Expand(ranges[..|ranges| - 1]) + Span(ranges[|ranges| - 1])
  }

  function RenderRange(r: Range): string {
    if r.low == r.high then Digits(r.low) else Digits(r.low) + ":" + Digits(r.high)
  }

  function Render(ranges: seq<Range>): string {
    if ranges == [] then ""
    else if |ranges| == 1 then RenderRange(ranges[0])
    else Render(ranges[..|ranges| - 1]) + "," + RenderRange(ranges[|ranges| - 1])
  }

  // ----- Reading a set back

  /** Where the text after the last `c` begins. */
  function After(text: string, c: char): (k: nat)
    ensures k <= |text|
    ensures k > 0 ==> text[k - 1] == c
  {
    if text == "" then 0
    else if text[|text| - 1] == c then |text|
    else After(text[..|text| - 1], c)
  }

  function DecodeRange(item: string): Option<Range> {
    var k := After(item, ':');
    var low, high := ParseU64(if k == 0 then item else item[..k - 1]), ParseU64(item[k..]);
    if low.Some? && high.Some? then Some(Range(low.value, high.value)) else None
  }

  /** The ranges of a set, as a server reads them. */
  function Decode(text: string): Option<seq<Range>> {
    if text == "" then Some([])
    else
      var k := After(text, ',');
      var item := DecodeRange(text[k..]);
      var rest := if k == 0 then Some([]) else Decode(text[..k - 1]);
      if item.Some? && rest.Some? then Some(rest.value + [item.value]) else None
  }

  lemma {:induction false} AfterAbsent(text: string, c: char)
    requires c !in text
    ensures After(text, c) == 0
  {
    if text != "" {
      AfterAbsent(text[..|text| - 1], c);
    }
  }

  lemma {:induction false} AfterLast(a: string, b: string, c: char)
    requires c !in b
    ensures After(a + [c] + b, c) == |a| + 1
  {
    var text := a + [c] + b;
    if b == "" {
      assert text == a + [c];
    } else {
      AfterLast(a, b[..|b| - 1], c);
      assert text[..|text| - 1] == a + [c] + b[..|b| - 1];
      assert text[|text| - 1] == b[|b| - 1];
    }
  }

  lemma DigitsHaveNo(n: nat, c: char)
    requires !IsDigit(c)
    ensures c !in Digits(n) && Digits(n) != ""
  {
    DigitsRoundTrip(n);
  }

  lemma RangeRoundTrip(r: Range)
    requires r.low <= U64_MAX && r.high <= U64_MAX
    ensures DecodeRange(RenderRange(r)) == Some(r) && ',' !in RenderRange(r) && RenderRange(r) != ""
  {
    hide ParseU64, Digits;
    var low, high := Digits(r.low), Digits(r.high);
    ParsePrinted(r.low);
    ParsePrinted(r.high);
    DigitsHaveNo(r.low, ':');
    DigitsHaveNo(r.high, ':');
    DigitsHaveNo(r.low, ',');
    DigitsHaveNo(r.high, ',');
    if r.low == r.high {
      AfterAbsent(low, ':');
      assert low[0..] == low;
    } else {
      AfterLast(low, high, ':');
      assert low + [':'] + high == RenderRange(r);
      assert RenderRange(r)[..|low|] == low && RenderRange(r)[|low| + 1..] == high;
    }
  }

  /** A server that reads the set finds exactly the ranges that were put in. */
  lemma {:induction false} SetRoundTrip(ranges: seq<Range>)
    requires forall r :: r in ranges ==> r.low <= U64_MAX && r.high <= U64_MAX
    ensures Decode(Render(ranges)) == Some(ranges)
    ensures ranges != [] ==> Render(ranges) != ""
  {
    hide DecodeRange, RenderRange;
    if ranges != [] {
      var n := |ranges| - 1;
      var item, text := RenderRange(ranges[n]), Render(ranges);
      assert ranges == ranges[..n] + [ranges[n]];
      SetRoundTrip(ranges[..n]);
      RangeRoundTrip(ranges[n]);
      if n == 0 {
        AfterAbsent(item, ',');
        assert item[0..] == item;
      } else {
        AfterLast(Render(ranges[..n]), item, ',');
        assert text == Render(ranges[..n]) + [','] + item;
        var k := |Render(ranges[..n])| + 1;
        assert text[k..] == item && text[..k - 1] == Render(ranges[..n]);
      }
    }
  }

  lemma RenderedRangeIsShort(r: Range)
    requires r.low < 0x1_0000_0000 && r.high < 0x1_0000_0000
    ensures 1 <= |RenderRange(r)| <= if r.low == r.high then 10 else 21
  {
    assert Pow10(5) == 100_000;
    assert Pow10(10) == 100_000 * 100_000 by {
      assert Pow10(8) == 100_000_000;
    }
    DigitsLength(r.low, 10);
    DigitsLength(r.high, 10);
    DigitsRoundTrip(r.low);
    DigitsRoundTrip(r.high);
  }

  /** The longest run of consecutive UIDs from `start`, within the limit, ends at `end`. */
  ghost predicate IsRun(uids: seq<nat>, start: nat, end: nat, limit: nat) {
    && start <= end < limit <= |uids|
    && Span(Range(uids[start], uids[end])) == uids[start..end + 1]
    && (end + 1 < limit ==> uids[end + 1] != uids[end] + 1)
  }

  /** The last index of the run of consecutive UIDs that starts at `start`. */
  method EndOfRun(uids: seq<nat>, start: nat, limit: nat) returns (end: nat)
    requires start < limit <= |uids|
    ensures start <= end < limit && IsRun(uids, start, end, limit)
  {
    end := start;
    while end + 1 < limit && uids[end + 1] == uids[end] + 1
      invariant start <= end < limit
      invariant forall k :: start <= k <= end ==> uids[k] == uids[start] + (k - start)
    {
      end := end + 1;
    }
  }

  lemma SetAppend(ranges: seq<Range>, r: Range)
    ensures Expand(ranges + [r]) == Expand(ranges) + Span(r)
    ensures Render(ranges + [r]) == (if ranges == [] then "" else Render(ranges) + ",") + RenderRange(r)
  {
    assert (ranges + [r])[..|ranges|] == ranges;
  }

  function PageLimit(uids: seq<nat>, maxCount: nat): nat {
    var limit := if maxCount == 0 then 1 else maxCount;
    if |uids| <= limit then |uids| else limit
  }

  /** The text has no room for the next run of UIDs, taken whole. */
  ghost predicate NextRunIsTooLong(uids: seq<nat>, count: nat, limit: nat, text: string) {
    exists end: nat :: IsRun(uids, count, end, limit)
      && |text| + 1 + |RenderRange(Range(uids[count], uids[end]))| > MAX_UID_SET_BYTES
  }

  lemma RunIsTooLong(uids: seq<nat>, count: nat, end: nat, limit: nat, text: string)
    requires IsRun(uids, count, end, limit)
    requires |text| + 1 + |RenderRange(Range(uids[count], uids[end]))| > MAX_UID_SET_BYTES
    ensures NextRunIsTooLong(uids, count, limit, text)
  {
  }

  // ----- The compact set of a prefix

  /** The maximal runs of consecutive UIDs. */
  function Runs(uids: seq<nat>): seq<Range> {
    if uids == [] then []
    else
      var n, u := |uids| - 1, uids[|uids| - 1];
      var rest := Runs(uids[..n]);
      if rest != [] && rest[|rest| - 1].high + 1 == u then rest[..|rest| - 1] + [Range(rest[|rest| - 1].low, u)]
      else rest + [Range(u, u)]
  }

  function SetLength(uids: seq<nat>): nat { |Render(Runs(uids))| }

  /** The last run ends at the last UID. */
  lemma {:induction false} RunsEnd(uids: seq<nat>)
    requires uids != []
    ensures var rs := Runs(uids); rs != [] && rs[|rs| - 1].high == uids[|uids| - 1] && rs[|rs| - 1].low <= rs[|rs| - 1].high
  {
    if |uids| > 1 {
      RunsEnd(uids[..|uids| - 1]);
    }
  }

  /** A whole run adds one range. */
  lemma {:induction false} RunsOfRun(uids: seq<nat>, start: nat, end: nat)
    requires start <= end < |uids|
    requires forall k :: start <= k <= end ==> uids[k] == uids[start] + (k - start)
    requires start > 0 ==> uids[start] != uids[start - 1] + 1
    ensures Runs(uids[..end + 1]) == Runs(uids[..start]) + [Range(uids[start], uids[end])]
  {
    assert uids[..end + 1][..end] == uids[..end];
    if start == end {
      if start > 0 {
        RunsEnd(uids[..start]);
      }
    } else {
      RunsOfRun(uids, start, end - 1);
      assert uids[end] == uids[end - 1] + 1;
    }
  }

  lemma RunsGrow(uids: seq<nat>, count: nat, end: nat, limit: nat)
    requires IsRun(uids, count, end, limit) && IsBoundary(uids, count)
    ensures Runs(uids[..end + 1]) == Runs(uids[..count]) + [Range(uids[count], uids[end])]
  {
    var span := Span(Range(uids[count], uids[end]));
    forall k | count <= k <= end ensures uids[k] == uids[count] + (k - count) {
      assert uids[count..end + 1][k - count] == uids[k];
      assert span[k - count] == uids[count] + (k - count);
    }
    RunsOfRun(uids, count, end);
  }

  /** No run spans the position. */
  predicate IsBoundary(uids: seq<nat>, count: nat) {
    0 < count < |uids| ==> uids[count] != uids[count - 1] + 1
  }

  lemma LongerSpan(low: nat, u: nat)
    requires low < u
    ensures Span(Range(low, u)) == Span(Range(low, u - 1)) + [u]
  {
  }

  /** How the set changes with one more UID: its last run grows, or a run is added. */
  lemma RunsStep(uids: seq<nat>, k: nat) returns (front: seq<Range>, low: nat)
    requires k < |uids|
    ensures low <= uids[k] && Runs(uids[..k + 1]) == front + [Range(low, uids[k])]
    ensures low == uids[k] ==> Runs(uids[..k]) == front
    ensures low < uids[k] ==> Runs(uids[..k]) == front + [Range(low, uids[k] - 1)]
  {
    var rest, u := Runs(uids[..k]), uids[k];
    assert uids[..k + 1][..k] == uids[..k];
    if rest != [] && rest[|rest| - 1].high + 1 == u {
      if k > 0 {
        RunsEnd(uids[..k]);
      }
      front, low := rest[..|rest| - 1], rest[|rest| - 1].low;
    } else {
      front, low := rest, u;
    }
  }

  /** The runs denote exactly the UIDs. */
  lemma {:induction false} RunsDenote(uids: seq<nat>)
    ensures Expand(Runs(uids)) == uids
  {
    hide Span, Runs;
    if uids == [] {
      EmptySet(uids);
    } else {
      var n, u := |uids| - 1, uids[|uids| - 1];
      RunsDenote(uids[..n]);
      var front, low := RunsStep(uids, n);
      SetAppend(front, Range(low, u));
      assert uids[..n + 1] == uids && uids[..n] + [u] == uids;
      if low < u {
        SetAppend(front, Range(low, u - 1));
        LongerSpan(low, u);
        assert Expand(front) + (Span(Range(low, u - 1)) + [u]) == Expand(front) + Span(Range(low, u - 1)) + [u];
      } else {
        SingleSpan(u);
      }
    }
  }

  lemma SingleSpan(u: nat)
    ensures Span(Range(u, u)) == [u]
  {
  }

  /** One more UID never shortens the set. */
  lemma SetGrows(uids: seq<nat>, k: nat)
    requires k < |uids|
    ensures SetLength(uids[..k]) <= SetLength(uids[..k + 1])
  {
    hide Runs, Digits;
    var front, low := RunsStep(uids, k);
    SetAppend(front, Range(low, uids[k]));
    if low < uids[k] {
      SetAppend(front, Range(low, uids[k] - 1));
      DigitsGrow(uids[k] - 1, uids[k]);
    }
  }

  lemma {:induction false} SetKeepsGrowing(uids: seq<nat>, j: nat, k: nat)
    requires j <= k <= |uids|
    ensures SetLength(uids[..j]) <= SetLength(uids[..k])
    decreases k - j
  {
    hide SetLength;
    if j < k {
      SetKeepsGrowing(uids, j, k - 1);
      SetGrows(uids, k - 1);
    }
  }

  /** No longer prefix, within the limit, has a set that fits a command line. */
  ghost predicate IsLongestPrefix(uids: seq<nat>, count: nat, limit: nat)
    requires limit <= |uids|
  {
    forall k :: count < k <= limit ==> SetLength(uids[..k]) > MAX_UID_SET_BYTES
  }

  /** Stopping between two runs is longest exactly when not even the next UID alone fits. */
  lemma LongestExactly(uids: seq<nat>, count: nat, limit: nat)
    requires 0 < count <= limit <= |uids| && IsBoundary(uids, count)
    ensures IsLongestPrefix(uids, count, limit) <==>
      count == limit || SetLength(uids[..count]) + 1 + |Digits(uids[count])| > MAX_UID_SET_BYTES
  {
    if count < limit {
      RunsEnd(uids[..count]);
      RunsOfRun(uids, count, count);
      SetAppend(Runs(uids[..count]), Range(uids[count], uids[count]));
      forall k | count < k <= limit ensures SetLength(uids[..count + 1]) <= SetLength(uids[..k]) {
        SetKeepsGrowing(uids, count + 1, k);
      }
    }
  }

  /** What one call of the encoder promises. */
  ghost predicate IsPage(uids: seq<nat>, limit: nat, count: nat, text: string)
    requires limit <= |uids|
  {
    && count <= limit && (limit > 0 ==> 0 < count)
    && text == Render(Runs(uids[..count])) && |text| <= MAX_UID_SET_BYTES
    && (count < limit ==> IsBoundary(uids, count) && NextRunIsTooLong(uids, count, limit, text))
  }

  lemma EmptySet(uids: seq<nat>)
    ensures Runs(uids[..0]) == [] && Render([]) == "" && Expand([]) == [] && IsBoundary(uids, 0)
  {
  }

  lemma RunEndsAtBoundary(uids: seq<nat>, start: nat, end: nat, limit: nat)
    requires IsRun(uids, start, end, limit)
    ensures end + 1 < limit ==> IsBoundary(uids, end + 1)
  {
  }

  lemma PageIsLongestExactly(uids: seq<nat>, count: nat, limit: nat)
    requires count <= limit <= |uids| && (limit > 0 ==> 0 < count) && (count < limit ==> IsBoundary(uids, count))
    ensures IsLongestPrefix(uids, count, limit) <==>
      count == limit || SetLength(uids[..count]) + 1 + |Digits(uids[count])| > MAX_UID_SET_BYTES
  {
    if count < limit {
      LongestExactly(uids, count, limit);
    }
  }

  /**
   Encode a prefix of the UIDs as a compact set.  The set denotes exactly the
   UIDs consumed, always consumes one, and never outgrows a command line.  It stops
   early only where the next whole run does not fit, which cannot happen within the
   UIDs of one listing.
   */
  method EncodeUidPage(uids: seq<nat>, maxCount: nat) returns (count: nat, text: string)
    requires forall i :: 0 <= i < |uids| ==> uids[i] < 0x1_0000_0000
    ensures uids != [] ==> 1 <= count
    ensures count <= |uids| && count <= (if maxCount == 0 then 1 else maxCount)
    ensures IsPage(uids, PageLimit(uids, maxCount), count, text)
    ensures Decode(text) == Some(Runs(uids[..count])) && Expand(Runs(uids[..count])) == uids[..count]
    ensures |uids| <= MESSAGE_UID_ENUMERATION_PAGE_SIZE ==> count == PageLimit(uids, maxCount)
    ensures IsLongestPrefix(uids, count, PageLimit(uids, maxCount)) <==>
      count == PageLimit(uids, maxCount) || |text| + 1 + |Digits(uids[count])| > MAX_UID_SET_BYTES
  {
    hide Expand, Render, RenderRange, Span, IsRun, NextRunIsTooLong, Decode, Runs, IsLongestPrefix, IsBoundary;
    var limit := PageLimit(uids, maxCount);
    text, count := "", 0;
    ghost var ranges: seq<Range> := [];
    EmptySet(uids);
    while count < limit
      invariant count <= limit
      invariant ranges == Runs(uids[..count]) && text == Render(ranges)
      invariant count == 0 <==> ranges == []
      invariant count == 0 <==> text == ""
      invariant |text| <= MAX_UID_SET_BYTES && |text| <= 11 * count
      invariant forall r :: r in ranges ==> r.low <= U64_MAX && r.high <= U64_MAX
      invariant count < limit ==> IsBoundary(uids, count)
      decreases limit - count
    {
      var end := EndOfRun(uids, count, limit);
      var item := RenderRange(Range(uids[count], uids[end]));
      RenderedRangeIsShort(Range(uids[count], uids[end]));
      var separator := if text == "" then 0 else 1;
      if count > 0 && |text| + separator + |item| > MAX_UID_SET_BYTES {
        RunIsTooLong(uids, count, end, limit, text);
        break;
      }
      RunsGrow(uids, count, end, limit);
      RunEndsAtBoundary(uids, count, end, limit);
      SetAppend(ranges, Range(uids[count], uids[end]));
      ranges := ranges + [Range(uids[count], uids[end])];
      text := if separator == 1 then text + "," + item else item;
      count := end + 1;
    }
    SetRoundTrip(ranges);
    RunsDenote(uids[..count]);
    PageIsLongestExactly(uids, count, limit);
  }

  /** Where the next page ends; its set denotes exactly the UIDs of the page. */
  method PlanPage(uids: seq<nat>, offset: nat, maxCount: nat) returns (end: nat, text: string)
    requires offset < |uids| && forall i :: 0 <= i < |uids| ==> uids[i] < 0x1_0000_0000
    ensures offset < end <= |uids| && end - offset <= (if maxCount == 0 then 1 else maxCount)
    ensures Decode(text) == Some(Runs(uids[offset..end])) && |text| <= MAX_UID_SET_BYTES
    ensures Expand(Runs(uids[offset..end])) == uids[offset..end]
    ensures |uids| <= MESSAGE_UID_ENUMERATION_PAGE_SIZE ==> end - offset == PageLimit(uids[offset..], maxCount)
  {
    hide Expand, Render, Decode, NextRunIsTooLong, Runs, IsLongestPrefix, IsBoundary;
    var rest := uids[offset..];
    var count;
    count, text := EncodeUidPage(rest, maxCount);
    end := offset + count;
    assert rest[..count] == uids[offset..end];
  }

  // ----- An input beyond a listing that the encoder cuts short

  /** Ten-digit UIDs, none next to another. */
  function Spread(n: nat): seq<nat> {
    seq(n, i requires 0 <= i < n => 1_000_000_000 + 2 * i)
  }

  /** Room for one more UID remains after 635 of them, but not for the run of two that follows. */
  function Witness(): seq<nat> { Spread(635) + [2_000_000_000, 2_000_000_001] }

  lemma TenDigits(n: nat)
    requires 1_000_000_000 <= n < 0x1_0000_0000
    ensures |Digits(n)| == 10
  {
    assert Pow10(5) == 100_000;
    assert Pow10(9) == 100_000 * 10_000 && Pow10(10) == 100_000 * 100_000 by {
      assert Pow10(8) == 100_000_000;
    }
    DigitsLength(n, 10);
    DigitsLengthAtLeast(n, 10);
  }

  lemma {:induction false} SpreadLength(k: nat)
    requires 0 < k <= 635
    ensures SetLength(Witness()[..k]) == 11 * k - 1
  {
    var uids := Witness();
    if k > 1 {
      SpreadLength(k - 1);
      RunsEnd(uids[..k - 1]);
    }
    RunsOfRun(uids, k - 1, k - 1);
    SetAppend(Runs(uids[..k - 1]), Range(uids[k - 1], uids[k - 1]));
    TenDigits(uids[k - 1]);
    assert uids[..0] == [];
  }

  lemma WitnessOverflows()
    ensures SetLength(Witness()[..637]) > MAX_UID_SET_BYTES
  {
    hide Runs, Render, Expand, Digits;
    var uids := Witness();
    SpreadLength(635);
    RunsEnd(uids[..635]);
    RunsOfRun(uids, 635, 636);
    SetAppend(Runs(uids[..635]), Range(uids[635], uids[636]));
    TenDigits(uids[635]);
    TenDigits(uids[636]);
  }

  /** Whatever page the encoder makes of this input, a longer prefix would have fitted. */
  lemma LongestPrefixIsMissed(count: nat, text: string)
    requires |Witness()| == 637 && IsPage(Witness(), 637, count, text)
    ensures !IsLongestPrefix(Witness(), count, 637)
  {
    hide Runs, Render, NextRunIsTooLong;
    var uids := Witness();
    WitnessOverflows();
    if count == 637 {
      assert false;
    } else if count == 636 {
      assert false;
    } else {
      SpreadLength(count);
      TenDigits(uids[count]);
      LongestExactly(uids, count, 637);
    }
  }
}
