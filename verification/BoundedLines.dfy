/** The line buffer behind operator journals and process tails: bounded in lines and in bytes. */
module BoundedLines {
  import opened Decimal
  import opened Text

  // ----- Truncation at a character boundary

  /** `str::is_char_boundary` */
  predicate IsCharBoundary(s: string, boundary: nat) {
    exists k :: 0 <= k <= |s| && ByteLength(s[..k]) == boundary
  }

  /** The longest prefix of at most `maxBytes` bytes. */
  function LongestPrefix(s: string, maxBytes: nat): string {
    if ByteLength(s) <= maxBytes then s else LongestPrefix(s[..|s| - 1], maxBytes)
  }

  lemma {:induction false} PrefixIsSmaller(s: string, k: nat)
    requires k < |s|
    ensures ByteLength(s[..k]) < ByteLength(s)
    decreases |s|
  {
    if k < |s| - 1 {
      PrefixIsSmaller(s[..|s| - 1], k);
      assert s[..|s| - 1][..k] == s[..k];
    }
  }

  /** It is a prefix, it fits, and no longer prefix fits. */
  lemma {:induction false} LongestPrefixIsLongest(s: string, maxBytes: nat)
    ensures LongestPrefix(s, maxBytes) <= s
    ensures ByteLength(LongestPrefix(s, maxBytes)) <= maxBytes
    ensures forall k :: |LongestPrefix(s, maxBytes)| < k <= |s| ==> ByteLength(s[..k]) > maxBytes
  {
    assert s[..|s|] == s;
    if ByteLength(s) > maxBytes {
      var shorter := s[..|s| - 1];
      LongestPrefixIsLongest(shorter, maxBytes);
      forall k | |LongestPrefix(s, maxBytes)| < k <= |s| ensures ByteLength(s[..k]) > maxBytes {
        if k < |s| {
          assert shorter[..k] == s[..k];
        }
      }
    }
  }

  /** A prefix that ends at the last boundary within the budget is the longest one. */
  lemma {:induction false} LastBoundaryIsLongest(s: string, maxBytes: nat, k: nat)
    requires k <= |s| && ByteLength(s[..k]) <= maxBytes
    requires forall b :: ByteLength(s[..k]) < b <= maxBytes ==> !IsCharBoundary(s, b)
    ensures LongestPrefix(s, maxBytes) == s[..k]
  {
    LongestPrefixIsLongest(s, maxBytes);
    var best := LongestPrefix(s, maxBytes);
    assert best == s[..|best|];
    if k < |best| {
      PrefixIsSmaller(best, k);
      assert best[..k] == s[..k];
      assert IsCharBoundary(s, ByteLength(best));
      assert false;
    }
  }

  /** Step back from the byte budget to a character boundary and cut there. */
  method TruncateToBytes(line: string, maxBytes: nat) returns (truncated: string)
    ensures truncated == LongestPrefix(line, maxBytes)
  {
    if ByteLength(line) <= maxBytes {
      return line;
    }
    assert ByteLength(line[..0]) == 0;
    assert IsCharBoundary(line, 0);
    var boundary: nat := maxBytes;
    while !IsCharBoundary(line, boundary)
      invariant boundary <= maxBytes
      invariant forall b :: boundary < b <= maxBytes ==> !IsCharBoundary(line, b)
      decreases boundary
    {
      boundary := boundary - 1;
    }
    var k :| 0 <= k <= |line| && ByteLength(line[..k]) == boundary;
    LastBoundaryIsLongest(line, maxBytes, k);
    truncated := line[..k];
  }

  // ----- What fits

  function Total(lines: seq<string>): nat {
    if lines == [] then 0 else Total(lines[..|lines| - 1]) + ByteLength(lines[|lines| - 1])
  }

  lemma {:induction false} TotalConcat(a: seq<string>, b: seq<string>)
    ensures Total(a + b) == Total(a) + Total(b)
  {
    if b == [] {
      assert a + b == a;
    } else {
      TotalConcat(a, b[..|b| - 1]);
      assert (a + b)[..|a + b| - 1] == a + b[..|b| - 1];
    }
  }

  lemma TotalFirst(lines: seq<string>)
    requires lines != []
    ensures Total(lines) == ByteLength(lines[0]) + Total(lines[1..])
  {
    TotalConcat([lines[0]], lines[1..]);
    assert [lines[0]] + lines[1..] == lines;
    assert [lines[0]][..0] == [];
  }

  predicate Fits(lines: seq<string>, maxLines: nat, maxBytes: nat) {
    |lines| <= maxLines && Total(lines) <= maxBytes
  }

  /** The longest suffix that fits both limits. */
  function Newest(lines: seq<string>, maxLines: nat, maxBytes: nat): seq<string> {
    if lines == [] || Fits(lines, maxLines, maxBytes) then lines else Newest(lines[1..], maxLines, maxBytes)
  }

  /** The longest prefix that fits both limits. */
  function Oldest(lines: seq<string>, maxLines: nat, maxBytes: nat): seq<string> {
    if lines == [] || Fits(lines, maxLines, maxBytes) then lines else Oldest(lines[..|lines| - 1], maxLines, maxBytes)
  }

  lemma {:induction false} NewestIsLongest(lines: seq<string>, maxLines: nat, maxBytes: nat)
    ensures var kept := Newest(lines, maxLines, maxBytes);
      && |kept| <= |lines| && kept == lines[|lines| - |kept|..]
      && Fits(kept, maxLines, maxBytes)
      && forall i :: 0 <= i < |lines| - |kept| ==> !Fits(lines[i..], maxLines, maxBytes)
  {
    assert lines[0..] == lines;
    if lines != [] && !Fits(lines, maxLines, maxBytes) {
      var rest := lines[1..];
      NewestIsLongest(rest, maxLines, maxBytes);
      var kept := Newest(rest, maxLines, maxBytes);
      assert rest[|rest| - |kept|..] == lines[|lines| - |kept|..];
      forall i | 0 <= i < |lines| - |kept| ensures !Fits(lines[i..], maxLines, maxBytes) {
        if i > 0 {
          assert lines[i..] == rest[i - 1..];
        }
      }
    }
  }

  lemma {:induction false} OldestIsLongest(lines: seq<string>, maxLines: nat, maxBytes: nat)
    ensures var kept := Oldest(lines, maxLines, maxBytes);
      && kept <= lines
      && Fits(kept, maxLines, maxBytes)
      && forall i :: |kept| < i <= |lines| ==> !Fits(lines[..i], maxLines, maxBytes)
  {
    assert lines[..|lines|] == lines;
    if lines != [] && !Fits(lines, maxLines, maxBytes) {
      var rest := lines[..|lines| - 1];
      OldestIsLongest(rest, maxLines, maxBytes);
      var kept := Oldest(rest, maxLines, maxBytes);
      forall i | |kept| < i <= |lines| ensures !Fits(lines[..i], maxLines, maxBytes) {
        if i < |lines| {
          assert lines[..i] == rest[..i];
        }
      }
    }
  }

  /** Dropping early what would be dropped later changes nothing. */
  lemma {:induction false} NewestIsIncremental(lines: seq<string>, line: string, maxLines: nat, maxBytes: nat)
    ensures Newest(Newest(lines, maxLines, maxBytes) + [line], maxLines, maxBytes)
         == Newest(lines + [line], maxLines, maxBytes)
  {
    if lines != [] && !Fits(lines, maxLines, maxBytes) {
      TotalConcat(lines, [line]);
      assert !Fits(lines + [line], maxLines, maxBytes);
      assert (lines + [line])[1..] == lines[1..] + [line];
      NewestIsIncremental(lines[1..], line, maxLines, maxBytes);
    }
  }

  // ----- The buffer

  class BoundedLineBuffer {
    var lines: seq<string>
    var bytes: nat

    ghost predicate Valid()
      reads this
    {
      bytes == Total(lines)
    }

    constructor ()
      ensures Valid() && lines == []
    {
      lines, bytes := [], 0;
    }

    /** Text held in memory never exceeds the address space. */
    ghost predicate Addressable(line: string, maxBytes: nat)
      reads this
    {
      maxBytes < U64_MAX || (maxBytes == U64_MAX && Total(lines) + ByteLength(line) <= U64_MAX)
    }

    method PushBounded(line: string, maxLines: nat, maxBytes: nat)
      requires Valid() && Addressable(line, maxBytes)
      modifies this
      ensures Valid()
      ensures lines == AfterPush(old(lines), Back(line), maxLines, maxBytes)
      ensures maxLines == 0 || maxBytes == 0 ==> lines == old(lines)
      ensures maxLines > 0 && maxBytes > 0 ==> lines != [] && lines[|lines| - 1] == LongestPrefix(line, maxBytes)
    {
      if maxLines == 0 || maxBytes == 0 {
        return;
      }
      PushedLineIsKept(lines, line, maxLines, maxBytes);
      var truncated := TruncateToBytes(line, maxBytes);
      LongestPrefixIsLongest(line, maxBytes);
      PrefixFitsBudget(line, maxBytes);
      while |lines| >= maxLines || SaturatingAdd(bytes, ByteLength(truncated)) > maxBytes
        invariant Valid() && Addressable(truncated, maxBytes)
        invariant Newest(lines + [truncated], maxLines, maxBytes)
               == Newest(old(lines) + [truncated], maxLines, maxBytes)
        decreases |lines|
      {
        if lines == [] {
          break;
        }
        TotalFirst(lines);
        DropFirst(lines, truncated, maxLines, maxBytes);
        var removed := lines[0];
        lines := lines[1..];
        bytes := SaturatingSub(bytes, ByteLength(removed));
      }
      TotalConcat(lines, [truncated]);
      SingleTotal(truncated);
      bytes := SaturatingAdd(bytes, ByteLength(truncated));
      lines := lines + [truncated];
    }

    method PushFrontBounded(line: string, maxLines: nat, maxBytes: nat)
      requires Valid() && Addressable(line, maxBytes)
      modifies this
      ensures Valid()
      ensures lines == AfterPush(old(lines), Front(line), maxLines, maxBytes)
      ensures maxLines == 0 || maxBytes == 0 ==> lines == old(lines)
      ensures maxLines > 0 && maxBytes > 0 ==> lines != [] && lines[0] == LongestPrefix(line, maxBytes)
    {
      if maxLines == 0 || maxBytes == 0 {
        return;
      }
      PushedLineIsKept(lines, line, maxLines, maxBytes);
      var truncated := TruncateToBytes(line, maxBytes);
      LongestPrefixIsLongest(line, maxBytes);
      PrefixFitsBudget(line, maxBytes);
      while |lines| >= maxLines || SaturatingAdd(bytes, ByteLength(truncated)) > maxBytes
        invariant Valid() && Addressable(truncated, maxBytes)
        invariant Oldest([truncated] + lines, maxLines, maxBytes)
               == Oldest([truncated] + old(lines), maxLines, maxBytes)
        decreases |lines|
      {
        if lines == [] {
          break;
        }
        DropLast(lines, truncated, maxLines, maxBytes);
        var removed := lines[|lines| - 1];
        lines := lines[..|lines| - 1];
        bytes := SaturatingSub(bytes, ByteLength(removed));
      }
      TotalConcat([truncated], lines);
      SingleTotal(truncated);
      bytes := SaturatingAdd(bytes, ByteLength(truncated));
      lines := [truncated] + lines;
    }

    method Clear()
      modifies this
      ensures Valid() && lines == []
    {
      lines, bytes := [], 0;
    }

    /** Any history of pushes at either end and clears, under fixed limits, keeps both limits. */
    method Perform(operations: seq<Operation>, maxLines: nat, maxBytes: nat)
      requires Valid() && lines == []
      requires maxBytes < U64_MAX || (maxBytes == U64_MAX && InputBytes(operations) <= U64_MAX)
      modifies this
      ensures Valid() && lines == AfterAll(operations, maxLines, maxBytes)
      ensures Fits(lines, maxLines, maxBytes) && bytes <= maxBytes
    {
      AllFit(operations, maxLines, maxBytes);
      for i := 0 to |operations|
        invariant Valid() && lines == AfterAll(operations[..i], maxLines, maxBytes)
      {
        assert operations[..i + 1][..i] == operations[..i];
        KeptIsInput(operations[..i], maxLines, maxBytes);
        InputGrows(operations, i + 1);
        match operations[i] {
          case Back(line) => PushBounded(line, maxLines, maxBytes);
          case Front(line) => PushFrontBounded(line, maxLines, maxBytes);
          case Clear => Clear();
        }
      }
      assert operations[..|operations|] == operations;
    }
  }

  lemma PrefixFitsBudget(line: string, maxBytes: nat)
    ensures ByteLength(LongestPrefix(line, maxBytes)) <= ByteLength(line)
  {
    LongestPrefixIsLongest(line, maxBytes);
    var best := LongestPrefix(line, maxBytes);
    assert best == line[..|best|];
    if |best| < |line| {
      PrefixIsSmaller(line, |best|);
    }
  }

  lemma SingleTotal(line: string)
    ensures Total([line]) == ByteLength(line)
  {
    assert [line][..0] == [];
  }

  lemma DropFirst(lines: seq<string>, line: string, maxLines: nat, maxBytes: nat)
    requires lines != [] && (|lines| >= maxLines || Total(lines) + ByteLength(line) > maxBytes)
    ensures Newest(lines + [line], maxLines, maxBytes) == Newest(lines[1..] + [line], maxLines, maxBytes)
  {
    TotalConcat(lines, [line]);
    SingleTotal(line);
    assert (lines + [line])[1..] == lines[1..] + [line];
  }

  lemma DropLast(lines: seq<string>, line: string, maxLines: nat, maxBytes: nat)
    requires lines != [] && (|lines| >= maxLines || Total(lines) + ByteLength(line) > maxBytes)
    ensures Oldest([line] + lines, maxLines, maxBytes) == Oldest([line] + lines[..|lines| - 1], maxLines, maxBytes)
  {
    TotalConcat([line], lines);
    SingleTotal(line);
    assert ([line] + lines)[..|lines|] == [line] + lines[..|lines| - 1];
  }

  // ----- Histories

  datatype Operation = Back(line: string) | Front(line: string) | Clear

  /** A push keeps the new line and as much as fits of what was nearest to it. */
  function AfterPush(lines: seq<string>, operation: Operation, maxLines: nat, maxBytes: nat): seq<string> {
    if operation.Clear? then []
    else if maxLines == 0 || maxBytes == 0 then lines
    else if operation.Back? then Newest(lines + [LongestPrefix(operation.line, maxBytes)], maxLines, maxBytes)
    else Oldest([LongestPrefix(operation.line, maxBytes)] + lines, maxLines, maxBytes)
  }

  function AfterAll(operations: seq<Operation>, maxLines: nat, maxBytes: nat): seq<string> {
    if operations == [] then []
    else
      var n := |operations| - 1;
      AfterPush(AfterAll(operations[..n], maxLines, maxBytes), operations[n], maxLines, maxBytes)
  }

  lemma {:induction false} AllFit(operations: seq<Operation>, maxLines: nat, maxBytes: nat)
    ensures Fits(AfterAll(operations, maxLines, maxBytes), maxLines, maxBytes)
  {
    if operations != [] {
      var n := |operations| - 1;
      AllFit(operations[..n], maxLines, maxBytes);
      var before := AfterAll(operations[..n], maxLines, maxBytes);
      if !operations[n].Clear? {
        var truncated := LongestPrefix(operations[n].line, maxBytes);
        NewestIsLongest(before + [truncated], maxLines, maxBytes);
        OldestIsLongest([truncated] + before, maxLines, maxBytes);
      }
    }
  }

  /** The bytes of all the lines that were pushed. */
  function InputBytes(operations: seq<Operation>): nat {
    if operations == [] then 0
    else
      var n := |operations| - 1;
      InputBytes(operations[..n]) + if operations[n].Clear? then 0 else ByteLength(operations[n].line)
  }

  lemma {:induction false} InputGrows(operations: seq<Operation>, n: nat)
    requires n <= |operations|
    ensures InputBytes(operations[..n]) <= InputBytes(operations)
  {
    if n == |operations| {
      assert operations[..n] == operations;
    } else {
      InputGrows(operations[..|operations| - 1], n);
      assert operations[..|operations| - 1][..n] == operations[..n];
    }
  }

  /** What is kept is never larger than what came in. */
  lemma {:induction false} KeptIsInput(operations: seq<Operation>, maxLines: nat, maxBytes: nat)
    ensures Total(AfterAll(operations, maxLines, maxBytes)) <= InputBytes(operations)
  {
    if operations != [] {
      var n := |operations| - 1;
      KeptIsInput(operations[..n], maxLines, maxBytes);
      var before := AfterAll(operations[..n], maxLines, maxBytes);
      if !operations[n].Clear? {
        var truncated := LongestPrefix(operations[n].line, maxBytes);
        PrefixFitsBudget(operations[n].line, maxBytes);
        SingleTotal(truncated);
        TotalConcat(before, [truncated]);
        TotalConcat([truncated], before);
        NewestIsSmaller(before + [truncated], maxLines, maxBytes);
        OldestIsSmaller([truncated] + before, maxLines, maxBytes);
      }
    }
  }

  lemma NewestIsSmaller(lines: seq<string>, maxLines: nat, maxBytes: nat)
    ensures Total(Newest(lines, maxLines, maxBytes)) <= Total(lines)
  {
    NewestIsLongest(lines, maxLines, maxBytes);
    var newest := Newest(lines, maxLines, maxBytes);
    TotalConcat(lines[..|lines| - |newest|], newest);
    assert lines[..|lines| - |newest|] + newest == lines;
  }

  lemma OldestIsSmaller(lines: seq<string>, maxLines: nat, maxBytes: nat)
    ensures Total(Oldest(lines, maxLines, maxBytes)) <= Total(lines)
  {
    OldestIsLongest(lines, maxLines, maxBytes);
    var oldest := Oldest(lines, maxLines, maxBytes);
    TotalConcat(oldest, lines[|oldest|..]);
    assert oldest + lines[|oldest|..] == lines;
  }

  /** A push never loses its own line. */
  lemma PushedLineIsKept(lines: seq<string>, line: string, maxLines: nat, maxBytes: nat)
    requires maxLines > 0 && maxBytes > 0
    ensures var after := AfterPush(lines, Back(line), maxLines, maxBytes);
      after != [] && after[|after| - 1] == LongestPrefix(line, maxBytes)
    ensures var after := AfterPush(lines, Front(line), maxLines, maxBytes);
      after != [] && after[0] == LongestPrefix(line, maxBytes)
  {
    var truncated := LongestPrefix(line, maxBytes);
    LongestPrefixIsLongest(line, maxBytes);
    SingleTotal(truncated);
    NewestIsLongest(lines + [truncated], maxLines, maxBytes);
    OldestIsLongest([truncated] + lines, maxLines, maxBytes);
    assert (lines + [truncated])[|lines|..] == [truncated];
    assert ([truncated] + lines)[..1] == [truncated];
  }

  function Pushes(inputs: seq<string>): seq<Operation> {
    seq(|inputs|, i requires 0 <= i < |inputs| => Back(inputs[i]))
  }

  function Truncated(inputs: seq<string>, maxBytes: nat): seq<string> {
    seq(|inputs|, i requires 0 <= i < |inputs| => LongestPrefix(inputs[i], maxBytes))
  }

  /** Pushing line by line leaves what truncating everything and keeping the newest would. */
  lemma {:induction false} PushesKeepTheNewest(inputs: seq<string>, maxLines: nat, maxBytes: nat)
    requires maxLines > 0 && maxBytes > 0
    ensures AfterAll(Pushes(inputs), maxLines, maxBytes) == Newest(Truncated(inputs, maxBytes), maxLines, maxBytes)
  {
    if inputs != [] {
      var n := |inputs| - 1;
      var earlier := inputs[..n];
      PushesKeepTheNewest(earlier, maxLines, maxBytes);
      assert Pushes(inputs)[..n] == Pushes(earlier);
      assert Truncated(inputs, maxBytes) == Truncated(earlier, maxBytes) + [LongestPrefix(inputs[n], maxBytes)];
      NewestIsIncremental(Truncated(earlier, maxBytes), LongestPrefix(inputs[n], maxBytes), maxLines, maxBytes);
    }
  }
}
