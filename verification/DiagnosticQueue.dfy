/**
 The non-blocking diagnostic queue: many producers, one writer thread, a shared byte
 counter and a bounded channel.  Each method is one atomic step of one thread, so a
 sequence of calls in any order is an interleaving.
 */
module DiagnosticQueue {
  import opened Collections
  import opened Decimal

  const QUEUE_LINES: nat := 16_384
  const QUEUE_BYTES: nat := 16 * 1024 * 1024

  datatype Line = Line(run: string, length: nat)

  datatype Command = Transcript(line: Line) | Finish(run: string)

  /** A command that the writer has handled, and whether the line was persisted or the flush worked. */
  datatype Handled = Handled(command: Command, succeeded: bool)

  /** What the writer is doing: waiting, writing a line, or about to give its bytes back. */
  datatype Writer = Waiting | Writing(line: Line) | Releasing(length: nat)

  function CommandBytes(c: Command): nat {
    if c.Transcript? then c.line.length else 0
  }

  function ChannelBytes(channel: seq<Command>): nat {
    if channel == [] then 0 else CommandBytes(channel[0]) + ChannelBytes(channel[1..])
  }

  lemma {:induction false} ChannelBytesPush(channel: seq<Command>, c: Command)
    ensures ChannelBytes(channel + [c]) == ChannelBytes(channel) + CommandBytes(c)
  {
    if channel == [] {
      assert channel + [c] == [c];
    } else {
      ChannelBytesPush(channel[1..], c);
      assert (channel + [c])[1..] == channel[1..] + [c];
    }
  }

  function WriterBytes(w: Writer): nat {
    match w
    case Waiting => 0
    case Writing(line) => line.length
    case Releasing(length) => length
  }

  /** The bytes that each producer reserved and has not handed over or given back. */
  ghost function Lengths(inFlight: map<nat, Line>): map<nat, nat> {
    map p | p in inFlight :: inFlight[p].length
  }

  lemma FlightStarts(inFlight: map<nat, Line>, p: nat, line: Line)
    requires p !in inFlight
    ensures Sum(Lengths(inFlight[p := line])) == Sum(Lengths(inFlight)) + line.length
  {
    assert Lengths(inFlight[p := line]) == Lengths(inFlight)[p := line.length];
    SumInsert(Lengths(inFlight), p, line.length);
  }

  lemma FlightEnds(inFlight: map<nat, Line>, p: nat)
    requires p in inFlight
    ensures Sum(Lengths(inFlight)) == Sum(Lengths(inFlight - {p})) + inFlight[p].length
  {
    assert Lengths(inFlight - {p}) == Lengths(inFlight) - {p};
    SumRemove(Lengths(inFlight), p);
  }

  // ----- What the transcript of handled commands says about a run

  /** The lines of a run handled since its previous Finish. */
  function LinesSince(history: seq<Handled>, run: string): nat {
    if history == [] then 0
    else
      var rest, last := LinesSince(history[..|history| - 1], run), history[|history| - 1].command;
      if last == Finish(run) then 0
      else if last.Transcript? && last.line.run == run then rest + 1 else rest
  }

  /** Those of them that could not be persisted. */
  function LostSince(history: seq<Handled>, run: string): nat {
    if history == [] then 0
    else NextLost(LostSince(history[..|history| - 1], run), history[|history| - 1], run)
  }

  function NextLost(lost: nat, h: Handled, run: string): nat {
    if h.command == Finish(run) then 0
    else if h.command.Transcript? && h.command.line.run == run && !h.succeeded then lost + 1 else lost
  }

  function PersistedSince(history: seq<Handled>, run: string): nat {
    if history == [] then 0
    else
      var rest, last := PersistedSince(history[..|history| - 1], run), history[|history| - 1];
      if last.command == Finish(run) then 0
      else if last.command.Transcript? && last.command.line.run == run && last.succeeded then rest + 1 else rest
  }

  lemma {:induction false} EveryLineIsAccounted(history: seq<Handled>, run: string)
    ensures LinesSince(history, run) == PersistedSince(history, run) + LostSince(history, run)
  {
    if history != [] {
      EveryLineIsAccounted(history[..|history| - 1], run);
    }
  }

  /** The lines of a run accepted into the channel since the previous Finish of the run. */
  function AcceptedSince(commands: seq<Command>, run: string): nat {
    if commands == [] then 0
    else
      var rest, last := AcceptedSince(commands[..|commands| - 1], run), commands[|commands| - 1];
      if last == Finish(run) then 0
      else if last.Transcript? && last.line.run == run then rest + 1 else rest
  }

  function Commands(history: seq<Handled>): seq<Command> {
    seq(|history|, i requires 0 <= i < |history| => history[i].command)
  }

  lemma {:induction false} HandledWasAccepted(history: seq<Handled>, run: string)
    ensures LinesSince(history, run) == AcceptedSince(Commands(history), run)
  {
    if history != [] {
      HandledWasAccepted(history[..|history| - 1], run);
      assert Commands(history)[..|history| - 1] == Commands(history[..|history| - 1]);
    }
  }

  lemma LostAfter(history: seq<Handled>, h: Handled)
    ensures forall run :: LostSince(history + [h], run) == NextLost(LostSince(history, run), h, run)
  {
    assert (history + [h])[..|history|] == history;
  }

  lemma CommandsAppend(history: seq<Handled>, h: Handled)
    ensures Commands(history + [h]) == Commands(history) + [h.command]
  {
  }

  /** The answer to a Finish: how many lines of the run were lost, unless the flush failed. */
  datatype Reply = Reply(run: string, lost: Option<nat>)

  /**
   The reply to a handled Finish counts if and only if the flush worked; the lines accepted for the
   run since its previous Finish are then those persisted and those reported lost.
   */
  predicate IsTrue(before: seq<Handled>, finish: Handled, reply: Reply) {
    && finish.command == Finish(reply.run)
    && (reply.lost.Some? <==> finish.succeeded)
    && (reply.lost.Some? ==>
          AcceptedSince(Commands(before), reply.run) == PersistedSince(before, reply.run) + reply.lost.value)
  }

  /** Each handled Finish has its own true reply, in order, and there are no others. */
  predicate Answers(history: seq<Handled>, replies: seq<Reply>) {
    if history == [] then replies == []
    else
      var rest, last := history[..|history| - 1], history[|history| - 1];
      if last.command.Transcript? then Answers(rest, replies)
      else
        && replies != [] && IsTrue(rest, last, replies[|replies| - 1])
        && Answers(rest, replies[..|replies| - 1])
  }

  lemma AnswersGrow(history: seq<Handled>, h: Handled, replies: seq<Reply>, reply: Reply)
    requires Answers(history, replies)
    ensures h.command.Transcript? ==> Answers(history + [h], replies)
    ensures h.command.Finish? && IsTrue(history, h, reply) ==> Answers(history + [h], replies + [reply])
  {
    assert (history + [h])[..|history|] == history;
    assert (replies + [reply])[..|replies|] == replies;
  }

  // ----- The queue as a value, and the steps of its threads

  function LostLines(failures: map<string, nat>, run: string): nat {
    if run in failures then failures[run] else 0
  }

  /** `accepted` is everything ever accepted, `history` everything handled and `replies` every answer, in order. */
  datatype State = State(
    queuedBytes: int, channel: seq<Command>, inFlight: map<nat, Line>, writer: Writer,
    failures: map<string, nat>, connected: bool,
    accepted: seq<Command>, history: seq<Handled>, replies: seq<Reply>)
  {
    predicate HasRoom() { connected && |channel| < QUEUE_LINES }

    function Accept(c: Command): State {
      this.(channel := channel + [c], accepted := accepted + [c])
    }

    function Handle(c: Command, succeeded: bool): State {
      this.(history := history + [Handled(c, succeeded)])
    }

    /** The counter is exactly the bytes reserved, queued or being written, within its limit. */
    ghost predicate BytesAgree() {
      && queuedBytes == Sum(Lengths(inFlight)) + ChannelBytes(channel) + WriterBytes(writer)
      && queuedBytes <= QUEUE_BYTES
      && |channel| <= QUEUE_LINES
    }

    /** The commands handled or in hand are a prefix of those accepted; the rest wait. */
    predicate InOrder() {
      accepted == Commands(history) + (if writer.Writing? then [Transcript(writer.line)] else []) + channel
    }

    /** The failure table is exactly what the history says. */
    ghost predicate LossesAgree() {
      forall run :: LostLines(failures, run) == LostSince(history, run)
    }

    ghost predicate Sound() {
      BytesAgree() && InOrder() && LossesAgree() && Answers(history, replies)
    }
  }

  datatype Move =
    | ReserveMove(producer: nat, line: Line) | SendMove(producer: nat) | RefundMove(producer: nat)
    | FinishMove(run: string) | DisconnectMove | WriterMove(success: bool)

  /** One step of one thread; a step that its thread cannot take does nothing. */
  function Next(s: State, move: Move): State {
    match move
    case ReserveMove(p, line) =>
      if p in s.inFlight || s.queuedBytes + line.length > QUEUE_BYTES then s
      else s.(queuedBytes := s.queuedBytes + line.length, inFlight := s.inFlight[p := line])
    case SendMove(p) =>
      if p !in s.inFlight || !s.HasRoom() then s
      else s.Accept(Transcript(s.inFlight[p])).(inFlight := s.inFlight - {p})
    case RefundMove(p) =>
      if p !in s.inFlight then s
      else s.(queuedBytes := s.queuedBytes - s.inFlight[p].length, inFlight := s.inFlight - {p})
    case FinishMove(run) => if s.HasRoom() then s.Accept(Finish(run)) else s
    case DisconnectMove => s.(connected := false)
    case WriterMove(success) => NextOfWriter(s, success)
  }

  function NextOfWriter(s: State, success: bool): State {
    match s.writer
    case Writing(line) =>
      s.Handle(Transcript(line), success).(
        writer := Releasing(line.length),
        failures := if success then s.failures else s.failures[line.run := LostLines(s.failures, line.run) + 1])
    case Releasing(length) => s.(writer := Waiting, queuedBytes := s.queuedBytes - length)
    case Waiting =>
      if s.channel == [] then s
      else
        match s.channel[0]
        case Transcript(line) => s.(writer := Writing(line), channel := s.channel[1..])
        case Finish(run) =>
          s.Handle(s.channel[0], success).(
            channel := s.channel[1..], failures := s.failures - {run},
            replies := s.replies + [Reply(run, if success then Some(LostLines(s.failures, run)) else None)])
  }

  function After(s: State, steps: seq<Move>): State {
    if steps == [] then s else Next(After(s, steps[..|steps| - 1]), steps[|steps| - 1])
  }

  lemma {:induction false} AfterConcat(s: State, first: seq<Move>, second: seq<Move>)
    ensures After(s, first + second) == After(After(s, first), second)
  {
    if second == [] {
      assert first + second == first;
    } else {
      AfterConcat(s, first, second[..|second| - 1]);
      assert (first + second)[..|first + second| - 1] == first + second[..|second| - 1];
    }
  }

  /** Every step of every thread keeps the accounting. */
  lemma NextIsSound(s: State, move: Move)
    requires s.Sound()
    ensures Next(s, move).Sound() && Next(s, move).queuedBytes >= 0
  {
    BytesStayRight(s, move);
    if move.WriterMove? {
      WriterKeepsLedger(s, move.success);
    }
  }

  lemma BytesStayRight(s: State, move: Move)
    requires s.BytesAgree()
    ensures Next(s, move).BytesAgree()
  {
    hide NextOfWriter, Lengths, StepsFor, Commands;
    match move
    case ReserveMove(p, line) =>
      if p !in s.inFlight {
        FlightStarts(s.inFlight, p, line);
      }
    case SendMove(p) =>
      if p in s.inFlight {
        FlightEnds(s.inFlight, p);
        ChannelBytesPush(s.channel, Transcript(s.inFlight[p]));
      }
    case RefundMove(p) =>
      if p in s.inFlight {
        FlightEnds(s.inFlight, p);
      }
    case FinishMove(run) => ChannelBytesPush(s.channel, Finish(run));
    case DisconnectMove =>
    case WriterMove(success) => WriterKeepsBytes(s, success);
  }

  lemma WriterKeepsBytes(s: State, success: bool)
    requires s.BytesAgree()
    ensures NextOfWriter(s, success).BytesAgree()
  {
    hide Lengths;
  }

  lemma WriterKeepsLedger(s: State, success: bool)
    requires s.InOrder() && s.LossesAgree() && Answers(s.history, s.replies)
    ensures
      var t := NextOfWriter(s, success);
      t.InOrder() && t.LossesAgree() && Answers(t.history, t.replies)
  {
    hide Answers, LinesSince, PersistedSince, AcceptedSince, LostSince, Commands;
    match s.writer
    case Writing(line) =>
      LineIsHandled(s.history, s.replies, Handled(Transcript(line), success));
    case Releasing(_) =>
    case Waiting =>
      if s.channel != [] {
        assert s.channel == [s.channel[0]] + s.channel[1..];
        if s.channel[0].Finish? {
          FinishIsHandled(s.history, s.replies, Handled(s.channel[0], success), s.failures);
        }
      }
  }

  lemma FinishIsHandled(history: seq<Handled>, replies: seq<Reply>, h: Handled, failures: map<string, nat>)
    requires h.command.Finish? && Answers(history, replies)
    requires forall run :: LostLines(failures, run) == LostSince(history, run)
    ensures Commands(history + [h]) == Commands(history) + [h.command]
    ensures forall run :: LostLines(failures - {h.command.run}, run) == LostSince(history + [h], run)
    ensures
      var run := h.command.run;
      Answers(history + [h], replies + [Reply(run, if h.succeeded then Some(LostLines(failures, run)) else None)])
  {
    hide Answers, LinesSince, PersistedSince, AcceptedSince, LostSince, Commands;
    var run := h.command.run;
    LostAfter(history, h);
    CommandsAppend(history, h);
    EveryLineIsAccounted(history, run);
    HandledWasAccepted(history, run);
    AnswersGrow(history, h, replies, Reply(run, if h.succeeded then Some(LostLines(failures, run)) else None));
  }

  lemma LineIsHandled(history: seq<Handled>, replies: seq<Reply>, h: Handled)
    requires h.command.Transcript? && Answers(history, replies)
    ensures Commands(history + [h]) == Commands(history) + [h.command]
    ensures forall run :: LostSince(history + [h], run) == NextLost(LostSince(history, run), h, run)
    ensures Answers(history + [h], replies)
  {
    LostAfter(history, h);
    CommandsAppend(history, h);
    AnswersGrow(history, h, replies, Reply([], None));
  }

  lemma {:induction false} AfterIsSound(s: State, steps: seq<Move>)
    requires s.Sound()
    ensures After(s, steps).Sound()
  {
    hide Next;
    if steps != [] {
      AfterIsSound(s, steps[..|steps| - 1]);
      NextIsSound(After(s, steps[..|steps| - 1]), steps[|steps| - 1]);
    }
  }

  /** Command `k` was handled in step `i`, which the writer met with the recorded outcome. */
  ghost predicate HandledIn(s: State, steps: seq<Move>, k: nat, i: nat) {
    && i < |steps| && k < |After(s, steps).history|
    && |After(s, steps[..i]).history| <= k < |After(s, steps[..i + 1]).history|
    && steps[i] == WriterMove(After(s, steps).history[k].succeeded)
  }

  ghost predicate WasHandled(s: State, steps: seq<Move>, k: nat) {
    exists i: nat :: HandledIn(s, steps, k, i)
  }

  /** The history grows by the commands that the writer handles, each recorded with its own outcome. */
  lemma {:induction false} HandledAsTold(s: State, steps: seq<Move>)
    ensures s.history <= After(s, steps).history
    ensures forall k: nat :: |s.history| <= k < |After(s, steps).history| ==> WasHandled(s, steps, k)
  {
    hide Next;
    if steps != [] {
      var last := |steps| - 1;
      var before := After(s, steps[..last]);
      HandledAsTold(s, steps[..last]);
      StepHandles(before, steps[last]);
      assert steps[..last + 1] == steps;
      forall k: nat | |s.history| <= k < |After(s, steps).history| ensures WasHandled(s, steps, k) {
        if k < |before.history| {
          assert WasHandled(s, steps[..last], k);
          var i: nat :| HandledIn(s, steps[..last], k, i);
          assert steps[..last][..i] == steps[..i] && steps[..last][..i + 1] == steps[..i + 1];
          assert HandledIn(s, steps, k, i);
        } else {
          assert HandledIn(s, steps, k, last);
        }
      }
    }
  }

  /** A step handles at most one command, with the outcome that the writer met in it. */
  lemma StepHandles(s: State, move: Move)
    ensures
      var t := Next(s, move);
      t.history == s.history
      || (|t.history| == |s.history| + 1 && s.history <= t.history && move == WriterMove(t.history[|s.history|].succeeded))
  {
  }

  // ----- The writer makes progress

  /** The writer's steps until this command has been handled. */
  function StepsFor(channel: seq<Command>): nat {
    if channel == [] then 0 else (if channel[0].Transcript? then 3 else 1) + StepsFor(channel[1..])
  }

  function Pending(s: State): nat {
    StepsFor(s.channel) + (match s.writer case Waiting => 0 case Writing(_) => 2 case Releasing(_) => 1)
  }

  /** Without other steps in between, each step of the writer brings it closer to the end of its work. */
  lemma {:induction false} WriterAdvances(s: State, steps: seq<Move>)
    requires forall i :: 0 <= i < |steps| ==> steps[i].WriterMove?
    ensures Pending(After(s, steps)) == (if Pending(s) < |steps| then 0 else Pending(s) - |steps|)
    ensures After(s, steps).accepted == s.accepted
  {
    if steps != [] {
      WriterAdvances(s, steps[..|steps| - 1]);
    }
  }

  /** A writer that goes on long enough handles everything that was accepted, in order, and gives all bytes back. */
  lemma WriterDrains(s: State, steps: seq<Move>)
    requires s.Sound() && |steps| >= Pending(s)
    requires forall i :: 0 <= i < |steps| ==> steps[i].WriterMove?
    ensures
      var t := After(s, steps);
      && Commands(t.history) == s.accepted && t.channel == [] && t.writer.Waiting?
      && t.queuedBytes == Sum(Lengths(t.inFlight))
  {
    hide LostSince, Answers, Commands;
    WriterAdvances(s, steps);
    AfterIsSound(s, steps);
    var t := After(s, steps);
    assert Commands(t.history) + [] == Commands(t.history);
  }

  /** Once the logger is gone nothing more is accepted; what was accepted is still handled. */
  lemma {:induction false} DisconnectedAcceptsNothing(s: State, steps: seq<Move>)
    ensures
      var t := After(Next(s, DisconnectMove), steps);
      !t.connected && t.accepted == s.accepted
  {
    if steps != [] {
      DisconnectedAcceptsNothing(s, steps[..|steps| - 1]);
    }
  }

  /** A line and the Finish of its run, offered one after the other. */
  function Offered(producer: nat, line: Line): seq<Move> {
    [ReserveMove(producer, line), SendMove(producer), FinishMove(line.run)]
  }

  lemma AfterOne(s: State, steps: seq<Move>, move: Move)
    ensures After(s, steps + [move]) == Next(After(s, steps), move) && After(s, []) == s
  {
    assert (steps + [move])[..|steps|] == steps;
  }

  lemma OfferedIsAccepted(s: State, producer: nat, line: Line)
    requires s.connected && |s.channel| + 2 <= QUEUE_LINES
    requires producer !in s.inFlight && s.queuedBytes + line.length <= QUEUE_BYTES
    ensures
      var t := After(s, Offered(producer, line));
      t.accepted == s.accepted + [Transcript(line), Finish(line.run)] && Pending(t) == Pending(s) + 4
  {
    hide After;
    var steps := Offered(producer, line);
    var s1 := Next(s, ReserveMove(producer, line));
    var s2 := Next(s1, SendMove(producer));
    AfterOne(s, [], ReserveMove(producer, line));
    AfterOne(s, [ReserveMove(producer, line)], SendMove(producer));
    AfterOne(s, [ReserveMove(producer, line), SendMove(producer)], FinishMove(line.run));
    assert [] + [ReserveMove(producer, line)] == [ReserveMove(producer, line)];
    assert [ReserveMove(producer, line)] + [SendMove(producer)] == [ReserveMove(producer, line), SendMove(producer)];
    assert [ReserveMove(producer, line), SendMove(producer)] + [FinishMove(line.run)] == steps;
    StepsForPush(s.channel, Transcript(line));
    StepsForPush(s2.channel, Finish(line.run));
    assert s2.accepted + [Finish(line.run)] == s.accepted + [Transcript(line), Finish(line.run)];
  }

  lemma {:induction false} StepsForPush(channel: seq<Command>, c: Command)
    ensures StepsFor(channel + [c]) == StepsFor(channel) + (if c.Transcript? then 3 else 1)
  {
    if channel == [] {
      assert channel + [c] == [c];
    } else {
      StepsForPush(channel[1..], c);
      assert (channel + [c])[1..] == channel[1..] + [c];
    }
  }

  lemma LastIsAnswered(history: seq<Handled>, replies: seq<Reply>)
    requires Answers(history, replies) && history != [] && history[|history| - 1].command.Finish?
    ensures replies != [] && IsTrue(history[..|history| - 1], history[|history| - 1], replies[|replies| - 1])
  {
  }

  /**
   A line and the Finish of its run that find room are handled behind everything accepted before,
   and the Finish gets its own true reply: a count if and only if its flush worked.
   */
  lemma FinishIsAnswered(s: State, producer: nat, line: Line, steps: seq<Move>)
    requires s.Sound() && s.connected && |s.channel| + 2 <= QUEUE_LINES
    requires producer !in s.inFlight && s.queuedBytes + line.length <= QUEUE_BYTES
    requires |steps| >= Pending(s) + 4
    requires forall i :: 0 <= i < |steps| ==> steps[i].WriterMove?
    ensures
      var t := After(s, Offered(producer, line) + steps);
      && Commands(t.history) == s.accepted + [Transcript(line), Finish(line.run)]
      && t.replies != [] && t.replies[|t.replies| - 1].run == line.run
      && IsTrue(t.history[..|t.history| - 1], t.history[|t.history| - 1], t.replies[|t.replies| - 1])
      && WasHandled(s, Offered(producer, line) + steps, |t.history| - 1)
  {
    hide Next, Offered, Answers, IsTrue, Pending, WasHandled, State.BytesAgree, State.LossesAgree;
    var offered := Offered(producer, line);
    OfferedIsAccepted(s, producer, line);
    AfterIsSound(s, offered);
    AfterConcat(s, offered, steps);
    WriterDrains(After(s, offered), steps);
    AfterIsSound(After(s, offered), steps);
    var t := After(s, offered + steps);
    assert t.history[|t.history| - 1].command == Commands(t.history)[|t.history| - 1] == Finish(line.run);
    LastIsAnswered(t.history, t.replies);
    IsOfItsRun(t.history[..|t.history| - 1], t.history[|t.history| - 1], t.replies[|t.replies| - 1]);
    HandledAsTold(s, offered + steps);
    assert |s.history| < |t.history|;
  }

  lemma IsOfItsRun(before: seq<Handled>, finish: Handled, reply: Reply)
    requires IsTrue(before, finish, reply)
    ensures finish.command == Finish(reply.run)
  {
  }

  lemma FinishIsTrue(s: State, flushed: bool)
    requires s.Sound() && s.writer.Waiting? && s.channel != [] && s.channel[0].Finish?
    ensures
      var t := NextOfWriter(s, flushed);
      t.replies != [] && IsTrue(s.history, Handled(s.channel[0], flushed), t.replies[|s.replies|])
    ensures Commands(s.history) + [s.channel[0]] <= s.accepted
  {
    hide IsTrue;
    NextIsSound(s, WriterMove(flushed));
    var t := NextOfWriter(s, flushed);
    LastIsAnswered(t.history, t.replies);
    assert t.history[..|t.history| - 1] == s.history;
  }

  class Queue {
    var queuedBytes: nat
    var channel: seq<Command>
    var inFlight: map<nat, Line>
    var writer: Writer
    var failures: map<string, nat>
    var connected: bool
    ghost var accepted: seq<Command>
    ghost var history: seq<Handled>
    ghost var replies: seq<Reply>

    ghost function Now(): State reads this {
      State(queuedBytes, channel, inFlight, writer, failures, connected, accepted, history, replies)
    }

    ghost predicate Valid() reads this { Now().Sound() }

    constructor ()
      ensures Valid() && Now() == State(0, [], map[], Waiting, map[], true, [], [], [])
    {
      queuedBytes, channel, inFlight, writer, failures, connected := 0, [], map[], Waiting, map[], true;
      accepted, history, replies := [], [], [];
    }

    /** A producer reserves the bytes of a rendered line, or drops the line. */
    method Reserve(producer: nat, line: Line) returns (ok: bool)
      requires Valid() && producer !in inFlight
      modifies this`queuedBytes, this`inFlight
      ensures Valid() && Now() == Next(old(Now()), ReserveMove(producer, line))
      ensures ok <==> old(queuedBytes) + line.length <= QUEUE_BYTES
      ensures inFlight == if ok then old(inFlight)[producer := line] else old(inFlight)
      ensures queuedBytes == if ok then old(queuedBytes) + line.length else old(queuedBytes)
    {
      hide LostSince, Answers, Commands;
      NextIsSound(Now(), ReserveMove(producer, line));
      ok := SaturatingAdd(queuedBytes, line.length) <= QUEUE_BYTES;
      if ok {
        queuedBytes := queuedBytes + line.length;
        inFlight := inFlight[producer := line];
      }
    }

    /** The producer offers its line to the channel without blocking. */
    method TrySend(producer: nat) returns (sent: bool)
      requires Valid() && producer in inFlight
      modifies this`channel, this`inFlight, this`accepted
      ensures Valid() && Now() == Next(old(Now()), SendMove(producer))
      ensures sent <==> connected && |old(channel)| < QUEUE_LINES
      ensures sent ==> inFlight == old(inFlight) - {producer}
      ensures sent ==>
        var command := Transcript(old(inFlight)[producer]);
        accepted == old(accepted) + [command] && channel == old(channel) + [command]
      ensures !sent ==> inFlight == old(inFlight) && accepted == old(accepted) && channel == old(channel)
    {
      hide LostSince, Answers, Commands;
      NextIsSound(Now(), SendMove(producer));
      sent := connected && |channel| < QUEUE_LINES;
      if sent {
        var command := Transcript(inFlight[producer]);
        channel, inFlight := channel + [command], inFlight - {producer};
        accepted := accepted + [command];
      }
    }

    /** After a refused send the producer gives its bytes back; they are still counted. */
    method Refund(producer: nat)
      requires Valid() && producer in inFlight
      modifies this`queuedBytes, this`inFlight
      ensures Valid() && Now() == Next(old(Now()), RefundMove(producer))
      ensures inFlight == old(inFlight) - {producer}
      ensures old(queuedBytes) == queuedBytes + old(inFlight)[producer].length
    {
      hide LostSince, Answers, Commands;
      NextIsSound(Now(), RefundMove(producer));
      queuedBytes := queuedBytes - inFlight[producer].length;
      inFlight := inFlight - {producer};
    }

    method TryFinish(run: string) returns (sent: bool)
      requires Valid()
      modifies this`channel, this`accepted
      ensures Valid() && Now() == Next(old(Now()), FinishMove(run))
      ensures sent <==> connected && |old(channel)| < QUEUE_LINES
      ensures accepted == if sent then old(accepted) + [Finish(run)] else old(accepted)
      ensures channel == if sent then old(channel) + [Finish(run)] else old(channel)
    {
      hide LostSince, Answers, Commands;
      NextIsSound(Now(), FinishMove(run));
      sent := connected && |channel| < QUEUE_LINES;
      if sent {
        channel := channel + [Finish(run)];
        accepted := accepted + [Finish(run)];
      }
    }

    /** The writer takes the next line from the channel. */
    method TakeLine(ghost success: bool)
      requires Valid() && writer.Waiting? && channel != [] && channel[0].Transcript?
      modifies this`channel, this`writer
      ensures Valid() && Now() == NextOfWriter(old(Now()), success)
      ensures writer == Writing(old(channel)[0].line) && channel == old(channel)[1..]
    {
      hide LostSince, Answers, Commands;
      NextIsSound(Now(), WriterMove(success));
      writer := Writing(channel[0].line);
      channel := channel[1..];
    }

    /** The line was written, or counted as a failure of its run. */
    method WriteLine(persisted: bool)
      requires Valid() && writer.Writing?
      modifies this`writer, this`failures, this`history
      ensures Valid() && Now() == NextOfWriter(old(Now()), persisted)
      ensures writer == Releasing(old(writer).line.length)
      ensures history == old(history) + [Handled(Transcript(old(writer).line), persisted)]
      ensures failures ==
        if persisted then old(failures)
        else old(failures)[old(writer).line.run := LostLines(old(failures), old(writer).line.run) + 1]
    {
      hide LostSince, Answers, Commands;
      NextIsSound(Now(), WriterMove(persisted));
      var run := writer.line.run;
      history := history + [Handled(Transcript(writer.line), persisted)];
      if !persisted {
        failures := failures[run := (if run in failures then failures[run] else 0) + 1];
      }
      writer := Releasing(writer.line.length);
    }

    /** Only then do the bytes leave the counter, which never underflows. */
    method ReleaseLine(ghost success: bool)
      requires Valid() && writer.Releasing?
      modifies this`queuedBytes, this`writer
      ensures Valid() && Now() == NextOfWriter(old(Now()), success)
      ensures writer.Waiting? && old(queuedBytes) == queuedBytes + old(writer).length
    {
      hide LostSince, Answers, Commands;
      NextIsSound(Now(), WriterMove(success));
      queuedBytes := queuedBytes - writer.length;
      writer := Waiting;
    }

    /**
     The writer handles a run's Finish.  Everything accepted for the run since its previous
     Finish has been handled by then, in order, and the reply accounts for all of it.
     */
    method HandleFinish(flushed: bool) returns (reply: Option<nat>)
      requires Valid() && writer.Waiting? && channel != [] && channel[0].Finish?
      modifies this`channel, this`failures, this`history, this`replies
      ensures Valid() && Now() == NextOfWriter(old(Now()), flushed)
      ensures replies == old(replies) + [Reply(old(channel)[0].run, reply)]
      ensures Commands(old(history)) + [old(channel)[0]] <= accepted
      ensures IsTrue(old(history), Handled(old(channel)[0], flushed), Reply(old(channel)[0].run, reply))
    {
      hide LostSince, Answers, Commands, IsTrue;
      NextIsSound(Now(), WriterMove(flushed));
      FinishIsTrue(Now(), flushed);
      var run := channel[0].run;
      var failed := if run in failures then failures[run] else 0;
      failures := failures - {run};
      reply := if flushed then Some(failed) else None;
      history := history + [Handled(Finish(run), flushed)];
      channel := channel[1..];
      replies := replies + [Reply(run, reply)];
    }

    /** The logger goes away: nothing more is accepted, and the writer drains the channel. */
    method Disconnect()
      requires Valid()
      modifies this`connected
      ensures Valid() && Now() == Next(old(Now()), DisconnectMove) && !connected
    {
      NextIsSound(Now(), DisconnectMove);
      connected := false;
    }

    /**
     Any interleaving of producers and writer keeps the accounting, loses nothing that was accepted,
     handles it in order, and gives each Finish its true reply.
     */
    method Interleave(steps: seq<Move>) returns (answers: seq<Reply>)
      requires Valid()
      modifies this
      ensures Valid() && Now() == After(old(Now()), steps)
      ensures old(accepted) <= accepted && old(history) <= history
      ensures replies == old(replies) + answers && Answers(history, replies)
      ensures forall k: nat :: |old(history)| <= k < |history| ==> WasHandled(old(Now()), steps, k)
    {
      hide Answers, Next, State.BytesAgree, State.InOrder, State.LossesAgree;
      answers := [];
      for i := 0 to |steps|
        invariant Valid() && Now() == After(old(Now()), steps[..i])
        invariant old(accepted) <= accepted && replies == old(replies) + answers
      {
        var more := Perform(steps[i]);
        answers := answers + more;
        assert steps[..i + 1][..i] == steps[..i];
      }
      assert steps[..|steps|] == steps;
      HandledAsTold(old(Now()), steps);
    }

    /** One step of the writer, which answers the Finish that it handles. */
    method Write(success: bool) returns (answers: seq<Reply>)
      requires Valid()
      modifies this
      ensures Valid() && Now() == NextOfWriter(old(Now()), success)
      ensures accepted == old(accepted) && replies == old(replies) + answers
    {
      hide State.Sound;
      answers := [];
      if writer.Writing? {
        WriteLine(success);
      } else if writer.Releasing? {
        ReleaseLine(success);
      } else if channel != [] {
        if channel[0].Transcript? {
          TakeLine(success);
        } else {
          var run := channel[0].run;
          var lost := HandleFinish(success);
          answers := [Reply(run, lost)];
        }
      }
    }

    /** One step of one thread; a step that its thread cannot take does nothing. */
    method Perform(move: Move) returns (answers: seq<Reply>)
      requires Valid()
      modifies this
      ensures Valid() && Now() == Next(old(Now()), move)
      ensures old(accepted) <= accepted && replies == old(replies) + answers
    {
      hide State.Sound, NextOfWriter;
      answers := [];
      match move
      case ReserveMove(p, line) =>
        if p !in inFlight {
          var _ := Reserve(p, line);
        }
      case SendMove(p) =>
        if p in inFlight {
          var _ := TrySend(p);
        }
      case RefundMove(p) =>
        if p in inFlight {
          Refund(p);
        }
      case FinishMove(run) =>
        var _ := TryFinish(run);
      case DisconnectMove => Disconnect();
      case WriterMove(success) => answers := Write(success);
    }
  }
}
