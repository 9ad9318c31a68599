/** The admission budget for fetched pages that both sides of one verification share. */
module StateBudget {
  import opened Decimal
  import opened ImapServer

  const MAX_ESTIMATED_FETCHED_STATE_BYTES := 256 * 1024 * 1024

  /** What a side does to the shared counter through its reservation. */
  datatype Operation =
    | Reserve(side: Side, bytes: nat)
    | Release(side: Side, bytes: nat)
    | Discard(side: Side)
    | Commit(side: Side)

  function Other(side: Side): Side { if side.Source? then Destination else Source }

  function Total(sizes: seq<nat>): nat {
    if sizes == [] then 0 else Total(sizes[..|sizes| - 1]) + sizes[|sizes| - 1]
  }

  lemma {:induction false} TotalGrows(sizes: seq<nat>, n: nat)
    requires n <= |sizes|
    ensures Total(sizes[..n]) <= Total(sizes)
  {
    if n == |sizes| {
      assert sizes[..n] == sizes;
    } else {
      TotalGrows(sizes[..|sizes| - 1], n);
      assert sizes[..|sizes| - 1][..n] == sizes[..n];
    }
  }

  // ----- The counter as a value

  function Share(shares: map<Side, nat>, side: Side): nat { if side in shares then shares[side] else 0 }

  /** The counter, each side's live reservation, and what committed reservations left on the counter for good. */
  datatype Ledger = Ledger(bytes: int, reserved: map<Side, nat>, leaked: map<Side, nat>) {
    /** The counter is the sum of the live reservations and what was left behind, below its ceiling. */
    ghost predicate Sound() {
      && Source in reserved && Destination in reserved && Source in leaked && Destination in leaked
      && bytes == reserved[Source] + reserved[Destination] + leaked[Source] + leaked[Destination]
      && bytes <= MAX_ESTIMATED_FETCHED_STATE_BYTES
    }
  }

  function Settle(l: Ledger, o: Operation): Ledger {
    var held := Share(l.reserved, o.side);
    match o
    case Reserve(side, bytes) =>
      if l.bytes + bytes > MAX_ESTIMATED_FETCHED_STATE_BYTES then l
      else l.(bytes := l.bytes + bytes, reserved := l.reserved[side := held + bytes])
    case Release(side, bytes) =>
      var released := if bytes <= held then bytes else held;
      l.(bytes := l.bytes - released, reserved := l.reserved[side := held - released])
    case Discard(side) => l.(bytes := l.bytes - held, reserved := l.reserved[side := 0])
    case Commit(side) =>
      l.(reserved := l.reserved[side := 0], leaked := l.leaked[side := Share(l.leaked, side) + held])
  }

  function SettleAll(l: Ledger, operations: seq<Operation>): Ledger {
    if operations == [] then l
    else Settle(SettleAll(l, operations[..|operations| - 1]), operations[|operations| - 1])
  }

  /** Each operation keeps the counter exact, and the other side's share as it is; only a commit leaves anything behind. */
  lemma SettleIsSound(l: Ledger, o: Operation)
    requires l.Sound()
    ensures Settle(l, o).Sound() && Settle(l, o).bytes >= 0
    ensures forall side :: side != o.side ==>
      && Share(Settle(l, o).reserved, side) == Share(l.reserved, side)
      && Share(Settle(l, o).leaked, side) == Share(l.leaked, side)
    ensures !o.Commit? ==> Settle(l, o).leaked == l.leaked
  {
    assert o.side == Source || o.side == Destination;
  }

  lemma {:induction false} SidesKeepTheirShare(l: Ledger, operations: seq<Operation>, side: Side)
    requires l.Sound()
    ensures SettleAll(l, operations).Sound()
    ensures (forall o :: o in operations ==> o.side != side) ==>
      Share(SettleAll(l, operations).reserved, side) == Share(l.reserved, side)
    ensures Commit(side) !in operations ==> Share(SettleAll(l, operations).leaked, side) == Share(l.leaked, side)
  {
    hide Settle, Ledger.Sound;
    if operations != [] {
      var rest, last := operations[..|operations| - 1], operations[|operations| - 1];
      assert last in operations && forall o :: o in rest ==> o in operations;
      SidesKeepTheirShare(l, rest, side);
      SettleIsSound(SettleAll(l, rest), last);
    }
  }

  class MessageStateBudget {
    var estimatedBytes: nat
    /** The bytes of each side's live reservation. */
    var reserved: map<Side, nat>
    ghost var leaked: map<Side, nat>
    /** What the other side does before each of this side's reservations. */
    var rival: seq<seq<Operation>>
    /** The two sides take turns: neither runs while the other scans. */
    const serial: bool

    ghost function Now(): Ledger reads this { Ledger(estimatedBytes, reserved, leaked) }

    ghost predicate Valid() reads this {
      Now().Sound() && (serial ==> rival == [])
    }

    /** Nothing is reserved or leaked, and no other scan will come in between. */
    ghost predicate IsIdle() reads this { rival == [] && estimatedBytes == 0 }

    /** The bytes that one side's reservation holds. */
    function Held(side: Side): nat reads this { Share(reserved, side) }

    ghost function Leaked(side: Side): nat reads this { Share(leaked, side) }

    constructor (rival: seq<seq<Operation>>)
      ensures Valid() && estimatedBytes == 0 && this.rival == rival && (serial <==> rival == [])
      ensures forall side :: Held(side) == Leaked(side) == 0
    {
      this.estimatedBytes := 0;
      this.reserved, this.leaked := map[Source := 0, Destination := 0], map[Source := 0, Destination := 0];
      this.rival, this.serial := rival, rival == [];
    }

    method ReserveBytes(side: Side, bytes: nat) returns (ok: bool)
      requires Valid()
      modifies this`estimatedBytes, this`reserved
      ensures Valid() && Now() == Settle(old(Now()), Reserve(side, bytes))
      ensures ok <==> old(estimatedBytes) + bytes <= MAX_ESTIMATED_FETCHED_STATE_BYTES
      ensures estimatedBytes == old(estimatedBytes) + if ok then bytes else 0
      ensures reserved == if ok then old(reserved)[side := old(reserved)[side] + bytes] else old(reserved)
    {
      var next := estimatedBytes + bytes;
      ok := next <= U64_MAX && next <= MAX_ESTIMATED_FETCHED_STATE_BYTES;
      if ok {
        estimatedBytes := next;
        reserved := reserved[side := SaturatingAdd(reserved[side], bytes)];
      }
    }

    /** Never gives back more than the reservation holds, so the counter cannot underflow. */
    method ReleaseBytes(side: Side, bytes: nat)
      requires Valid()
      modifies this`estimatedBytes, this`reserved
      ensures Valid() && Now() == Settle(old(Now()), Release(side, bytes))
      ensures reserved == old(reserved)[side := SaturatingSub(old(reserved)[side], bytes)]
      ensures bytes <= old(reserved)[side] ==> estimatedBytes + bytes == old(estimatedBytes)
    {
      var released := if bytes <= reserved[side] then bytes else reserved[side];
      reserved := reserved[side := reserved[side] - released];
      estimatedBytes := estimatedBytes - released;
    }

    /** Dropping an uncommitted reservation returns all of it. */
    method DropReservation(side: Side)
      requires Valid()
      modifies this`estimatedBytes, this`reserved
      ensures Valid() && Now() == Settle(old(Now()), Discard(side))
      ensures reserved == old(reserved)[side := 0] && estimatedBytes + old(reserved)[side] == old(estimatedBytes)
    {
      estimatedBytes := estimatedBytes - reserved[side];
      reserved := reserved[side := 0];
    }

    /** Committing forgets the reservation without returning it. */
    method CommitReservation(side: Side)
      requires Valid()
      modifies this`reserved, this`leaked
      ensures Valid() && Now() == Settle(old(Now()), Commit(side)) && reserved == old(reserved)[side := 0]
      ensures leaked == old(leaked)[side := old(leaked)[side] + old(reserved)[side]]
    {
      leaked := leaked[side := leaked[side] + reserved[side]];
      reserved := reserved[side := 0];
    }

    /** Any interleaving of the two sides' operations conserves the counter, a side that
        takes no part keeps its reservation, and only a side that commits leaks anything. */
    method Interleave(operations: seq<Operation>)
      requires Valid()
      modifies this`estimatedBytes, this`reserved, this`leaked
      ensures Valid() && Now() == SettleAll(old(Now()), operations)
      ensures forall side :: (forall o :: o in operations ==> o.side != side) ==> Held(side) == old(Held(side))
      ensures forall side :: Commit(side) !in operations ==> Leaked(side) == old(Leaked(side))
    {
      hide Settle, Ledger.Sound;
      for i := 0 to |operations|
        invariant Valid() && Now() == SettleAll(old(Now()), operations[..i])
      {
        assert operations[..i + 1][..i] == operations[..i];
        match operations[i]
        case Reserve(side, bytes) => var _ := ReserveBytes(side, bytes);
        case Release(side, bytes) => ReleaseBytes(side, bytes);
        case Discard(side) => DropReservation(side);
        case Commit(side) => CommitReservation(side);
      }
      assert operations[..|operations|] == operations;
      forall side
        ensures (forall o :: o in operations ==> o.side != side) ==> Held(side) == old(Held(side))
        ensures Commit(side) !in operations ==> Leaked(side) == old(Leaked(side))
      {
        SidesKeepTheirShare(old(Now()), operations, side);
      }
    }

    /** The other side runs for a while. */
    method RivalRuns(side: Side)
      requires Valid()
      modifies this`estimatedBytes, this`reserved, this`leaked, this`rival
      ensures Valid() && Held(side) == old(Held(side)) && Leaked(side) == old(Leaked(side))
      ensures rival == if old(rival) == [] then [] else old(rival)[1..]
      ensures Now() ==
        if old(rival) != [] && (forall o :: o in old(rival)[0] ==> o.side != side)
        then SettleAll(old(Now()), old(rival)[0]) else old(Now())
    {
      hide Ledger.Sound;
      if rival != [] {
        var plan := rival[0];
        rival := rival[1..];
        if forall o :: o in plan ==> o.side != side {
          Interleave(plan);
        }
      }
    }

    /** Reserve a page record by record; the other side may run between any two. */
    method ReservePage(side: Side, sizes: seq<nat>) returns (ok: bool)
      requires Valid()
      modifies this`estimatedBytes, this`reserved, this`leaked, this`rival
      ensures Valid() && Leaked(side) == old(Leaked(side))
      ensures ok ==> Held(side) == old(Held(side)) + Total(sizes)
      ensures !ok ==> exists i :: 0 <= i < |sizes| && estimatedBytes + sizes[i] > MAX_ESTIMATED_FETCHED_STATE_BYTES
      ensures serial ==> Held(Other(side)) == old(Held(Other(side)))
      ensures old(rival) == [] ==>
        && rival == [] && (ok <==> old(estimatedBytes) + Total(sizes) <= MAX_ESTIMATED_FETCHED_STATE_BYTES)
        && (ok ==> estimatedBytes == old(estimatedBytes) + Total(sizes))
    {
      hide Settle, SettleAll;
      for i := 0 to |sizes|
        invariant Valid() && Leaked(side) == old(Leaked(side))
        invariant Held(side) == old(Held(side)) + Total(sizes[..i])
        invariant serial ==> Held(Other(side)) == old(Held(Other(side)))
        invariant old(rival) == [] ==> rival == [] && estimatedBytes == old(estimatedBytes) + Total(sizes[..i])
      {
        assert sizes[..i + 1][..i] == sizes[..i];
        TotalGrows(sizes, i + 1);
        RivalRuns(side);
        ok := ReserveBytes(side, sizes[i]);
        if !ok {
          return;
        }
      }
      assert sizes[..|sizes|] == sizes;
      ok := true;
    }
  }
}
