/** Removal of generated credential placeholders from an argument vector. */
module Placeholders {

  datatype Outcome = Clean | Malformed | Duplicate

  datatype Removal = Removal(kept: seq<string>, occurrences: nat, malformed: bool) {

    function Outcome(): Outcome {
      if malformed then Malformed else if occurrences > 1 then Duplicate else Clean
    }

    function Then(next: Removal): Removal {
      Removal(kept + next.kept, occurrences + next.occurrences, malformed || next.malformed)
    }
  }

  const NOTHING := Removal([], 0, false)

  /** Does the token look like another option, and so not like a value? */
  predicate IsDashed(token: string) { "--" <= token }

  function Remove(args: seq<string>, option: string, placeholder: string): Removal {
    if args == [] then NOTHING
    else if args[0] != option then Removal([args[0]], 0, false).Then(Remove(args[1..], option, placeholder))
    else if |args| > 1 && args[1] == placeholder then Removal([], 1, false).Then(Remove(args[2..], option, placeholder))
    else if |args| > 1 && !IsDashed(args[1]) then Removal([], 1, true).Then(Remove(args[2..], option, placeholder))
    else Removal([], 1, true).Then(Remove(args[1..], option, placeholder))
  }

  lemma ThenAssociates(a: Removal, b: Removal, c: Removal)
    ensures a.Then(b).Then(c) == a.Then(b.Then(c))
  {
    assert a.kept + b.kept + c.kept == a.kept + (b.kept + c.kept);
  }

  /** Filter the vector in one pass, then report a malformed or duplicated pair. */
  method RemovePlaceholderOptions(args: seq<string>, option: string, placeholder: string)
      returns (filtered: seq<string>, r: Outcome)
    ensures filtered == Remove(args, option, placeholder).kept
    ensures r == Remove(args, option, placeholder).Outcome()
  {
    filtered := [];
    var occurrences, malformed, index := 0, false, 0;
    while index < |args|
      invariant index <= |args|
      invariant Removal(filtered, occurrences, malformed).Then(Remove(args[index..], option, placeholder))
             == Remove(args, option, placeholder)
      decreases |args| - index
    {
      ghost var before := Removal(filtered, occurrences, malformed);
      ghost var start := index;
      ghost var step: Removal;
      if args[index] != option {
        step := Removal([args[index]], 0, false);
        filtered := filtered + [args[index]];
        index := index + 1;
      } else {
        occurrences := occurrences + 1;
        if index + 1 < |args| && args[index + 1] == placeholder {
          step := Removal([], 1, false);
          index := index + 2;
        } else {
          malformed := true;
          step := Removal([], 1, true);
          index := if index + 1 < |args| && !IsDashed(args[index + 1]) then index + 2 else index + 1;
        }
      }
      assert Removal(filtered, occurrences, malformed) == before.Then(step);
      assert args[start..][index - start..] == args[index..];
      ThenAssociates(before, step, Remove(args[index..], option, placeholder));
    }
    assert args[index..] == [];
    r := if malformed then Malformed else if occurrences > 1 then Duplicate else Clean;
  }

  // ----- What removal means

  /** `part` is `whole` with some tokens left out. */
  ghost predicate IsSubsequence(part: seq<string>, whole: seq<string>) {
    part != [] ==> whole != [] && ((part[0] == whole[0] && IsSubsequence(part[1..], whole[1..])) || IsSubsequence(part, whole[1..]))
  }

  lemma {:induction false} SkipIsSubsequence(part: seq<string>, whole: seq<string>, n: nat)
    requires n <= |whole| && IsSubsequence(part, whole[n..])
    ensures IsSubsequence(part, whole)
    decreases n
  {
    if n > 0 && part != [] {
      assert whole[n..] == whole[1..][n - 1..];
      SkipIsSubsequence(part, whole[1..], n - 1);
    } else {
      assert whole[0..] == whole;
    }
  }

  /** No occurrence of the option survives, and what survives keeps its order. */
  lemma {:induction false} RemovalIsClean(args: seq<string>, option: string, placeholder: string)
    ensures var kept := Remove(args, option, placeholder).kept;
      option !in kept && IsSubsequence(kept, args)
    decreases |args|
  {
    if args == [] {
    } else if args[0] != option {
      RemovalIsClean(args[1..], option, placeholder);
      var rest := Remove(args[1..], option, placeholder).kept;
      assert ([args[0]] + rest)[1..] == rest;
    } else {
      var n := if |args| > 1 && (args[1] == placeholder || !IsDashed(args[1])) then 2 else 1;
      RemovalIsClean(args[n..], option, placeholder);
      var rest := Remove(args[n..], option, placeholder).kept;
      assert [] + rest == rest;
      SkipIsSubsequence(rest, args, n);
    }
  }

  lemma {:induction false} SubsequenceTokens(part: seq<string>, whole: seq<string>, token: string)
    requires IsSubsequence(part, whole) && token in part
    ensures token in whole
    decreases |whole|
  {
    if part[0] == whole[0] && IsSubsequence(part[1..], whole[1..]) {
      if token != part[0] {
        SubsequenceTokens(part[1..], whole[1..], token);
      }
    } else {
      SubsequenceTokens(part, whole[1..], token);
    }
  }

  /** Exactly one pair of the option and its placeholder, at position `i`. */
  predicate OnlyPairAt(args: seq<string>, option: string, placeholder: string, i: nat) {
    && i + 1 < |args| && args[i] == option && args[i + 1] == placeholder
    && option !in args[..i] && option !in args[i + 2..]
  }

  lemma {:induction false} AbsentIsUntouched(args: seq<string>, option: string, placeholder: string)
    requires option !in args
    ensures Remove(args, option, placeholder) == Removal(args, 0, false)
  {
    if args != [] {
      AbsentIsUntouched(args[1..], option, placeholder);
      assert [args[0]] + args[1..] == args;
    }
  }

  lemma {:induction false} OnlyPairIsRemoved(args: seq<string>, option: string, placeholder: string, i: nat)
    requires OnlyPairAt(args, option, placeholder, i)
    ensures Remove(args, option, placeholder) == Removal(args[..i] + args[i + 2..], 1, false)
  {
    if i == 0 {
      AbsentIsUntouched(args[2..], option, placeholder);
      assert args[..0] + args[2..] == args[2..];
    } else {
      var rest := args[1..];
      assert rest[..i - 1] == args[..i][1..] && rest[i + 1..] == args[i + 2..];
      assert args[0] == args[..i][0];
      OnlyPairIsRemoved(rest, option, placeholder, i - 1);
      assert [args[0]] + (rest[..i - 1] + rest[i + 1..]) == args[..i] + args[i + 2..];
    }
  }

  lemma {:induction false} NoOccurrenceIsAbsent(args: seq<string>, option: string, placeholder: string)
    requires Remove(args, option, placeholder).occurrences == 0
    ensures option !in args
  {
    if args != [] {
      NoOccurrenceIsAbsent(args[1..], option, placeholder);
    }
  }

  lemma {:induction false} CleanHasOnePair(args: seq<string>, option: string, placeholder: string) returns (i: nat)
    requires Remove(args, option, placeholder).occurrences == 1
    requires !Remove(args, option, placeholder).malformed
    ensures OnlyPairAt(args, option, placeholder, i)
  {
    if args[0] == option {
      NoOccurrenceIsAbsent(args[2..], option, placeholder);
      i := 0;
    } else {
      var j := CleanHasOnePair(args[1..], option, placeholder);
      i := j + 1;
      assert args[..i] == [args[0]] + args[1..][..j] && args[i + 2..] == args[1..][j + 2..];
    }
  }

  /** Removal succeeds exactly when the option is absent or occurs as one well-formed pair. */
  lemma RemovalSucceedsExactly(args: seq<string>, option: string, placeholder: string)
    ensures Remove(args, option, placeholder).Outcome().Clean? <==>
      option !in args || exists i: nat :: OnlyPairAt(args, option, placeholder, i)
    ensures option !in args ==> Remove(args, option, placeholder).kept == args
    ensures forall i: nat :: OnlyPairAt(args, option, placeholder, i) ==>
      Remove(args, option, placeholder).kept == args[..i] + args[i + 2..]
  {
    if option !in args {
      AbsentIsUntouched(args, option, placeholder);
    }
    forall i: nat | OnlyPairAt(args, option, placeholder, i)
      ensures Remove(args, option, placeholder) == Removal(args[..i] + args[i + 2..], 1, false)
    {
      OnlyPairIsRemoved(args, option, placeholder, i);
    }
    if Remove(args, option, placeholder).Outcome().Clean? {
      if Remove(args, option, placeholder).occurrences == 0 {
        NoOccurrenceIsAbsent(args, option, placeholder);
      } else {
        var i := CleanHasOnePair(args, option, placeholder);
      }
    }
  }

  /** An option token that is not the placeholder is a wall: removal works on both sides separately. */
  lemma {:induction false} RemovalSplits(a: seq<string>, b: seq<string>, option: string, placeholder: string)
    requires b != [] && IsDashed(b[0]) && b[0] != placeholder
    ensures Remove(a + b, option, placeholder) == Remove(a, option, placeholder).Then(Remove(b, option, placeholder))
    decreases |a|
  {
    var behind := Remove(b, option, placeholder);
    if a == [] {
      assert a + b == b;
      assert NOTHING.Then(behind) == behind;
    } else {
      var n := if a[0] == option && |a| > 1 && (a[1] == placeholder || !IsDashed(a[1])) then 2 else 1;
      assert (a + b)[n..] == a[n..] + b;
      RemovalSplits(a[n..], b, option, placeholder);
      var first := if a[0] != option then Removal([a[0]], 0, false) else Removal([], 1, n == 1 || a[1] != placeholder);
      assert |a| > 1 ==> (a + b)[1] == a[1];
      assert |a| == 1 ==> (a + b)[1] == b[0];
      ThenAssociates(first, Remove(a[n..], option, placeholder), behind);
    }
  }

  /** An option that nothing follows is malformed, whatever precedes it. */
  lemma {:induction false} DanglingIsMalformed(a: seq<string>, option: string, placeholder: string)
    requires option != placeholder
    ensures Remove(a + [option], option, placeholder).malformed
    decreases |a|
  {
    var args := a + [option];
    if a == [] {
      assert args[1..] == [];
    } else {
      var n := if a[0] == option && (args[1] == placeholder || !IsDashed(args[1])) then 2 else 1;
      if n <= |a| {
        assert args[n..] == a[n..] + [option];
        DanglingIsMalformed(a[n..], option, placeholder);
      } else {
        // The option itself was taken for a value, which is malformed already.
        assert args[1] == option;
      }
    }
  }

  // ----- Which tokens survive, malformed pairs included

  /** Tokens that are neither the option nor, right behind it, something other than an option. */
  function Survivors(args: seq<string>, option: string, behindOption: bool): seq<string> {
    if args == [] then []
    else
      (if args[0] == option || (behindOption && !IsDashed(args[0])) then [] else [args[0]])
      + Survivors(args[1..], option, args[0] == option)
  }

  predicate LacksPlaceholder(args: seq<string>, option: string, placeholder: string, i: nat)
    requires i < |args|
  {
    args[i] == option && (i + 1 == |args| || args[i + 1] != placeholder)
  }

  /**
   Whatever stands behind the option is dropped with it, as it may be a secret, unless it looks like
   another option; an occurrence without the placeholder behind it makes the vector malformed.
   */
  lemma {:induction false} RemovalKeepsSurvivors(args: seq<string>, option: string, placeholder: string)
    requires IsDashed(option) && !IsDashed(placeholder)
    ensures var removal := Remove(args, option, placeholder);
      && removal.kept == Survivors(args, option, false)
      && removal.occurrences == multiset(args)[option]
      && (removal.malformed <==> exists i: nat :: i < |args| && LacksPlaceholder(args, option, placeholder, i))
    decreases |args|
  {
    if args != [] {
      var n := if args[0] == option && |args| > 1 && !IsDashed(args[1]) then 2 else 1;
      RemovalKeepsSurvivors(args[n..], option, placeholder);
      SurvivorsFrom(args, option, n);
      CountFrom(args, option, n);
      MalformedFrom(args, option, placeholder, n);
    }
  }

  lemma SurvivorsFrom(args: seq<string>, option: string, n: nat)
    requires IsDashed(option) && args != []
    requires n == if args[0] == option && |args| > 1 && !IsDashed(args[1]) then 2 else 1
    ensures Survivors(args, option, false) ==
      (if args[0] == option then [] else [args[0]]) + Survivors(args[n..], option, false)
  {
    if n == 2 {
      assert args[1..][1..] == args[2..];
    } else if args[0] == option && |args| > 1 {
      assert IsDashed(args[1..][0]);
    }
  }

  lemma CountFrom(args: seq<string>, option: string, n: nat)
    requires args != [] && 1 <= n <= 2 && n <= |args| && (n == 2 ==> args[1] != option)
    ensures multiset(args)[option] == (if args[0] == option then 1 else 0) + multiset(args[n..])[option]
  {
    assert args == args[..n] + args[n..];
    assert n == 1 ==> args[..n] == [args[0]];
    assert n == 2 ==> args[..n] == [args[0], args[1]];
  }

  lemma MalformedFrom(args: seq<string>, option: string, placeholder: string, n: nat)
    requires args != [] && 1 <= n <= 2 && n <= |args| && (n == 2 ==> args[1] != option)
    ensures (exists i: nat :: i < |args| && LacksPlaceholder(args, option, placeholder, i)) <==>
      || LacksPlaceholder(args, option, placeholder, 0)
      || exists i: nat :: i < |args[n..]| && LacksPlaceholder(args[n..], option, placeholder, i)
  {
    forall i: nat | i < |args[n..]|
      ensures LacksPlaceholder(args[n..], option, placeholder, i) <==> LacksPlaceholder(args, option, placeholder, n + i)
    {
    }
    if i: nat :| i < |args| && LacksPlaceholder(args, option, placeholder, i) && i >= n {
      assert LacksPlaceholder(args[n..], option, placeholder, i - n);
    }
  }

  // ----- Several options in turn

  datatype Stripped = Stripped(kept: seq<string>, clean: bool)

  function Strip(args: seq<string>, options: seq<string>, placeholder: string): Stripped
    decreases |options|
  {
    if options == [] then Stripped(args, true)
    else
      var removal := Remove(args, options[0], placeholder);
      var rest := Strip(removal.kept, options[1..], placeholder);
      Stripped(rest.kept, removal.Outcome().Clean? && rest.clean)
  }

  method StripOptions(args: seq<string>, options: seq<string>, placeholder: string)
      returns (kept: seq<string>, malformed: bool)
    ensures Strip(args, options, placeholder) == Stripped(kept, !malformed)
  {
    kept, malformed := args, false;
    for i := 0 to |options|
      invariant Strip(args, options, placeholder).kept == Strip(kept, options[i..], placeholder).kept
      invariant Strip(args, options, placeholder).clean == (!malformed && Strip(kept, options[i..], placeholder).clean)
    {
      assert options[i..][1..] == options[i + 1..];
      var r: Outcome;
      kept, r := RemovePlaceholderOptions(kept, options[i], placeholder);
      malformed := malformed || !r.Clean?;
    }
    assert options[|options|..] == [];
  }

  /** Stripping leaves none of the options, whatever the vector looked like. */
  lemma {:induction false} StripLeavesNone(args: seq<string>, options: seq<string>, placeholder: string, option: string)
    requires option in options || option !in args
    ensures option !in Strip(args, options, placeholder).kept
    decreases |options|
  {
    if options != [] {
      RemovalIsClean(args, options[0], placeholder);
      var kept := Remove(args, options[0], placeholder).kept;
      if option in kept {
        SubsequenceTokens(kept, args, option);
      }
      StripLeavesNone(kept, options[1..], placeholder, option);
    }
  }
}
