/**
 Normalizing and merging of command line arguments in the daemon's configuration package.

 The one length test of the code counts UTF-8 bytes, so it is written with ByteLength.
 */
module CliArgs {
  import opened Strings
  import opened Sublists

  const FLAG_PREFIX_LONG := "--"
  const FLAG_PREFIX_SHORT := "-"
  const FLAG_VALUE_SEPARATOR: char := '='

  /** Has the short prefix; the long prefix starts with the short one, so this covers both. */
  predicate IsFlag(s: string) {
    FLAG_PREFIX_SHORT <= s
  }

  /******* Normalization *******/

  /** -xyz: a short flag group without value, expanded to one flag per letter. */
  predicate IsCombined(arg: string) {
    && FLAG_PREFIX_SHORT <= arg
    && !(FLAG_PREFIX_LONG <= arg)
    && ByteLength(arg) > 2
    && FLAG_VALUE_SEPARATOR !in arg
  }

  function Expand(letters: string): seq<string> {
    if letters == [] then [] else [[FLAG_PREFIX_SHORT[0], letters[0]]] + Expand(letters[1..])
  }

  /** A flag that takes the next argument as its value when that argument is not a flag. */
  predicate TakesNext(arg: string, rest: seq<string>) {
    && IsFlag(arg) && !IsCombined(arg) && FLAG_VALUE_SEPARATOR !in arg
    && rest != [] && !IsFlag(TrimSpace(rest[0]))
  }

  function Flags(arg: string, rest: seq<string>): seq<string> {
    if IsCombined(arg) then Expand(arg[1..])
    else if TakesNext(arg, rest) then [arg + [FLAG_VALUE_SEPARATOR] + TrimSpace(rest[0])]
    else [arg]
  }

  /** What normalizing a list does, read from the left. */
  function Normalized(args: seq<string>): seq<string> {
    if args == [] then [] else
    var arg, rest := TrimSpace(args[0]), args[1..];
    if !IsFlag(arg) then Normalized(rest)
    else Flags(arg, rest) + Normalized(if TakesNext(arg, rest) then rest[1..] else rest)
  }

  /** What processing a list with its positional arguments does, read from the left. */
  function Processed(args: seq<string>): seq<string> {
    if args == [] then [] else
    var arg, rest := TrimSpace(args[0]), args[1..];
    if !IsFlag(arg) then [arg] + Processed(rest)
    else Flags(arg, rest) + Processed(if TakesNext(arg, rest) then rest[1..] else rest)
  }

  function OnlyFlags(args: seq<string>): seq<string> {
    if args == [] then [] else (if IsFlag(args[0]) then [args[0]] else []) + OnlyFlags(args[1..])
  }

  lemma Reassociate(a: seq<string>, b: seq<string>, c: seq<string>)
    ensures (a + b) + c == a + (b + c)
  {
  }

  method ExpandShort(arg: string) returns (flags: seq<string>)
    requires arg != []
    ensures flags == Expand(arg[1..])
  {
    flags := [];
    for i := 1 to |arg|
      invariant flags + Expand(arg[i..]) == Expand(arg[1..])
    {
      flags := flags + [[FLAG_PREFIX_SHORT[0], arg[i]]];
      assert arg[i..][1..] == arg[i + 1..];
    }
  }

  method NormalizeArgs(rawArgs: seq<string>) returns (normalized: seq<string>)
    ensures normalized == Normalized(rawArgs)
  {
    hide TrimSpace, IsFlag, ByteLength, Expand;
    normalized := [];
    var i := 0;
    while i < |rawArgs|
      invariant 0 <= i <= |rawArgs|
      invariant normalized + Normalized(rawArgs[i..]) == Normalized(rawArgs)
    {
      var arg := TrimSpace(rawArgs[i]);
      var hasNext := i + 1 < |rawArgs|;
      ghost var rest := rawArgs[i + 1..];
      assert rawArgs[i..][1..] == rest && (hasNext ==> rest[1..] == rawArgs[i + 2..]);
      ghost var f := if IsFlag(arg) then Flags(arg, rest) else [];
      ghost var tail := Normalized(if TakesNext(arg, rest) then rest[1..] else rest);
      Reassociate(normalized, f, tail);
      var isShortFlag := FLAG_PREFIX_SHORT <= arg && !(FLAG_PREFIX_LONG <= arg);
      var containsValue := FLAG_VALUE_SEPARATOR in arg;

      if !IsFlag(arg) {
        // Positional arguments are excluded.
      } else if isShortFlag && ByteLength(arg) > 2 && !containsValue {
        var expanded := ExpandShort(arg);
        normalized := normalized + expanded;
      } else if containsValue {
        normalized := normalized + [arg];
      } else {
        if hasNext && !IsFlag(TrimSpace(rawArgs[i + 1])) {
          arg := arg + [FLAG_VALUE_SEPARATOR] + TrimSpace(rawArgs[i + 1]);
          i := i + 1;  // the next argument is this flag's value
        }
        normalized := normalized + [arg];
      }
      i := i + 1;
    }
  }

  /** A flag group, as collected by ProcessAllArgs, normalizes to the flags of its first argument. */
  lemma GroupNormalizes(arg: string, rest: seq<string>)
    requires IsFlag(arg) && IsTrimmed(arg) && TrimSpace(arg) == arg
    ensures Normalized(if TakesNext(arg, rest) then [arg, TrimSpace(rest[0])] else [arg]) == Flags(arg, rest)
  {
    if TakesNext(arg, rest) {
      var group := [arg, TrimSpace(rest[0])];
      TrimSpaceIsTrimmed(rest[0]);
      assert group[1..] == [TrimSpace(rest[0])] && group[1..][1..] == [];
      assert Normalized([]) == [];
    } else {
      assert [arg][1..] == [];
    }
  }

  method ProcessAllArgs(rawArgs: seq<string>) returns (result: seq<string>)
    ensures result == Processed(rawArgs)
  {
    hide TrimSpace, IsFlag, IsCombined, IsTrimmed, Normalized, Flags;
    result := [];
    if |rawArgs| == 0 { return; }
    var i := 0;
    while i < |rawArgs|
      invariant 0 <= i <= |rawArgs|
      invariant result + Processed(rawArgs[i..]) == Processed(rawArgs)
    {
      var arg := TrimSpace(rawArgs[i]);
      ghost var rest := rawArgs[i + 1..];
      assert rawArgs[i..][1..] == rest && (rest != [] ==> rest[1..] == rawArgs[i + 2..]);
      ghost var f := if IsFlag(arg) then Flags(arg, rest) else [arg];
      ghost var tail := Processed(if TakesNext(arg, rest) then rest[1..] else rest);
      Reassociate(result, f, tail);
      if IsFlag(arg) {
        var flagGroup := [arg];
        TrimSpaceIsTrimmed(rawArgs[i]);
        GroupNormalizes(arg, rest);
        // Combined short flags and flags with an embedded value do not consume the next argument.
        if !IsCombined(arg) && FLAG_VALUE_SEPARATOR !in arg && i + 1 < |rawArgs| {
          var nextArg := TrimSpace(rawArgs[i + 1]);
          if !IsFlag(nextArg) {
            flagGroup := flagGroup + [nextArg];
            i := i + 1;
          }
        }
        assert flagGroup == if TakesNext(arg, rest) then [arg, TrimSpace(rest[0])] else [arg];
        var normalizedFlags := NormalizeArgs(flagGroup);
        assert normalizedFlags == Flags(arg, rest);
        result := result + normalizedFlags;
      } else {
        result := result + [arg];
      }
      i := i + 1;
    }
  }

  lemma {:induction false} ExpandIsFlags(letters: string)
    ensures OnlyFlags(Expand(letters)) == Expand(letters)
  {
    if letters != [] {
      ExpandIsFlags(letters[1..]);
      assert Expand(letters)[1..] == Expand(letters[1..]);
    }
  }

  lemma {:induction false} OnlyFlagsConcat(a: seq<string>, b: seq<string>)
    ensures OnlyFlags(a + b) == OnlyFlags(a) + OnlyFlags(b)
  {
    if a == [] {
      assert a + b == b;
    } else {
      assert (a + b)[1..] == a[1..] + b;
      OnlyFlagsConcat(a[1..], b);
    }
  }

  lemma FlagsAreFlags(arg: string, rest: seq<string>)
    requires IsFlag(arg)
    ensures OnlyFlags(Flags(arg, rest)) == Flags(arg, rest)
  {
    if IsCombined(arg) {
      ExpandIsFlags(arg[1..]);
    } else {
      var f := Flags(arg, rest);
      assert f[1..] == [] && OnlyFlags([]) == [];
      assert IsFlag(f[0]);
    }
  }

  /** The two implementations agree: normalizing is processing without the positional arguments. */
  lemma {:induction false} NormalizedIsProcessedFlags(args: seq<string>)
    ensures Normalized(args) == OnlyFlags(Processed(args))
  {
    if args != [] {
      var arg, rest := TrimSpace(args[0]), args[1..];
      if !IsFlag(arg) {
        NormalizedIsProcessedFlags(rest);
        assert ([arg] + Processed(rest))[1..] == Processed(rest);
      } else {
        var next := if TakesNext(arg, rest) then rest[1..] else rest;
        NormalizedIsProcessedFlags(next);
        FlagsAreFlags(arg, rest);
        OnlyFlagsConcat(Flags(arg, rest), Processed(next));
      }
    }
  }

  /******* What comes out, argument by argument *******/

  /** A flag with more than one letter after a single dash and no equals sign; a letter beyond ASCII counts as several. */
  lemma CombinedIff(arg: string)
    ensures IsCombined(arg) <==>
      && |arg| >= 2 && arg[0] == '-' && arg[1] != '-' && '=' !in arg
      && (|arg| > 2 || arg[1] >= 128 as char)
  {
    assert "-" <= arg <==> |arg| >= 1 && arg[0] == '-';
    assert "--" <= arg <==> |arg| >= 2 && arg[0] == '-' && arg[1] == '-';
    if |arg| == 1 {
      assert arg[1..] == [] && ByteLength(arg) == RuneLength(arg[0]);
    } else if |arg| >= 2 {
      var rest := arg[1..][1..];
      assert ByteLength(arg) == RuneLength(arg[0]) + (RuneLength(arg[1]) + ByteLength(rest));
      LengthAtLeast(rest);
      assert |arg| == 2 ==> rest == [] && ByteLength(rest) == 0;
    }
  }

  lemma {:induction false} LengthAtLeast(s: string)
    ensures ByteLength(s) >= |s|
  {
    if s != [] { LengthAtLeast(s[1..]); }
  }

  lemma {:induction false} ExpandAt(letters: string)
    ensures |Expand(letters)| == |letters|
    ensures forall i :: 0 <= i < |letters| ==> Expand(letters)[i] == ['-', letters[i]]
  {
    if letters != [] {
      ExpandAt(letters[1..]);
      assert forall i :: 0 < i < |letters| ==> letters[i] == letters[1..][i - 1];
    }
  }

  /** Both implementations put `out` for the first `taken` arguments, and go on with the others. */
  ghost predicate BothGoOn(args: seq<string>, out: seq<string>, taken: nat)
    requires taken <= |args|
  {
    && Normalized(args) == out + Normalized(args[taken..])
    && Processed(args) == out + Processed(args[taken..])
  }

  /** Positional arguments stay where they are, or are dropped. */
  lemma PositionalStays(args: seq<string>)
    requires args != [] && !("-" <= TrimSpace(args[0]))
    ensures Normalized(args) == Normalized(args[1..])
    ensures Processed(args) == [TrimSpace(args[0])] + Processed(args[1..])
  {
    hide TrimSpace;
  }

  /** A flag with a value comes out as it is. */
  lemma FlagWithValueStays(args: seq<string>)
    requires args != [] && "-" <= TrimSpace(args[0]) && '=' in TrimSpace(args[0])
    ensures BothGoOn(args, [TrimSpace(args[0])], 1)
  {
    hide TrimSpace, ByteLength;
  }

  /** A flag is joined with the argument after it when that is no flag; the argument is taken as its value. */
  lemma FlagTakesValue(args: seq<string>)
    requires |args| >= 2 && "-" <= TrimSpace(args[0]) && '=' !in TrimSpace(args[0]) && !("-" <= TrimSpace(args[1]))
    requires "--" <= TrimSpace(args[0]) || |TrimSpace(args[0])| == 1 ||
             (|TrimSpace(args[0])| == 2 && TrimSpace(args[0])[1] < 128 as char)
    ensures BothGoOn(args, [TrimSpace(args[0]) + "=" + TrimSpace(args[1])], 2)
  {
    hide TrimSpace, IsCombined;
    CombinedIff(TrimSpace(args[0]));
    assert args[1..][1..] == args[2..];
  }

  /** A flag that is followed by another, or by nothing, stands alone. */
  lemma FlagStandsAlone(args: seq<string>)
    requires args != [] && "-" <= TrimSpace(args[0]) && '=' !in TrimSpace(args[0])
    requires |args| == 1 || "-" <= TrimSpace(args[1])
    requires "--" <= TrimSpace(args[0]) || |TrimSpace(args[0])| == 1 ||
             (|TrimSpace(args[0])| == 2 && TrimSpace(args[0])[1] < 128 as char)
    ensures BothGoOn(args, [TrimSpace(args[0])], 1)
  {
    hide TrimSpace, IsCombined;
    CombinedIff(TrimSpace(args[0]));
  }

  /** Combined short flags come out as one flag per letter, in order, and take no value. */
  lemma CombinedIsSplit(args: seq<string>)
    requires args != [] && "-" <= TrimSpace(args[0]) && !("--" <= TrimSpace(args[0])) && '=' !in TrimSpace(args[0])
    requires |TrimSpace(args[0])| > 2 || (|TrimSpace(args[0])| == 2 && TrimSpace(args[0])[1] >= 128 as char)
    ensures var flag := TrimSpace(args[0]);
      BothGoOn(args, seq(|flag| - 1, i requires 0 <= i < |flag| - 1 => ['-', flag[i + 1]]), 1)
  {
    hide TrimSpace, IsCombined, Expand;
    var flag := TrimSpace(args[0]);
    CombinedIff(flag);
    ExpandAt(flag[1..]);
    assert Expand(flag[1..]) == seq(|flag| - 1, i requires 0 <= i < |flag| - 1 => ['-', flag[i + 1]]);
  }

  /** Every argument list is of exactly one of these kinds; the empty one gives nothing. */
  lemma NothingFromNothing()
    ensures Normalized([]) == [] == Processed([])
  {
  }

  /******* Parsing and merging *******/

  datatype ArgEntry = ArgEntry(key: string, value: string) {
    predicate HasValue() { TrimSpace(value) != "" }

    function String(): string {
      if HasValue() then key + [FLAG_VALUE_SEPARATOR] + value else key
    }
  }

  /** The position of the first separator, or the length when there is none. */
  function SeparatorIndex(arg: string): (i: nat)
    ensures i <= |arg| && FLAG_VALUE_SEPARATOR !in arg[..i]
    ensures i < |arg| ==> arg[i] == FLAG_VALUE_SEPARATOR
  {
    if arg == [] || arg[0] == FLAG_VALUE_SEPARATOR then 0 else
    var i := SeparatorIndex(arg[1..]) + 1;
    assert arg[..i] == [arg[0]] + arg[1..][..i - 1];
    i
  }

  function ParseArg(arg: string): ArgEntry {
    var i := SeparatorIndex(arg);
    ArgEntry(TrimSpace(arg[..i]), if i < |arg| then TrimSpace(arg[i + 1..]) else "")
  }

  /** Later entries overwrite earlier ones with the same key. */
  function Parsed(args: seq<string>): map<string, ArgEntry> {
    if args == [] then map[] else
    var entry := ParseArg(args[|args| - 1]);
    Parsed(args[..|args| - 1])[entry.key := entry]
  }

  method ParseArgs(args: seq<string>) returns (result: map<string, ArgEntry>)
    ensures result == Parsed(args)
  {
    result := map[];
    for i := 0 to |args|
      invariant result == Parsed(args[..i])
    {
      var entry := ParseArg(args[i]);
      result := result[entry.key := entry];
      assert args[..i + 1][..i] == args[..i];
    }
    assert args[..|args|] == args;
  }

  function Keys(args: seq<string>): set<string> {
    set i | 0 <= i < |args| :: ParseArg(args[i]).key
  }

  /** An argument of the first list after the overrides are applied. */
  function Overridden(arg: string, overrides: map<string, ArgEntry>): string {
    var key := ParseArg(arg).key;
    if key in overrides then overrides[key].String() else arg
  }

  function OverriddenAll(a: seq<string>, overrides: map<string, ArgEntry>): seq<string> {
    seq(|a|, i requires 0 <= i < |a| => Overridden(a[i], overrides))
  }

  function WithoutKeys(b: seq<string>, keys: set<string>): seq<string> {
    if b == [] then [] else
    var last := b[|b| - 1];
    WithoutKeys(b[..|b| - 1], keys) + if ParseArg(last).key in keys then [] else [last]
  }

  function Merged(a: seq<string>, b: seq<string>): seq<string> {
    OverriddenAll(a, Parsed(b)) + WithoutKeys(b, Keys(a))
  }

  lemma {:induction false} TrimKeepsNoSeparator(s: string)
    requires FLAG_VALUE_SEPARATOR !in s
    ensures FLAG_VALUE_SEPARATOR !in TrimSpace(s)
  {
    var t := TrimLeft(s);
    assert forall c :: c in t ==> c in s by { TrimLeftIsSuffix(s); }
    TrimRightFacts(t);
  }

  lemma {:induction false} SeparatorIndexAfter(key: string, tail: string)
    requires FLAG_VALUE_SEPARATOR !in key
    requires tail == [] || tail[0] == FLAG_VALUE_SEPARATOR
    ensures SeparatorIndex(key + tail) == |key|
  {
    if key != [] {
      assert (key + tail)[1..] == key[1..] + tail;
      SeparatorIndexAfter(key[1..], tail);
    } else {
      assert key + tail == tail;
    }
  }

  /** Parsing the printed form of a parsed argument gives the same entry back. */
  lemma ParsePrintRoundTrip(arg: string)
    ensures ParseArg(ParseArg(arg).String()) == ParseArg(arg)
  {
    var i, entry := SeparatorIndex(arg), ParseArg(arg);
    TrimKeepsNoSeparator(arg[..i]);
    TrimSpaceIsTrimmed(arg[..i]);
    if i < |arg| { TrimSpaceIsTrimmed(arg[i + 1..]); }
    PrintedParses(entry);
  }

  lemma PrintedParses(entry: ArgEntry)
    requires FLAG_VALUE_SEPARATOR !in entry.key && TrimSpace(entry.key) == entry.key
    requires TrimSpace(entry.value) == entry.value
    ensures ParseArg(entry.String()) == entry
  {
    hide TrimSpace;
    var tail := if entry.HasValue() then [FLAG_VALUE_SEPARATOR] + entry.value else [];
    SeparatorIndexAfter(entry.key, tail);
    var printed := entry.String();
    assert printed == entry.key + tail;
    assert printed[..|entry.key|] == entry.key;
    if entry.HasValue() {
      assert printed[|entry.key| + 1..] == entry.value;
    }
  }

  method MergeArgs(a: seq<string>, b: seq<string>) returns (result: seq<string>)
    ensures result == Merged(a, b)
  {
    hide ParseArg, Parsed;
    if |b| == 0 {
      EmptyParsed();
      assert OverriddenAll(a, map[]) == a;
      return a;
    }
    if |a| == 0 {
      WithoutNoKeys(b);
      return b;
    }
    var overrides := ParseArgs(b);
    result := [];
    var processed: set<string> := {};
    for i := 0 to |a|
      invariant result == OverriddenAll(a[..i], overrides)
      invariant processed == Keys(a[..i])
    {
      var arg := a[i];
      var entry := ParseArg(arg);
      if entry.key in overrides {
        arg := overrides[entry.key].String();
      }
      result := result + [arg];
      processed := processed + {entry.key};
      KeysSnoc(a, i);
    }
    assert a[..|a|] == a;
    ghost var head := result;
    for i := 0 to |b|
      invariant result == head + WithoutKeys(b[..i], processed)
    {
      var entry := ParseArg(b[i]);
      assert b[..i + 1][..i] == b[..i];
      if entry.key !in processed {
        result := result + [b[i]];
      }
    }
    assert b[..|b|] == b;
  }

  lemma EmptyParsed()
    ensures Parsed([]) == map[]
  {
  }

  lemma KeysSnoc(a: seq<string>, i: nat)
    requires i < |a|
    ensures Keys(a[..i + 1]) == Keys(a[..i]) + {ParseArg(a[i]).key}
  {
    hide ParseArg;
    var front, all := a[..i], a[..i + 1];
    assert forall j :: 0 <= j < i ==> front[j] == all[j] == a[j];
    forall k | k in Keys(front) ensures k in Keys(all) {
      var j :| 0 <= j < i && ParseArg(front[j]).key == k;
      assert all[j] == front[j];
    }
    assert all[i] == a[i];
  }

  lemma {:induction false} WithoutNoKeys(b: seq<string>)
    ensures WithoutKeys(b, Keys([])) == b
  {
    hide ParseArg;
    if b != [] {
      WithoutNoKeys(b[..|b| - 1]);
    }
  }

  /******* What merging means for the parsed arguments *******/

  ghost predicate Consistent(entries: map<string, ArgEntry>) {
    forall k :: k in entries ==> entries[k].key == k && ParseArg(entries[k].String()) == entries[k]
  }

  lemma {:induction false} ParsedConsistent(args: seq<string>)
    ensures Consistent(Parsed(args)) && Parsed(args).Keys == Keys(args)
  {
    if args != [] {
      var n := |args| - 1;
      ParsedConsistent(args[..n]);
      ParsePrintRoundTrip(args[n]);
      KeysSnoc(args, n);
      assert args[..n + 1] == args;
    }
  }

  lemma {:induction false} ParsedConcat(a: seq<string>, b: seq<string>)
    ensures Parsed(a + b) == Parsed(a) + Parsed(b)
  {
    hide ParseArg;
    if b == [] {
      assert a + b == a;
    } else {
      var n := |b| - 1;
      assert (a + b)[..|a + b| - 1] == a + b[..n];
      ParsedConcat(a, b[..n]);
    }
  }

  lemma {:induction false} ParsedOverridden(a: seq<string>, overrides: map<string, ArgEntry>)
    requires Consistent(overrides)
    ensures Parsed(OverriddenAll(a, overrides)) ==
            map k | k in Parsed(a) :: if k in overrides then overrides[k] else Parsed(a)[k]
  {
    hide ParseArg;
    if a != [] {
      var n := |a| - 1;
      ParsedOverridden(a[..n], overrides);
      assert OverriddenAll(a, overrides)[..n] == OverriddenAll(a[..n], overrides);
    }
  }

  lemma {:induction false} ParsedWithout(b: seq<string>, keys: set<string>)
    ensures Parsed(WithoutKeys(b, keys)) == Parsed(b) - keys
  {
    hide ParseArg;
    if b != [] {
      var n := |b| - 1;
      ParsedWithout(b[..n], keys);
      var kept := WithoutKeys(b[..n], keys);
      if ParseArg(b[n]).key !in keys {
        assert (kept + [b[n]])[..|kept|] == kept;
      } else {
        assert WithoutKeys(b, keys) == kept;
      }
    }
  }

  /** Merging is map override, for all lists, including duplicates and untrimmed text. */
  lemma MergeIsOverride(a: seq<string>, b: seq<string>)
    ensures Parsed(Merged(a, b)) == Parsed(a) + Parsed(b)
  {
    hide ParseArg, Parsed, OverriddenAll, WithoutKeys, Keys;
    ParsedConsistent(a);
    ParsedConsistent(b);
    ParsedConcat(OverriddenAll(a, Parsed(b)), WithoutKeys(b, Keys(a)));
    ParsedOverridden(a, Parsed(b));
    ParsedWithout(b, Keys(a));
  }

  /** Every argument of the first list keeps its position and key; it changes only when overridden. */
  lemma MergeKeepsPositions(a: seq<string>, b: seq<string>, i: nat)
    requires i < |a|
    ensures i < |Merged(a, b)| && ParseArg(Merged(a, b)[i]).key == ParseArg(a[i]).key
    ensures ParseArg(a[i]).key !in Parsed(b) ==> Merged(a, b)[i] == a[i]
    ensures ParseArg(a[i]).key in Parsed(b) ==> ParseArg(Merged(a, b)[i]) == Parsed(b)[ParseArg(a[i]).key]
  {
    ParsedConsistent(b);
    assert Merged(a, b)[i] == Overridden(a[i], Parsed(b));
  }

  /** An argument is split at its first equals sign; both sides are trimmed. */
  lemma ParsedAtFirstSeparator(key: string, value: string)
    requires '=' !in key
    ensures ParseArg(key + "=" + value) == ArgEntry(TrimSpace(key), TrimSpace(value))
    ensures ParseArg(key) == ArgEntry(TrimSpace(key), "")
  {
    hide TrimSpace;
    SeparatorIndexAfter(key, "=" + value);
    SeparatorIndexAfter(key, []);
    var arg := key + ("=" + value);
    assert key + [] == key && key + "=" + value == arg;
    assert arg[..|key|] == key && arg[|key| + 1..] == value && key[..|key|] == key;
  }

  /** The last argument with a key decides. */
  lemma {:induction false} ParsedIsLast(args: seq<string>, i: nat)
    requires i < |args| && forall j :: i < j < |args| ==> ParseArg(args[j]).key != ParseArg(args[i]).key
    ensures ParseArg(args[i]).key in Parsed(args) && Parsed(args)[ParseArg(args[i]).key] == ParseArg(args[i])
  {
    hide ParseArg;
    if i < |args| - 1 { ParsedIsLast(args[..|args| - 1], i); }
  }

  lemma {:induction false} ParsedHasNoOther(args: seq<string>, key: string)
    ensures key in Parsed(args) <==> exists i :: 0 <= i < |args| && ParseArg(args[i]).key == key
  {
    ParsedConsistent(args);
    hide ParseArg;
  }

  /** The key of the argument is that of no argument of `a`. */
  ghost function NewTo(a: seq<string>): string -> bool {
    arg => forall j :: 0 <= j < |a| ==> ParseArg(a[j]).key != ParseArg(arg).key
  }

  /** The arguments of the second list that have new keys are appended as they are, in their order. */
  lemma NewArgumentsFollow(a: seq<string>, b: seq<string>)
    ensures |Merged(a, b)| >= |a| && IsFilter(Merged(a, b)[|a|..], b, NewTo(a))
  {
    hide ParseArg, IsFilter, WithoutKeys;
    WithoutKeysFilters(a, b);
    assert Merged(a, b)[|a|..] == WithoutKeys(b, Keys(a));
  }

  lemma {:induction false} WithoutKeysFilters(a: seq<string>, b: seq<string>)
    ensures IsFilter(WithoutKeys(b, Keys(a)), b, NewTo(a))
  {
    hide IsFilter, NewTo, Keys, ParseArg;
    if b == [] {
      NothingFiltered(NewTo(a));
    } else {
      var n := |b| - 1;
      WithoutKeysFilters(a, b[..n]);
      FilterSnoc(WithoutKeys(b[..n], Keys(a)), b[..n], b[n], NewTo(a));
      NewToMeans(a, b[n]);
      assert b == b[..n] + [b[n]];
      assert NewTo(a)(b[n]) || WithoutKeys(b, Keys(a)) == WithoutKeys(b[..n], Keys(a));
    }
  }

  lemma NewToMeans(a: seq<string>, arg: string)
    ensures NewTo(a)(arg) <==> ParseArg(arg).key !in Keys(a)
  {
    hide ParseArg;
  }

  /******* Positional-aware merge *******/

  function OnlyPositionals(args: seq<string>): seq<string> {
    if args == [] then [] else (if IsFlag(args[0]) then [] else [args[0]]) + OnlyPositionals(args[1..])
  }

  lemma {:induction false} SeparatedSnoc(args: seq<string>, arg: string)
    ensures OnlyFlags(args + [arg]) == OnlyFlags(args) + if IsFlag(arg) then [arg] else []
    ensures OnlyPositionals(args + [arg]) == OnlyPositionals(args) + if IsFlag(arg) then [] else [arg]
  {
    hide IsFlag;
    if args == [] {
      assert [] + [arg] == [arg] && [arg][1..] == [];
    } else {
      var first, rest := args[0], args[1..];
      SeparatedSnoc(rest, arg);
      assert (args + [arg])[0] == first && (args + [arg])[1..] == rest + [arg];
      Reassociate(if IsFlag(first) then [first] else [], OnlyFlags(rest), if IsFlag(arg) then [arg] else []);
      Reassociate(if IsFlag(first) then [] else [first], OnlyPositionals(rest), if IsFlag(arg) then [] else [arg]);
    }
  }

  predicate HasDash(arg: string) { "-" <= arg }

  predicate HasNoDash(arg: string) { !("-" <= arg) }

  /** The flags are the arguments with a dash in front, the positional arguments all others, in their order. */
  lemma {:induction false} SeparatedByDash(args: seq<string>)
    ensures IsFilter(OnlyFlags(args), args, HasDash) && IsFilter(OnlyPositionals(args), args, HasNoDash)
  {
    hide OnlyFlags, OnlyPositionals, IsFilter;
    if args == [] {
      NothingToSeparate();
      NothingFiltered(HasDash);
      NothingFiltered(HasNoDash);
    } else {
      var n := |args| - 1;
      SeparatedByDash(args[..n]);
      SeparatedSnoc(args[..n], args[n]);
      FilterSnoc(OnlyFlags(args[..n]), args[..n], args[n], HasDash);
      FilterSnoc(OnlyPositionals(args[..n]), args[..n], args[n], HasNoDash);
      assert args == args[..n] + [args[n]];
      assert OnlyFlags(args[..n]) + [] == OnlyFlags(args[..n]) && OnlyPositionals(args[..n]) + [] == OnlyPositionals(args[..n]);
    }
  }

  method SeparatePositionalAndFlags(args: seq<string>) returns (positional: seq<string>, flags: seq<string>)
    ensures positional == OnlyPositionals(args) && flags == OnlyFlags(args)
  {
    hide OnlyPositionals, OnlyFlags;
    positional, flags := [], [];
    NothingToSeparate();
    for i := 0 to |args|
      invariant positional == OnlyPositionals(args[..i]) && flags == OnlyFlags(args[..i])
    {
      SeparatedSnoc(args[..i], args[i]);
      assert args[..i] + [args[i]] == args[..i + 1];
      if IsFlag(args[i]) {
        flags := flags + [args[i]];
      } else {
        positional := positional + [args[i]];
      }
    }
    assert args[..|args|] == args;
  }

  lemma NothingToSeparate()
    ensures OnlyPositionals([]) == [] == OnlyFlags([])
  {
  }

  method MergeArgsWithPositionalHandling(existing: seq<string>, new_: seq<string>) returns (result: seq<string>)
    ensures result == OnlyPositionals(new_) + Merged(OnlyFlags(existing), OnlyFlags(new_))
  {
    var _, existingFlags := SeparatePositionalAndFlags(existing);
    var newPositional, newFlags := SeparatePositionalAndFlags(new_);
    var mergedFlags := MergeArgs(existingFlags, newFlags);
    result := newPositional + mergedFlags;
  }

  ghost predicate AllFlags(args: seq<string>) {
    forall i :: 0 <= i < |args| ==> IsFlag(args[i])
  }

  lemma {:induction false} OnlyFlagsAllFlags(args: seq<string>)
    ensures AllFlags(OnlyFlags(args))
  {
    hide IsFlag;
    if args != [] { OnlyFlagsAllFlags(args[1..]); }
  }

  lemma {:induction false} AllFlagsSplit(positional: seq<string>, flags: seq<string>)
    requires AllFlags(flags) && forall i :: 0 <= i < |positional| ==> !IsFlag(positional[i])
    ensures OnlyPositionals(positional + flags) == positional
    ensures OnlyFlags(positional + flags) == flags
    decreases |positional| + |flags|
  {
    hide IsFlag;
    if positional != [] {
      assert (positional + flags)[1..] == positional[1..] + flags;
      AllFlagsSplit(positional[1..], flags);
    } else if flags != [] {
      assert positional + flags == flags && [] + flags[1..] == flags[1..];
      AllFlagsSplit([], flags[1..]);
    } else {
      assert positional + flags == [];
    }
  }

  lemma {:induction false} OnlyPositionalsNoFlags(args: seq<string>)
    ensures forall i :: 0 <= i < |OnlyPositionals(args)| ==> !IsFlag(OnlyPositionals(args)[i])
  {
    hide IsFlag;
    if args != [] { OnlyPositionalsNoFlags(args[1..]); }
  }

  /** A flag stays a flag when it is printed again: its key starts with the dash. */
  lemma PrintedFlagIsFlag(arg: string)
    requires IsFlag(arg)
    ensures IsFlag(ParseArg(arg).key) && IsFlag(ParseArg(arg).String())
  {
    var i := SeparatorIndex(arg);
    var key := arg[..i];
    assert i > 0 && key[0] == '-';
    assert TrimLeft(key) == key;
    TrimRightKeepsFirst(key);
  }

  lemma {:induction false} ParsedFlagsPrintFlags(args: seq<string>)
    requires AllFlags(args)
    ensures forall k :: k in Parsed(args) ==> IsFlag(Parsed(args)[k].String())
  {
    if args != [] {
      ParsedFlagsPrintFlags(args[..|args| - 1]);
      PrintedFlagIsFlag(args[|args| - 1]);
    }
  }

  lemma {:induction false} WithoutKeysAllFlags(b: seq<string>, keys: set<string>)
    requires AllFlags(b)
    ensures AllFlags(WithoutKeys(b, keys))
  {
    hide ParseArg;
    if b != [] { WithoutKeysAllFlags(b[..|b| - 1], keys); }
  }

  /**
   The positional-aware merge keeps exactly the new positional arguments and, on the flags, is the
   override of the existing flags by the new ones.
   */
  lemma PositionalMergeMeaning(existing: seq<string>, new_: seq<string>)
    ensures
      var result := OnlyPositionals(new_) + Merged(OnlyFlags(existing), OnlyFlags(new_));
      && OnlyPositionals(result) == OnlyPositionals(new_)
      && Parsed(OnlyFlags(result)) == Parsed(OnlyFlags(existing)) + Parsed(OnlyFlags(new_))
  {
    var a, b := OnlyFlags(existing), OnlyFlags(new_);
    OnlyFlagsAllFlags(existing);
    OnlyFlagsAllFlags(new_);
    OnlyPositionalsNoFlags(new_);
    ParsedFlagsPrintFlags(b);
    WithoutKeysAllFlags(b, Keys(a));
    AllFlagsSplit(OnlyPositionals(new_), Merged(a, b));
    MergeIsOverride(a, b);
  }
}
