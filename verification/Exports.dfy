/**
  * Exporting a server's configuration for use elsewhere: its runtime values are replaced by placeholders, and a
  * contract lists the placeholders. Whether a raw argument refers to another server is an arbitrary predicate.
  */
module Exports {
  import opened Strings
  import opened Sublists
  import opened ServerConfig
  import opened ServerValidation
  import Durations

  const APP := "mcpd"

  /******* Names and placeholders *******/

  function UpperChar(c: char): char {
    if 'a' <= c <= 'z' then c - 32 as char else c
  }

  function ForEnvVarName(s: string): (r: string)
    ensures |r| == |s|
  {
    seq(|s|, i requires 0 <= i < |s| => UpperChar(if s[i] == '-' then '_' else s[i]))
  }

  function EnvVarName(server: string, arg: string): string {
    ForEnvVarName(APP) + "__" + ForEnvVarName(server) + "__" + ForEnvVarName(arg)
  }

  function Reference(name: string): string {
    "${" + name + "}"
  }

  /** The text before the first equals sign. */
  function BeforeEquals(s: string): string {
    if s == [] || s[0] == '=' then [] else [s[0]] + BeforeEquals(s[1..])
  }

  function TrimDashes(s: string): string {
    if s != [] && s[0] == '-' then TrimDashes(s[1..]) else s
  }

  function ArgName(raw: string): string {
    BeforeEquals(TrimDashes(raw))
  }

  /** One exported argument: a placeholder, standing alone or as the value of a flag, or a bare flag. */
  datatype Item = Positional(name: string) | Value(flag: string, name: string) | Bare(flag: string)

  function Text(item: Item): string {
    match item
    case Positional(name) => Reference(name)
    case Value(flag, name) => flag + "=" + Reference(name)
    case Bare(flag) => flag
  }

  function Texts(items: seq<Item>): seq<string> {
    seq(|items|, i requires 0 <= i < |items| => Text(items[i]))
  }

  function ValueItem(server: string, raw: string): Item {
    Value(BeforeEquals(raw), EnvVarName(server, ArgName(raw)))
  }

  /** The contract after recording the placeholders of the items. */
  function Recorded(contract: map<string, string>, items: seq<Item>): map<string, string> {
    if items == [] then contract else
    var before := Recorded(contract, items[..|items| - 1]);
    var last := items[|items| - 1];
    if last.Bare? then before else before[last.name := Reference(last.name)]
  }

  /******* Arguments *******/

  function PositionalItems(server: string, names: seq<string>): (r: seq<Item>)
    ensures |r| == |names|
  {
    seq(|names|, i requires 0 <= i < |names| => Positional(EnvVarName(server, names[i])))
  }

  function ValueItems(server: string, raws: seq<string>): (r: seq<Item>)
    ensures |r| == |raws|
  {
    seq(|raws|, i requires 0 <= i < |raws| => ValueItem(server, raws[i]))
  }

  function BareItems(flags: seq<string>): (r: seq<Item>)
    ensures |r| == |flags|
  {
    seq(|flags|, i requires 0 <= i < |flags| => Bare(flags[i]))
  }

  function Numbered(n: nat): (r: seq<string>)
    ensures |r| == n
  {
    seq(n, i requires 0 <= i < n => "ARG_" + Durations.Digits(i + 1))
  }

  /** Each flag whose name is new, once; a value that follows a flag is skipped with it. */
  function FlagItems(server: string, flags: seq<string>, seen: set<string>): seq<Item> {
    if flags == [] then [] else
    var flag, rest := flags[0], flags[1..];
    var name := BeforeEquals(flag);
    if !("--" <= flag) || name in seen then FlagItems(server, rest, seen)
    else if '=' in flag then [ValueItem(server, flag)] + FlagItems(server, rest, seen + {name})
    else if rest != [] && !("--" <= rest[0]) then [ValueItem(server, flag)] + FlagItems(server, rest[1..], seen + {name})
    else [Bare(flag)] + FlagItems(server, rest, seen + {name})
  }

  function RequiredItems(e: ServerEntry): seq<Item> {
    PositionalItems(e.name, e.requiredPositionalArgs) + BareItems(e.requiredBoolArgs) + ValueItems(e.name, e.requiredValueArgs)
  }

  /** The names of the required flags. */
  function RequiredNames(e: ServerEntry): set<string> {
    (set b | b in e.requiredBoolArgs :: BeforeEquals(b)) + (set v | v in e.requiredValueArgs :: BeforeEquals(v))
  }

  /** The arguments that refer to no other server; what is examined is the raw text, where there is one. */
  function FilteredArgs(s: Server, illegal: (string, string) -> bool, k: nat): seq<string>
    requires k <= |s.context.args|
  {
    if k == 0 then [] else
    var i := k - 1;
    var raw := if i < |s.context.rawArgs| then s.context.rawArgs[i] else s.context.args[i];
    FilteredArgs(s, illegal, i) + if illegal(ForEnvVarName(s.entry.name), raw) then [] else [s.context.args[i]]
  }

  function RuntimeItems(e: ServerEntry, filtered: seq<string>, seen: set<string>): seq<Item> {
    var n := PositionalCount(filtered);
    CountWithin(filtered);
    PositionalItems(e.name, Numbered(n)) + FlagItems(e.name, filtered[n..], seen)
  }

  lemma {:induction false} CountWithin(args: seq<string>)
    ensures PositionalCount(args) <= |args|
  {
    if args != [] && !("--" <= args[0]) { CountWithin(args[1..]); }
  }

  function ArgItems(s: Server, illegal: (string, string) -> bool): seq<Item> {
    RequiredItems(s.entry) + RuntimeItems(s.entry, FilteredArgs(s, illegal, |s.context.args|), RequiredNames(s.entry))
  }

  /******* Environment *******/

  function ExportedEnv(s: Server): map<string, string> {
    map k | k in (set r | r in s.entry.requiredEnvVars) + s.context.env.Keys :: Reference(EnvVarName(s.entry.name, k))
  }

  /** The server as somebody else would run it from the export; volumes are not exported. */
  function ExportedServer(s: Server, illegal: (string, string) -> bool): Server {
    s.(context := ExecutionContext(s.entry.name, Texts(ArgItems(s, illegal)), ExportedEnv(s), map[], [], map[], map[]))
  }

  /******* The exported configuration passes the checks *******/

  lemma TextsConcat(a: seq<Item>, b: seq<Item>)
    ensures Texts(a + b) == Texts(a) + Texts(b)
  {
  }

  lemma {:induction false} PositionalAtLeast(args: seq<string>, n: nat)
    requires n <= |args| && forall i :: 0 <= i < n ==> !("--" <= args[i])
    ensures PositionalCount(args) >= n
  {
    if n > 0 {
      assert !("--" <= args[0]);
      forall i | 0 <= i < n - 1 ensures !("--" <= args[1..][i]) {
        assert args[1..][i] == args[i + 1];
      }
      PositionalAtLeast(args[1..], n - 1);
    }
  }

  lemma {:induction false} BeforeEqualsWhole(s: string, rest: string)
    requires '=' !in s
    ensures BeforeEquals(s) == s && BeforeEquals(s + "=" + rest) == s
  {
    var text := s + "=" + rest;
    if s != [] {
      assert s[0] in s;
      assert text[0] == s[0] && text[1..] == s[1..] + "=" + rest;
      BeforeEqualsWhole(s[1..], rest);
    }
  }

  lemma {:induction false} BeforeEqualsHasNone(s: string)
    ensures '=' !in BeforeEquals(s)
    ensures BeforeEquals(s) <= s
  {
    if s != [] && s[0] != '=' { BeforeEqualsHasNone(s[1..]); }
  }

  /** The texts of the required items, in the order positional, boolean, with value, are the first arguments. */
  ghost predicate RequiredAt(e: ServerEntry, x: seq<string>) {
    var p, b, v := |e.requiredPositionalArgs|, |e.requiredBoolArgs|, |e.requiredValueArgs|;
    |x| >= p + b + v &&
    (forall i :: 0 <= i < p ==> x[i] == Reference(EnvVarName(e.name, e.requiredPositionalArgs[i]))) &&
    (forall i :: 0 <= i < b ==> x[p + i] == e.requiredBoolArgs[i]) &&
    (forall i :: 0 <= i < v ==> x[p + b + i] == Text(ValueItem(e.name, e.requiredValueArgs[i])))
  }

  lemma RequiredTexts(e: ServerEntry, more: seq<Item>)
    ensures RequiredAt(e, Texts(RequiredItems(e) + more))
  {
    hide Reference, EnvVarName, ValueItem;
  }

  lemma PlaceholderIsNoFlag(name: string)
    ensures !("--" <= Reference(name))
  {
    assert Reference(name)[0] == '$';
  }

  lemma ValueIsSupplied(server: string, key: string)
    requires '=' !in key
    ensures key + "=" <= Text(ValueItem(server, key))
  {
    hide EnvVarName, ArgName;
    BeforeEqualsWhole(key, []);
    var name := EnvVarName(server, ArgName(key));
    assert Text(ValueItem(server, key)) == key + "=" + Reference(name);
  }

  lemma SuppliesPositional(e: ServerEntry, x: seq<string>)
    requires RequiredAt(e, x)
    ensures PositionalCount(x) >= |e.requiredPositionalArgs|
  {
    hide EnvVarName, Reference, ValueItem, PositionalCount;
    forall i | 0 <= i < |e.requiredPositionalArgs| ensures !("--" <= x[i]) {
      PlaceholderIsNoFlag(EnvVarName(e.name, e.requiredPositionalArgs[i]));
    }
    PositionalAtLeast(x, |e.requiredPositionalArgs|);
  }

  lemma SuppliesBool(e: ServerEntry, x: seq<string>, k: string)
    requires RequiredAt(e, x) && k in e.requiredBoolArgs
    ensures k in x
  {
    hide EnvVarName, Reference, ValueItem;
    var i :| 0 <= i < |e.requiredBoolArgs| && e.requiredBoolArgs[i] == k;
    assert x[|e.requiredPositionalArgs| + i] == k;
  }

  lemma SuppliesRequiredValue(e: ServerEntry, x: seq<string>, k: string)
    requires RequiredAt(e, x) && k in e.requiredValueArgs && '=' !in k
    ensures IsSupplied(x, k)
  {
    hide EnvVarName, Reference, ValueItem;
    var i :| 0 <= i < |e.requiredValueArgs| && e.requiredValueArgs[i] == k;
    ValueIsSupplied(e.name, k);
    assert SuppliesValue(x, k, |e.requiredPositionalArgs| + |e.requiredBoolArgs| + i);
  }

  /**
    * Whatever the runtime configuration lacks, the exported one supplies every required environment variable,
    * positional argument and boolean flag, and every required value whose name has no equals sign.
    */
  lemma ExportSupplies(s: Server, illegal: (string, string) -> bool)
    ensures var x := ExportedServer(s, illegal);
      HasEnvVars(x) && HasPositionalArgs(x) && HasBoolArgs(x) &&
      ((forall k :: k in s.entry.requiredValueArgs ==> '=' !in k) ==> HasValueArgs(x))
  {
    hide RequiredItems, RuntimeItems, PositionalCount, EnvVarName, RequiredAt, SuppliesValue;
    var x, e := ExportedServer(s, illegal), s.entry;
    RequiredFirst(s, illegal);
    SuppliesPositional(e, x.context.args);
    forall k | k in e.requiredBoolArgs ensures k in x.context.args { SuppliesBool(e, x.context.args, k); }
    forall k | k in e.requiredValueArgs && '=' !in k
      ensures IsSupplied(x.context.args, k)
    {
      SuppliesRequiredValue(e, x.context.args, k);
    }
  }

  /** The name contains an equals sign that is followed by the beginning of a placeholder. */
  predicate HoldsPlaceholder(k: string) {
    var n := |BeforeEquals(k)|;
    n < |k| && "${" <= k[n + 1..]
  }

  /** The required flags start with two dashes and hold no placeholder, or at least no name of a value has an equals sign. */
  predicate WellNamed(e: ServerEntry) {
    || (forall k :: k in e.requiredValueArgs ==> '=' !in k)
    || ((forall k :: k in e.requiredBoolArgs ==> "--" <= k) &&
        (forall k :: k in e.requiredValueArgs ==> "--" <= k && !HoldsPlaceholder(k)))
  }

  /** The export can supply the value: under the name itself, or by a required boolean flag written like one with a value. */
  predicate Suppliable(e: ServerEntry, k: string) {
    '=' !in k || exists b :: b in e.requiredBoolArgs && k + "=" <= b
  }

  /** Every item but the required boolean flags is a placeholder, or has no equals sign in its flag. */
  ghost predicate Clean(item: Item) {
    !item.Positional? ==> '=' !in item.flag
  }

  lemma {:induction false} FlagItemsClean(server: string, flags: seq<string>, seen: set<string>)
    ensures forall i :: 0 <= i < |FlagItems(server, flags, seen)| ==> Clean(FlagItems(server, flags, seen)[i])
    decreases |flags|
  {
    hide BeforeEquals, EnvVarName, ArgName;
    if flags != [] {
      var flag, rest := flags[0], flags[1..];
      var name := BeforeEquals(flag);
      BeforeEqualsHasNone(flag);
      FlagItemsClean(server, rest, seen);
      FlagItemsClean(server, rest, seen + {name});
      if rest != [] { FlagItemsClean(server, rest[1..], seen + {name}); }
    }
  }

  lemma ValueItemsClean(server: string, raws: seq<string>)
    ensures forall i :: 0 <= i < |raws| ==> Clean(ValueItems(server, raws)[i])
  {
    hide BeforeEquals, EnvVarName, ArgName;
    forall i | 0 <= i < |raws| ensures Clean(ValueItems(server, raws)[i]) { BeforeEqualsHasNone(raws[i]); }
  }

  lemma ItemsClean(s: Server, illegal: (string, string) -> bool, i: nat)
    requires i < |ArgItems(s, illegal)|
    ensures var p, b := |s.entry.requiredPositionalArgs|, |s.entry.requiredBoolArgs|;
      !(p <= i < p + b) ==> Clean(ArgItems(s, illegal)[i])
  {
    hide EnvVarName, FlagItems, ValueItems, FilteredArgs, RequiredNames, PositionalCount;
    var e, filtered := s.entry, FilteredArgs(s, illegal, |s.context.args|);
    CountWithin(filtered);
    ValueItemsClean(e.name, e.requiredValueArgs);
    FlagItemsClean(e.name, filtered[PositionalCount(filtered)..], RequiredNames(e));
  }

  lemma CutAtEquals(k: string, flag: string, rest: string)
    requires '=' in k && '=' !in flag && k <= flag + "=" + rest
    ensures |k| > |flag| && BeforeEquals(k) == flag
  {
    var n, text := |flag|, flag + "=" + rest;
    assert forall i :: 0 <= i < n ==> text[i] == flag[i];
    var i :| 0 <= i < |k| && k[i] == '=';
    assert text[i] == '=';
    assert |k| > n && k[..n] == flag && k[n] == '=';
    assert k == flag + "=" + k[n + 1..];
    BeforeEqualsWhole(flag, k[n + 1..]);
  }

  /** The text of a value supplies a name with an equals sign only if that holds a placeholder. */
  lemma ValueTextHolds(k: string, flag: string, name: string)
    requires '=' in k && '=' !in flag
    requires k + "=" <= Text(Value(flag, name)) || k == Text(Value(flag, name))
    ensures HoldsPlaceholder(k)
  {
    hide BeforeEquals;
    var n, text := |flag|, Text(Value(flag, name));
    assert text == flag + "=" + Reference(name);
    assert k <= text && |text| >= n + 4;
    CutAtEquals(k, flag, Reference(name));
    assert text[n + 1] == Reference(name)[0] == '$' && text[n + 2] == Reference(name)[1] == '{';
    assert k + "=" <= text ==> text[|k|] == '=';
    assert |k| >= n + 3;
    assert k[n + 1..][0] == '$' && k[n + 1..][1] == '{';
  }

  lemma NotWithin(k: string, flag: string)
    requires '=' in k && '=' !in flag
    ensures !(k <= flag)
  {
    var i :| 0 <= i < |k| && k[i] == '=';
    assert i < |flag| ==> flag[i] in flag;
  }

  /** A text other than a required boolean flag's supplies no value for a name with an equals sign. */
  lemma CleanSuppliesNone(item: Item, k: string)
    requires Clean(item) && '=' in k && "--" <= k && !HoldsPlaceholder(k)
    ensures !(k + "=" <= Text(item)) && k != Text(item)
  {
    hide HoldsPlaceholder;
    match item
    case Positional(name) =>
      assert Reference(name)[0] == '$' && k[0] == '-' && (k + "=")[0] == '-';
    case Value(flag, name) =>
      if k + "=" <= Text(item) || k == Text(item) { ValueTextHolds(k, flag, name); }
    case Bare(flag) =>
      NotWithin(k, flag);
      assert k <= k + "=";
  }

  /** After a required boolean flag comes another one or the first required value, which is a flag as well. */
  lemma FlagAfterBool(e: ServerEntry, x: seq<string>, i: nat)
    requires RequiredAt(e, x) && e.requiredValueArgs != [] && "--" <= e.requiredValueArgs[0]
    requires forall k :: k in e.requiredBoolArgs ==> "--" <= k
    requires i < |e.requiredBoolArgs|
    ensures var p := |e.requiredPositionalArgs|; x[p + i] == e.requiredBoolArgs[i] && p + i + 1 < |x| && "--" <= x[p + i + 1]
  {
    hide Reference, EnvVarName, BeforeEquals;
    var p, b, v := |e.requiredPositionalArgs|, |e.requiredBoolArgs|, e.requiredValueArgs[0];
    if i + 1 < b {
      assert e.requiredBoolArgs[i + 1] in e.requiredBoolArgs;
      assert x[p + (i + 1)] == e.requiredBoolArgs[i + 1];
    } else {
      assert x[p + b + 0] == Text(ValueItem(e.name, v));
      DashesBeforeEquals(v);
    }
  }

  lemma DashesBeforeEquals(k: string)
    requires "--" <= k
    ensures "--" <= BeforeEquals(k)
  {
    assert k[1..][0] == '-' && BeforeEquals(k) == ['-'] + BeforeEquals(k[1..]);
    assert BeforeEquals(k[1..]) == ['-'] + BeforeEquals(k[1..][1..]);
  }

  lemma SuppliedIff(s: Server, illegal: (string, string) -> bool, k: string)
    requires WellNamed(s.entry) && k in s.entry.requiredValueArgs
    ensures var x := ExportedServer(s, illegal).context.args;
      IsSupplied(x, k) <==> Suppliable(s.entry, k)
  {
    hide RequiredItems, RuntimeItems, EnvVarName, RequiredAt, HoldsPlaceholder, ValueItem, Clean, ArgItems, Text;
    var x, e := ExportedServer(s, illegal).context.args, s.entry;
    var p, b := |e.requiredPositionalArgs|, |e.requiredBoolArgs|;
    RequiredFirst(s, illegal);
    if '=' !in k {
      SuppliesRequiredValue(e, x, k);
    } else {
      RequiredFits(e, x);
      assert e.requiredValueArgs[0] in e.requiredValueArgs;
      forall i | 0 <= i < |x|
        ensures SuppliesValue(x, k, i) <==> p <= i < p + b && k + "=" <= e.requiredBoolArgs[i - p]
        ensures SuppliesValue(x, k, i) ==> Suppliable(e, k)
      {
        if p <= i < p + b {
          assert e.requiredBoolArgs[i - p] in e.requiredBoolArgs;
          FlagAfterBool(e, x, i - p);
        } else {
          ItemsClean(s, illegal, i);
          CleanSuppliesNone(ArgItems(s, illegal)[i], k);
        }
      }
      if f :| f in e.requiredBoolArgs && k + "=" <= f {
        var i :| 0 <= i < b && e.requiredBoolArgs[i] == f;
        assert SuppliesValue(x, k, p + i);
      }
    }
  }

  lemma RequiredFirst(s: Server, illegal: (string, string) -> bool)
    ensures RequiredAt(s.entry, ExportedServer(s, illegal).context.args)
  {
    hide RequiredItems, RuntimeItems, RequiredAt;
    RequiredTexts(s.entry, RuntimeItems(s.entry, FilteredArgs(s, illegal, |s.context.args|), RequiredNames(s.entry)));
  }

  lemma RequiredFits(e: ServerEntry, x: seq<string>)
    requires RequiredAt(e, x)
    ensures |x| >= |e.requiredPositionalArgs| + |e.requiredBoolArgs| + |e.requiredValueArgs|
  {
  }

  /** The check for required values passes exactly when the export can supply each of them. */
  lemma ValueCheckIff(s: Server, illegal: (string, string) -> bool)
    requires WellNamed(s.entry)
    ensures HasValueArgs(ExportedServer(s, illegal)) <==> forall k :: k in s.entry.requiredValueArgs ==> Suppliable(s.entry, k)
  {
    hide ArgItems, SuppliesValue, Suppliable, WellNamed;
    forall k | k in s.entry.requiredValueArgs
      ensures var x := ExportedServer(s, illegal).context.args;
        IsSupplied(x, k) <==> Suppliable(s.entry, k)
    {
      SuppliedIff(s, illegal, k);
    }
  }

  /** The export passes validation exactly when it can supply the values and no volume is required: volumes are not exported. */
  lemma ExportValidatesIff(s: Server, illegal: (string, string) -> bool)
    requires WellNamed(s.entry)
    ensures Validates(ExportedServer(s, illegal)) <==>
      (forall k :: k in s.entry.requiredValueArgs ==> Suppliable(s.entry, k)) &&
      (forall name :: name in s.entry.volumes ==> !s.entry.volumes[name].required)
  {
    hide ArgItems, HasPositionalArgs, HasEnvVars, HasValueArgs, HasBoolArgs, Suppliable, WellNamed;
    ExportSupplies(s, illegal);
    ValueCheckIff(s, illegal);
  }

  /******* Runtime flags *******/

  function FlagName(item: Item): string {
    BeforeEquals(Text(item))
  }

  /** The names of the flags in a list. */
  function NamesOf(flags: seq<string>): set<string> {
    set i | 0 <= i < |flags| && "--" <= flags[i] :: BeforeEquals(flags[i])
  }

  function ItemNames(items: seq<Item>): set<string> {
    set i | 0 <= i < |items| :: FlagName(items[i])
  }

  predicate NoRepeats(items: seq<Item>) {
    forall i, j :: 0 <= i < j < |items| ==> FlagName(items[i]) != FlagName(items[j])
  }

  lemma NamesOfCons(flags: seq<string>)
    requires flags != []
    ensures NamesOf(flags) == (if "--" <= flags[0] then {BeforeEquals(flags[0])} else {}) + NamesOf(flags[1..])
  {
    hide BeforeEquals;
    forall n | n in NamesOf(flags) ensures n in (if "--" <= flags[0] then {BeforeEquals(flags[0])} else {}) + NamesOf(flags[1..]) {
      var i :| 0 <= i < |flags| && "--" <= flags[i] && BeforeEquals(flags[i]) == n;
      if i > 0 { assert flags[i] == flags[1..][i - 1]; }
    }
    forall n | n in NamesOf(flags[1..]) ensures n in NamesOf(flags) {
      var i :| 0 <= i < |flags[1..]| && "--" <= flags[1..][i] && BeforeEquals(flags[1..][i]) == n;
      assert flags[i + 1] == flags[1..][i];
    }
  }

  lemma ItemNamesCons(item: Item, items: seq<Item>)
    ensures ItemNames([item] + items) == {FlagName(item)} + ItemNames(items)
    ensures NoRepeats([item] + items) <==> FlagName(item) !in ItemNames(items) && NoRepeats(items)
  {
    hide FlagName;
    var all := [item] + items;
    forall n | n in ItemNames(items) ensures n in ItemNames(all) {
      var i :| 0 <= i < |items| && FlagName(items[i]) == n;
      assert all[i + 1] == items[i];
    }
    assert all[0] == item;
    if NoRepeats(all) {
      forall i, j | 0 <= i < j < |items| ensures FlagName(items[i]) != FlagName(items[j]) {
        assert all[i + 1] == items[i] && all[j + 1] == items[j];
      }
      forall i | 0 <= i < |items| ensures FlagName(items[i]) != FlagName(item) { assert all[i + 1] == items[i]; }
    }
  }

  lemma ValueItemName(server: string, raw: string)
    ensures FlagName(ValueItem(server, raw)) == BeforeEquals(raw)
  {
    hide EnvVarName, ArgName, Reference;
    BeforeEqualsHasNone(raw);
    BeforeEqualsWhole(BeforeEquals(raw), Reference(EnvVarName(server, ArgName(raw))));
  }

  /** Every flag name that was not seen before is exported exactly once, and no other. */
  lemma {:induction false} FlagsExportedOnce(server: string, flags: seq<string>, seen: set<string>)
    ensures ItemNames(FlagItems(server, flags, seen)) == NamesOf(flags) - seen
    ensures NoRepeats(FlagItems(server, flags, seen))
    decreases |flags|
  {
    hide ValueItem, BeforeEquals, FlagName, NamesOf, ItemNames, NoRepeats;
    NoNames();
    if flags != [] {
      var flag, rest := flags[0], flags[1..];
      var name := BeforeEquals(flag);
      NamesOfCons(flags);
      ValueItemName(server, flag);
      BareName(flag);
      if !("--" <= flag) || name in seen {
        FlagsExportedOnce(server, rest, seen);
      } else if '=' !in flag && rest != [] && !("--" <= rest[0]) {
        FlagsExportedOnce(server, rest[1..], seen + {name});
        NamesOfCons(rest);
        ItemNamesCons(ValueItem(server, flag), FlagItems(server, rest[1..], seen + {name}));
      } else {
        FlagsExportedOnce(server, rest, seen + {name});
        ItemNamesCons(if '=' in flag then ValueItem(server, flag) else Bare(flag), FlagItems(server, rest, seen + {name}));
      }
    }
  }

  lemma NoNames()
    ensures NamesOf([]) == {} && ItemNames([]) == {} && NoRepeats([])
  {
  }

  lemma BareName(flag: string)
    ensures FlagName(Bare(flag)) == BeforeEquals(flag)
  {
  }

  /** The same flags with the same names, whatever their values. */
  predicate SameShape(a: seq<string>, b: seq<string>) {
    |a| == |b| && forall i :: 0 <= i < |a| ==>
      ("--" <= a[i] <==> "--" <= b[i]) &&
      ("--" <= a[i] ==> BeforeEquals(a[i]) == BeforeEquals(b[i]) && ('=' in a[i] <==> '=' in b[i]))
  }

  lemma {:induction false} TrimCommutes(s: string)
    ensures BeforeEquals(TrimDashes(s)) == TrimDashes(BeforeEquals(s))
  {
    if s != [] && s[0] == '-' { TrimCommutes(s[1..]); }
  }

  lemma {:induction false} BareIsName(flag: string)
    requires '=' !in flag
    ensures BeforeEquals(flag) == flag
  {
    BeforeEqualsWhole(flag, []);
  }

  /**
    * Lists that differ in values only are exported alike. What follows a flag counts as its value unless it starts
    * with two dashes: then it is a flag itself, and is exported as it is.
    */
  lemma {:induction false} ValuesDoNotLeak(server: string, a: seq<string>, b: seq<string>, seen: set<string>)
    requires SameShape(a, b)
    ensures FlagItems(server, a, seen) == FlagItems(server, b, seen)
    decreases |a|
  {
    hide BeforeEquals, TrimDashes, EnvVarName;
    if a != [] {
      var name := BeforeEquals(a[0]);
      assert SameShape(a[1..], b[1..]);
      TrimCommutes(a[0]);
      TrimCommutes(b[0]);
      if !("--" <= a[0]) || name in seen {
        ValuesDoNotLeak(server, a[1..], b[1..], seen);
      } else if '=' !in a[0] && a[1..] != [] && !("--" <= a[1..][0]) {
        assert b[1..] != [] && !("--" <= b[1..][0]);
        assert SameShape(a[1..][1..], b[1..][1..]);
        ValuesDoNotLeak(server, a[1..][1..], b[1..][1..], seen + {name});
      } else {
        if '=' !in a[0] { BareIsName(a[0]); BareIsName(b[0]); }
        ValuesDoNotLeak(server, a[1..], b[1..], seen + {name});
      }
    }
  }

  lemma {:induction false} SameShapeCounts(a: seq<string>, b: seq<string>)
    requires SameShape(a, b)
    ensures PositionalCount(a) == PositionalCount(b)
  {
    hide BeforeEquals;
    if a != [] && !("--" <= a[0]) {
      assert SameShape(a[1..], b[1..]);
      SameShapeCounts(a[1..], b[1..]);
    }
  }

  lemma SameShapeFrom(a: seq<string>, b: seq<string>, n: nat)
    requires SameShape(a, b) && n <= |a|
    ensures SameShape(a[n..], b[n..])
  {
    hide BeforeEquals;
  }

  /**
    * The values of environment variables and arguments leave no trace in a server's export: servers with the same
    * entry, the same variables and arguments of the same shape are exported alike, contract included.
    */
  lemma ExportHidesValues(s: Server, t: Server, illegal: (string, string) -> bool)
    requires s.entry == t.entry && s.context.env.Keys == t.context.env.Keys
    requires SameShape(FilteredArgs(s, illegal, |s.context.args|), FilteredArgs(t, illegal, |t.context.args|))
    ensures ExportedServer(s, illegal).context == ExportedServer(t, illegal).context
    ensures forall contract :: Recorded(contract, ArgItems(s, illegal)) == Recorded(contract, ArgItems(t, illegal))
  {
    hide SameShape, FilteredArgs, RequiredItems, RequiredNames, PositionalItems, FlagItems, Texts, Recorded, EnvVarName;
    var a, b := FilteredArgs(s, illegal, |s.context.args|), FilteredArgs(t, illegal, |t.context.args|);
    var n := PositionalCount(a);
    CountWithin(a);
    CountWithin(b);
    SameShapeCounts(a, b);
    SameShapeFrom(a, b, n);
    ValuesDoNotLeak(s.entry.name, a[n..], b[n..], RequiredNames(s.entry));
    assert ArgItems(s, illegal) == ArgItems(t, illegal);
  }

  /******* What is exported, in plain text *******/

  /** In names of variables letters are upper case and dashes are underscores. */
  lemma VariableNameIs(server: string, arg: string)
    ensures EnvVarName(server, arg) == "MCPD__" + ForEnvVarName(server) + "__" + ForEnvVarName(arg)
    ensures forall i :: 0 <= i < |arg| ==>
      if arg[i] == '-' then ForEnvVarName(arg)[i] == '_'
      else if arg[i] in LOWER then exists k :: 0 <= k < 26 && LOWER[k] == arg[i] && UPPER[k] == ForEnvVarName(arg)[i]
      else ForEnvVarName(arg)[i] == arg[i]
  {
    assert ForEnvVarName("mcpd") == "MCPD";
    assert "MCPD" + "__" == "MCPD__";
    forall i | 0 <= i < |arg|
      ensures
        if arg[i] == '-' then ForEnvVarName(arg)[i] == '_'
        else if arg[i] in LOWER then exists k :: 0 <= k < 26 && LOWER[k] == arg[i] && UPPER[k] == ForEnvVarName(arg)[i]
        else ForEnvVarName(arg)[i] == arg[i]
    {
      UpperIsPaired(arg[i]);
      assert '-' !in LOWER by { assert LOWER[0] == 'a'; }
    }
  }

  lemma UpperIsPaired(c: char)
    ensures if c in LOWER then exists k :: 0 <= k < 26 && LOWER[k] == c && UPPER[k] == UpperChar(c) else UpperChar(c) == c
  {
    if 'a' <= c <= 'z' {
      var k := c as int - 'a' as int;
      LettersInOrder(k);
      assert LOWER[k] == c;
      assert UPPER[k] == UpperChar(c);
    } else if c in LOWER {
      var k :| 0 <= k < 26 && LOWER[k] == c;
      LettersInOrder(k);
      assert false;
    }
  }

  /** A required positional argument is a placeholder that carries its name. */
  lemma RequiredPositionalAs(e: ServerEntry, i: nat)
    requires i < |e.requiredPositionalArgs|
    ensures i < |RequiredItems(e)|
    ensures Text(RequiredItems(e)[i]) == "${" + EnvVarName(e.name, e.requiredPositionalArgs[i]) + "}"
  {
    hide EnvVarName;
  }

  /** The runtime's positional arguments are numbered from one. */
  lemma RuntimePositionalAs(e: ServerEntry, filtered: seq<string>, seen: set<string>, i: nat)
    requires i < PositionalCount(filtered)
    ensures i < |RuntimeItems(e, filtered, seen)|
    ensures Text(RuntimeItems(e, filtered, seen)[i]) == "${" + EnvVarName(e.name, "ARG_" + Durations.Digits(i + 1)) + "}"
  {
    hide EnvVarName, FlagItems, PositionalCount;
    CountWithin(filtered);
  }

  /** A flag's value is replaced by a placeholder that carries the flag's name, without its dashes. */
  lemma ValueAs(server: string, name: string, value: string, bare: string)
    requires '=' !in name && TrimDashes(name) == bare
    ensures Text(ValueItem(server, name + "=" + value)) == name + "=${" + EnvVarName(server, bare) + "}"
    ensures Text(ValueItem(server, name)) == name + "=${" + EnvVarName(server, bare) + "}"
  {
    hide EnvVarName, ValueItem, Text, BeforeEquals, TrimDashes;
    BeforeEqualsWhole(name, value);
    TrimCommutes(name);
    TrimCommutes(name + "=" + value);
    ValueText(server, name);
    ValueText(server, name + "=" + value);
  }

  lemma ValueText(server: string, raw: string)
    ensures Text(ValueItem(server, raw)) == BeforeEquals(raw) + "=${" + EnvVarName(server, BeforeEquals(TrimDashes(raw))) + "}"
  {
    hide EnvVarName, BeforeEquals, TrimDashes;
    var name := EnvVarName(server, BeforeEquals(TrimDashes(raw)));
    assert "=" + ("${" + name + "}") == "=${" + name + "}";
  }

  lemma {:induction false} DashesTrimmed(name: string)
    ensures |TrimDashes(name)| <= |name| && TrimDashes(name) == name[|name| - |TrimDashes(name)|..]
    ensures forall i :: 0 <= i < |name| - |TrimDashes(name)| ==> name[i] == '-'
    ensures TrimDashes(name) != [] ==> TrimDashes(name)[0] != '-'
  {
    if name != [] && name[0] == '-' {
      DashesTrimmed(name[1..]);
      assert forall i :: 0 < i < |name| ==> name[i] == name[1..][i - 1];
    }
  }

  /** `out` is exported for the first `taken` arguments, and the rest with `name` among the names seen. */
  ghost predicate GoesOn(server: string, flags: seq<string>, seen: set<string>, out: seq<Item>, taken: nat, name: string)
    requires taken <= |flags|
  {
    FlagItems(server, flags, seen) == out + FlagItems(server, flags[taken..], seen + {name})
  }

  /** What is no flag, or a flag seen before, is left out. */
  lemma OtherIsSkipped(server: string, flags: seq<string>, seen: set<string>)
    requires flags != [] && (!("--" <= flags[0]) || BeforeEquals(flags[0]) in seen)
    ensures FlagItems(server, flags, seen) == FlagItems(server, flags[1..], seen)
  {
    hide BeforeEquals, ValueItem;
  }

  /** A new flag with a value in it is exported with a placeholder. */
  lemma JoinedFlagGoesOn(server: string, flags: seq<string>, seen: set<string>, name: string, value: string)
    requires flags != [] && flags[0] == name + "=" + value && "--" <= name && '=' !in name && name !in seen
    ensures GoesOn(server, flags, seen, [ValueItem(server, name + "=" + value)], 1, name)
  {
    hide ValueItem, BeforeEquals;
    BeforeEqualsWhole(name, value);
  }

  /** A new flag with its value behind it is exported with a placeholder, and the value is skipped. */
  lemma FlagWithValueGoesOn(server: string, flags: seq<string>, seen: set<string>)
    requires |flags| >= 2 && "--" <= flags[0] && '=' !in flags[0] && flags[0] !in seen && !("--" <= flags[1])
    ensures GoesOn(server, flags, seen, [ValueItem(server, flags[0])], 2, flags[0])
  {
    hide ValueItem, BeforeEquals;
    BareIsName(flags[0]);
    assert flags[1..][1..] == flags[2..];
  }

  /** A new flag that another follows, or nothing, is exported as it is. */
  lemma BareFlagGoesOn(server: string, flags: seq<string>, seen: set<string>)
    requires flags != [] && "--" <= flags[0] && '=' !in flags[0] && flags[0] !in seen && (|flags| == 1 || "--" <= flags[1])
    ensures GoesOn(server, flags, seen, [Bare(flags[0])], 1, flags[0])
  {
    hide ValueItem, BeforeEquals;
    BareIsName(flags[0]);
  }

  /** The arguments that stay are those whose raw text, if there is one, refers to no other server, in their order. */
  lemma {:induction false} FilteredAre(s: Server, illegal: (string, string) -> bool, k: nat) returns (positions: seq<nat>)
    requires k <= |s.context.args|
    ensures Increasing(positions, k) && |FilteredArgs(s, illegal, k)| == |positions|
    ensures forall j :: 0 <= j < |positions| ==>
      positions[j] < |s.context.args| && FilteredArgs(s, illegal, k)[j] == s.context.args[positions[j]]
    ensures forall i :: 0 <= i < k ==> (i in positions <==>
      !illegal(ForEnvVarName(s.entry.name), if i < |s.context.rawArgs| then s.context.rawArgs[i] else s.context.args[i]))
  {
    positions := [];
    if k > 0 {
      positions := FilteredAre(s, illegal, k - 1);
      IncreasingSnoc(positions, k - 1);
      var raw := if k - 1 < |s.context.rawArgs| then s.context.rawArgs[k - 1] else s.context.args[k - 1];
      if !illegal(ForEnvVarName(s.entry.name), raw) { positions := positions + [k - 1]; }
    }
  }

  /** The rest of an exported server: its own name, a placeholder per variable, no volumes and no raw text. */
  lemma ExportedContextIs(s: Server, illegal: (string, string) -> bool)
    ensures var x := ExportedServer(s, illegal);
      x.entry == s.entry && x.context.name == s.entry.name &&
      x.context.volumes == map[] && x.context.rawArgs == [] && x.context.rawEnv == map[] && x.context.rawVolumes == map[] &&
      (forall k :: k in x.context.env <==> k in s.entry.requiredEnvVars || k in s.context.env) &&
      (forall k :: k in x.context.env ==> x.context.env[k] == "${" + EnvVarName(s.entry.name, k) + "}")
  {
    hide EnvVarName, ArgItems, Texts;
  }

  /******* The contract *******/

  ghost predicate SelfMapped(contract: map<string, string>) {
    forall k :: k in contract ==> contract[k] == Reference(k)
  }

  ghost predicate Covers(contract: map<string, string>, items: seq<Item>) {
    forall i :: 0 <= i < |items| && !items[i].Bare? ==> items[i].name in contract
  }

  lemma {:induction false} RecordedMeans(contract: map<string, string>, items: seq<Item>)
    ensures contract.Keys <= Recorded(contract, items).Keys
    ensures Covers(Recorded(contract, items), items)
    ensures SelfMapped(contract) ==> SelfMapped(Recorded(contract, items))
  {
    hide Reference;
    if items != [] { RecordedMeans(contract, items[..|items| - 1]); }
  }

  lemma {:induction false} RecordedConcat(contract: map<string, string>, a: seq<Item>, b: seq<Item>)
    ensures Recorded(contract, a + b) == Recorded(Recorded(contract, a), b)
  {
    hide Reference;
    if b == [] {
      assert a + b == a;
    } else {
      assert (a + b)[..|a + b| - 1] == a + b[..|b| - 1];
      RecordedConcat(contract, a, b[..|b| - 1]);
    }
  }

  function Record(contract: map<string, string>, item: Item): map<string, string> {
    if item.Bare? then contract else contract[item.name := Reference(item.name)]
  }

  lemma RecordedLast(contract: map<string, string>, items: seq<Item>, item: Item)
    ensures Recorded(contract, items + [item]) == Record(Recorded(contract, items), item)
    ensures Texts(items + [item]) == Texts(items) + [Text(item)]
  {
    hide Reference, Text;
    assert (items + [item])[..|items|] == items;
  }

  /******* The loops *******/

  method ExportFlagArgs(server: string, flags: seq<string>, seen: set<string>, contract: map<string, string>)
    returns (result: seq<string>, recorded: map<string, string>)
    ensures result == Texts(FlagItems(server, flags, seen))
    ensures recorded == Recorded(contract, FlagItems(server, flags, seen))
  {
    hide Text, ValueItem, Record, Recorded, Texts, BeforeEquals;
    var names := seen;
    result, recorded := [], contract;
    ghost var items: seq<Item> := [];
    NothingRecorded(contract);
    var i := 0;
    while i < |flags|
      invariant 0 <= i <= |flags|
      invariant items + FlagItems(server, flags[i..], names) == FlagItems(server, flags, seen)
      invariant result == Texts(items) && recorded == Recorded(contract, items)
    {
      var flag := flags[i];
      ghost var rest := flags[i..];
      assert rest[0] == flag && rest[1..] == flags[i + 1..] && (|rest| > 1 ==> rest[1..][1..] == flags[i + 2..]);
      var argName := BeforeEquals(flag);
      i := i + 1;
      if !("--" <= flag) || argName in names { continue; }
      var item := Bare(flag);
      ghost var tail := flags[i..];
      if '=' in flag {
        item := ValueItem(server, flag);
      } else if i < |flags| && !("--" <= flags[i]) {
        item := ValueItem(server, flag);
        i := i + 1;
        tail := flags[i..];
      }
      assert FlagItems(server, rest, names) == [item] + FlagItems(server, tail, names + {argName});
      Shift(items, item, FlagItems(server, tail, names + {argName}));
      RecordedLast(contract, items, item);
      result := result + [Text(item)];
      recorded := Record(recorded, item);
      items := items + [item];
      names := names + {argName};
    }
    assert items + [] == items;
  }

  lemma Shift(items: seq<Item>, item: Item, tail: seq<Item>)
    ensures items + ([item] + tail) == items + [item] + tail
  {
  }

  lemma NothingRecorded(contract: map<string, string>)
    ensures Texts([]) == [] && Recorded(contract, []) == contract
  {
  }

  method ExportPositionalArgs(server: string, names: seq<string>, contract: map<string, string>)
    returns (result: seq<string>, recorded: map<string, string>)
    ensures result == Texts(PositionalItems(server, names))
    ensures recorded == Recorded(contract, PositionalItems(server, names))
  {
    hide Text, Record, Recorded, Texts, EnvVarName;
    result, recorded := [], contract;
    NothingRecorded(contract);
    var items := PositionalItems(server, names);
    for i := 0 to |names|
      invariant result == Texts(items[..i]) && recorded == Recorded(contract, items[..i])
    {
      var item := Positional(EnvVarName(server, names[i]));
      RecordedLast(contract, items[..i], item);
      assert items[..i + 1] == items[..i] + [item];
      result := result + [Text(item)];
      recorded := Record(recorded, item);
    }
    assert items[..|names|] == items;
  }

  method ExportValueArgs(server: string, raws: seq<string>, contract: map<string, string>)
    returns (result: seq<string>, recorded: map<string, string>)
    ensures result == Texts(ValueItems(server, raws))
    ensures recorded == Recorded(contract, ValueItems(server, raws))
  {
    hide Text, Record, Recorded, Texts, ValueItem;
    result, recorded := [], contract;
    NothingRecorded(contract);
    var items := ValueItems(server, raws);
    for i := 0 to |raws|
      invariant result == Texts(items[..i]) && recorded == Recorded(contract, items[..i])
    {
      var item := ValueItem(server, raws[i]);
      RecordedLast(contract, items[..i], item);
      assert items[..i + 1] == items[..i] + [item];
      result := result + [Text(item)];
      recorded := Record(recorded, item);
    }
    assert items[..|raws|] == items;
  }

  method FilterArgs(s: Server, illegal: (string, string) -> bool) returns (filtered: seq<string>)
    ensures filtered == FilteredArgs(s, illegal, |s.context.args|)
  {
    filtered := [];
    var srvName := ForEnvVarName(s.entry.name);
    for i := 0 to |s.context.args|
      invariant filtered == FilteredArgs(s, illegal, i)
    {
      var rawArg := if i < |s.context.rawArgs| then s.context.rawArgs[i] else s.context.args[i];
      if illegal(srvName, rawArg) { continue; }
      filtered := filtered + [s.context.args[i]];
    }
  }

  method PartitionArgs(args: seq<string>) returns (positional: seq<string>, flags: seq<string>)
    ensures positional + flags == args && |positional| == PositionalCount(args)
  {
    for i := 0 to |args|
      invariant PositionalCount(args) == i + PositionalCount(args[i..])
    {
      assert args[i..][0] == args[i] && args[i..][1..] == args[i + 1..];
      if "--" <= args[i] { return args[..i], args[i..]; }
    }
    return args, [];
  }

  method ExportRuntimeArgs(s: Server, illegal: (string, string) -> bool, seen: set<string>, contract: map<string, string>)
    returns (result: seq<string>, recorded: map<string, string>)
    ensures var items := RuntimeItems(s.entry, FilteredArgs(s, illegal, |s.context.args|), seen);
      result == Texts(items) && recorded == Recorded(contract, items)
  {
    hide FilteredArgs, PositionalItems, FlagItems, Texts, Recorded, PositionalCount, RequiredNames;
    var filtered := FilterArgs(s, illegal);
    CountWithin(filtered);
    var positional, flags := PartitionArgs(filtered);
    assert flags == filtered[PositionalCount(filtered)..];
    var first, recordedFirst := ExportPositionalArgs(s.entry.name, Numbered(|positional|), contract);
    var second, recordedSecond := ExportFlagArgs(s.entry.name, flags, seen, recordedFirst);
    ghost var a, b := PositionalItems(s.entry.name, Numbered(|positional|)), FlagItems(s.entry.name, flags, seen);
    TextsConcat(a, b);
    RecordedConcat(contract, a, b);
    return first + second, recordedSecond;
  }

  /** The names of the arguments after the positional ones. */
  method SeenNames(args: seq<string>, positional: nat) returns (seen: set<string>)
    requires positional <= |args|
    ensures seen == NamesFrom(args, positional)
  {
    hide BeforeEquals;
    seen := {};
    for i := positional to |args|
      invariant seen == set k | positional <= k < i :: BeforeEquals(args[k])
    {
      seen := seen + {BeforeEquals(args[i])};
    }
  }

  function NamesFrom(args: seq<string>, p: nat): set<string> {
    set i | p <= i < |args| :: BeforeEquals(args[i])
  }

  /** After `p` arguments come those named like `bools`, and then those named like `values`. */
  ghost predicate NamesLineUp(args: seq<string>, p: nat, bools: seq<string>, values: seq<string>) {
    |args| == p + |bools| + |values| &&
    (forall i :: 0 <= i < |bools| ==> BeforeEquals(args[p + i]) == BeforeEquals(bools[i])) &&
    (forall i :: 0 <= i < |values| ==> BeforeEquals(args[p + |bools| + i]) == BeforeEquals(values[i]))
  }

  lemma LinedUpNames(args: seq<string>, p: nat, bools: seq<string>, values: seq<string>, n: string)
    requires NamesLineUp(args, p, bools, values)
    ensures n in NamesFrom(args, p) <==> n in (set b | b in bools :: BeforeEquals(b)) + (set v | v in values :: BeforeEquals(v))
  {
    hide BeforeEquals;
    var b := |bools|;
    if n in NamesFrom(args, p) {
      var i :| p <= i < |args| && BeforeEquals(args[i]) == n;
      if i < p + b {
        assert BeforeEquals(args[p + (i - p)]) == BeforeEquals(bools[i - p]);
        assert bools[i - p] in bools;
      } else {
        assert BeforeEquals(args[p + b + (i - p - b)]) == BeforeEquals(values[i - p - b]);
        assert values[i - p - b] in values;
      }
    }
    if n in set x | x in bools :: BeforeEquals(x) {
      var i :| 0 <= i < b && BeforeEquals(bools[i]) == n;
      assert BeforeEquals(args[p + i]) == n;
    }
    if n in set x | x in values :: BeforeEquals(x) {
      var i :| 0 <= i < |values| && BeforeEquals(values[i]) == n;
      assert BeforeEquals(args[p + b + i]) == n;
    }
  }

  lemma SeenIsRequired(e: ServerEntry)
    ensures |Texts(RequiredItems(e))| >= |e.requiredPositionalArgs|
    ensures NamesFrom(Texts(RequiredItems(e)), |e.requiredPositionalArgs|) == RequiredNames(e)
  {
    hide BeforeEquals, Text, ValueItem, EnvVarName, NamesFrom;
    var args, items := Texts(RequiredItems(e)), RequiredItems(e);
    var p, bools, values := |e.requiredPositionalArgs|, e.requiredBoolArgs, e.requiredValueArgs;
    forall i | 0 <= i < |bools| ensures BeforeEquals(args[p + i]) == BeforeEquals(bools[i]) {
      assert items[p + i] == Bare(bools[i]);
      BareText(bools[i]);
    }
    forall i | 0 <= i < |values| ensures BeforeEquals(args[p + |bools| + i]) == BeforeEquals(values[i]) {
      assert items[p + |bools| + i] == ValueItem(e.name, values[i]);
      ValueItemName(e.name, values[i]);
    }
    assert NamesLineUp(args, p, bools, values);
    forall n ensures n in NamesFrom(args, p) <==> n in RequiredNames(e) {
      LinedUpNames(args, p, bools, values, n);
    }
  }

  lemma BareText(flag: string)
    ensures Text(Bare(flag)) == flag
  {
  }

  method ExportArgs(s: Server, illegal: (string, string) -> bool, contract: map<string, string>)
    returns (args: seq<string>, recorded: map<string, string>)
    ensures args == Texts(ArgItems(s, illegal)) && recorded == Recorded(contract, ArgItems(s, illegal))
  {
    hide Texts, Recorded, PositionalItems, BareItems, ValueItems, RuntimeItems, RequiredNames, NamesFrom, FilteredArgs;
    var e := s.entry;
    ghost var a, b := PositionalItems(e.name, e.requiredPositionalArgs), BareItems(e.requiredBoolArgs);
    ghost var c := ValueItems(e.name, e.requiredValueArgs);
    args, recorded := ExportPositionalArgs(e.name, e.requiredPositionalArgs, contract);
    BareRecordsNothing(recorded, e.requiredBoolArgs);
    args := args + e.requiredBoolArgs;
    var values;
    values, recorded := ExportValueArgs(e.name, e.requiredValueArgs, recorded);
    args := args + values;
    Joined(contract, a, b);
    Joined(contract, a + b, c);
    SeenIsRequired(e);
    var seen := SeenNames(args, |e.requiredPositionalArgs|);
    var more;
    more, recorded := ExportRuntimeArgs(s, illegal, seen, recorded);
    Joined(contract, RequiredItems(e), RuntimeItems(e, FilteredArgs(s, illegal, |s.context.args|), RequiredNames(e)));
    args := args + more;
  }

  lemma Joined(contract: map<string, string>, a: seq<Item>, b: seq<Item>)
    ensures Texts(a + b) == Texts(a) + Texts(b)
    ensures Recorded(contract, a + b) == Recorded(Recorded(contract, a), b)
  {
    TextsConcat(a, b);
    RecordedConcat(contract, a, b);
  }

  lemma {:induction false} BareRecordsNothing(contract: map<string, string>, flags: seq<string>)
    ensures Texts(BareItems(flags)) == flags && Recorded(contract, BareItems(flags)) == contract
  {
    if flags != [] {
      var front := flags[..|flags| - 1];
      BareRecordsNothing(contract, front);
      assert BareItems(flags)[..|flags| - 1] == BareItems(front);
    }
  }

  /******* Environment variables *******/

  method ExportEnvVars(s: Server) returns (envs: map<string, string>)
    ensures envs == ExportedEnv(s)
  {
    hide EnvVarName, Reference;
    envs := map[];
    var required := s.entry.requiredEnvVars;
    for i := 0 to |required|
      invariant envs.Keys == set k | k in required[..i]
      invariant forall k :: k in envs ==> envs[k] == Reference(EnvVarName(s.entry.name, k))
    {
      envs := envs[required[i] := Reference(EnvVarName(s.entry.name, required[i]))];
    }
    var todo := s.context.env.Keys;
    while todo != {}
      invariant todo <= s.context.env.Keys
      invariant envs.Keys == (set k | k in required) + (s.context.env.Keys - todo)
      invariant forall k :: k in envs ==> envs[k] == Reference(EnvVarName(s.entry.name, k))
    {
      var k :| k in todo;
      if k !in envs { envs := envs[k := Reference(EnvVarName(s.entry.name, k))]; }
      todo := todo - {k};
    }
  }

  predicate IsReference(ref: string) {
    |ref| >= 3 && "${" <= ref && ref[|ref| - 1] == '}'
  }

  /** The name inside a reference, trimmed. */
  function NameInside(ref: string): string
    requires IsReference(ref)
  {
    TrimSpace(ref[2..|ref| - 1])
  }

  predicate IsEntry(ref: string) {
    IsReference(ref) && NameInside(ref) != ""
  }

  ghost predicate ComesFrom(envs: map<string, string>, k: string, ref: string) {
    exists e :: e in envs && envs[e] == ref && IsEntry(ref) && NameInside(ref) == k
  }

  /** Skips what is no reference or has no name. Which entry survives when names collide depends on the order of the map. */
  method EnvVarsToContract(envs: map<string, string>) returns (contract: map<string, string>)
    ensures forall e :: e in envs && IsEntry(envs[e]) ==> NameInside(envs[e]) in contract
    ensures forall k :: k in contract ==> ComesFrom(envs, k, contract[k])
  {
    hide TrimSpace;
    contract := map[];
    var todo := envs.Keys;
    while todo != {}
      invariant todo <= envs.Keys
      invariant forall e :: e in envs && e !in todo && IsEntry(envs[e]) ==> NameInside(envs[e]) in contract
      invariant forall k :: k in contract ==> ComesFrom(envs, k, contract[k])
    {
      var e :| e in todo;
      if IsReference(envs[e]) {
        var name := NameInside(envs[e]);
        if name != "" { contract := contract[name := envs[e]]; }
      }
      todo := todo - {e};
    }
  }

  lemma ReferenceNames(server: string, k: string)
    ensures var ref := Reference(EnvVarName(server, k));
      IsReference(ref) && NameInside(ref) == TrimSpace(EnvVarName(server, k))
  {
    hide EnvVarName, TrimSpace;
    var ref := Reference(EnvVarName(server, k));
    assert ref[2..|ref| - 1] == EnvVarName(server, k);
  }

  /** The name of a variable does not end in white space. */
  predicate IsTidy(k: string) {
    k == "" || !IsSpace(k[|k| - 1])
  }

  lemma EnvVarNameEnds(server: string, k: string)
    ensures EnvVarName(server, k) != "" && !IsSpace(EnvVarName(server, k)[0])
    ensures IsSpace(EnvVarName(server, k)[|EnvVarName(server, k)| - 1]) <==> !IsTidy(k)
  {
    var name := EnvVarName(server, k);
    assert name[0] == ForEnvVarName(APP)[0];
    if k == "" {
      assert ForEnvVarName(k) == "";
      assert name == ForEnvVarName(APP) + "__" + ForEnvVarName(server) + "__";
      assert name[|name| - 1] == '_';
    } else {
      assert name[|name| - 1] == ForEnvVarName(k)[|k| - 1];
      UpperKeepsSpace(k[|k| - 1]);
    }
  }

  lemma UpperKeepsSpace(c: char)
    ensures IsSpace(UpperChar(if c == '-' then '_' else c)) <==> IsSpace(c)
  {
  }

  /** A placeholder for an environment variable is entered under its own name exactly when the variable's name is tidy. */
  lemma EnteredUnderItsNameIff(server: string, k: string)
    ensures NameInside(Reference(EnvVarName(server, k))) == EnvVarName(server, k) <==> IsTidy(k)
    ensures NameInside(Reference(EnvVarName(server, k))) != ""
  {
    hide EnvVarName, TrimSpace, IsTidy, IsSpace;
    var name := EnvVarName(server, k);
    ReferenceNames(server, k);
    EnvVarNameEnds(server, k);
    TrimKeepsIff(name);
  }

  lemma TrimKeepsIff(s: string)
    requires s != "" && !IsSpace(s[0])
    ensures TrimSpace(s) == s <==> !IsSpace(s[|s| - 1])
    ensures TrimSpace(s) != ""
  {
    hide IsSpace;
    TrimRightKeepsFirst(s);
    TrimRightFacts(s);
  }

  /******* The whole export *******/

  ghost predicate EnvTidy(s: Server) {
    forall k :: k in ExportedEnv(s) ==> IsTidy(k)
  }

  /** Every placeholder in the exported configuration of the server has an entry. */
  ghost predicate CoversServer(contract: map<string, string>, s: Server, illegal: (string, string) -> bool) {
    Covers(contract, ArgItems(s, illegal)) &&
    forall k :: k in ExportedEnv(s) ==> EnvVarName(s.entry.name, k) in contract
  }

  lemma CoversGrows(smaller: map<string, string>, larger: map<string, string>, s: Server, illegal: (string, string) -> bool)
    requires CoversServer(smaller, s, illegal) && smaller.Keys <= larger.Keys
    ensures CoversServer(larger, s, illegal)
  {
    hide ArgItems, ExportedEnv, EnvVarName;
  }

  method ExportServer(s: Server, illegal: (string, string) -> bool, before: map<string, string>)
    returns (context: ExecutionContext, contract: map<string, string>)
    ensures context == ExportedServer(s, illegal).context
    ensures before.Keys <= contract.Keys
    ensures EnvTidy(s) && SelfMapped(before) ==> SelfMapped(contract) && CoversServer(contract, s, illegal)
  {
    hide ArgItems, EnvVarName, Reference, TrimSpace, IsTidy, IsReference, NameInside, Texts, Recorded;
    var envs := ExportEnvVars(s);
    forall e | e in envs
      ensures IsEntry(envs[e])
      ensures IsTidy(e) ==> NameInside(envs[e]) == EnvVarName(s.entry.name, e)
    {
      ReferenceNames(s.entry.name, e);
      EnteredUnderItsNameIff(s.entry.name, e);
    }
    var entries := EnvVarsToContract(envs);
    var args;
    args, contract := ExportArgs(s, illegal, before + entries);
    RecordedMeans(before + entries, ArgItems(s, illegal));
    context := ExecutionContext(s.entry.name, args, envs, map[], [], map[], map[]);
  }

  function Contexts(servers: seq<Server>, illegal: (string, string) -> bool): map<string, ExecutionContext> {
    if servers == [] then map[] else
    var last := servers[|servers| - 1];
    Contexts(servers[..|servers| - 1], illegal)[last.entry.name := ExportedServer(last, illegal).context]
  }

  datatype Exported = Exported(contexts: map<string, ExecutionContext>, contract: map<string, string>) | NothingToExport

  /** When no variable's name ends in white space, every placeholder of every server is an entry, and is mapped to itself. */
  method Export(servers: seq<Server>, illegal: (string, string) -> bool) returns (r: Exported)
    ensures r.NothingToExport? <==> servers == []
    ensures r.Exported? ==> r.contexts == Contexts(servers, illegal)
    ensures r.Exported? && (forall i :: 0 <= i < |servers| ==> EnvTidy(servers[i])) ==>
      SelfMapped(r.contract) && forall i :: 0 <= i < |servers| ==> CoversServer(r.contract, servers[i], illegal)
  {
    hide EnvTidy, SelfMapped, CoversServer, ExportedServer;
    if servers == [] { return NothingToExport; }
    var contexts, contract: map<string, string> := map[], map[];
    NothingMapped();
    for n := 0 to |servers|
      invariant contexts == Contexts(servers[..n], illegal)
      invariant (forall i :: 0 <= i < n ==> EnvTidy(servers[i])) ==>
        SelfMapped(contract) && forall i :: 0 <= i < n ==> CoversServer(contract, servers[i], illegal)
    {
      assert servers[..n + 1][..n] == servers[..n];
      var context, next := ExportServer(servers[n], illegal, contract);
      forall i | 0 <= i < n && CoversServer(contract, servers[i], illegal) ensures CoversServer(next, servers[i], illegal) {
        CoversGrows(contract, next, servers[i], illegal);
      }
      contexts := contexts[servers[n].entry.name := context];
      contract := next;
    }
    assert servers[..|servers|] == servers;
    return Exported(contexts, contract);
  }

  lemma NothingMapped()
    ensures SelfMapped(map[])
  {
  }
}