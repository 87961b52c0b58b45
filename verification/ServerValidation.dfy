/** The checks that a server's runtime configuration supplies everything its entry requires. */
module ServerValidation {
  import opened ServerConfig

  predicate HasEnvVars(s: Server) {
    forall k :: k in s.entry.requiredEnvVars ==> k in s.context.env && s.context.env[k] != ""
  }

  /** Arguments before the first one with the long flag prefix. */
  function PositionalCount(args: seq<string>): nat {
    if args == [] || "--" <= args[0] then 0 else 1 + PositionalCount(args[1..])
  }

  predicate HasPositionalArgs(s: Server) {
    PositionalCount(s.context.args) >= |s.entry.requiredPositionalArgs|
  }

  /** The key is given a value either as "key=value" or by the argument that follows it. */
  predicate SuppliesValue(args: seq<string>, key: string, i: nat)
    requires i < |args|
  {
    || key + "=" <= args[i]
    || (args[i] == key && i + 1 < |args| && !("--" <= args[i + 1]))
  }

  predicate IsSupplied(args: seq<string>, key: string) {
    exists i :: 0 <= i < |args| && SuppliesValue(args, key, i)
  }

  predicate HasValueArgs(s: Server) {
    forall k :: k in s.entry.requiredValueArgs ==> IsSupplied(s.context.args, k)
  }

  predicate HasBoolArgs(s: Server) {
    forall k :: k in s.entry.requiredBoolArgs ==> k in s.context.args
  }

  predicate HasVolumes(s: Server) {
    forall name :: name in s.entry.volumes && s.entry.volumes[name].required ==>
      name in s.context.volumes && s.context.volumes[name] != ""
  }

  predicate Validates(s: Server) {
    HasEnvVars(s) && HasPositionalArgs(s) && HasValueArgs(s) && HasBoolArgs(s) && HasVolumes(s)
  }

  /******* The meaning of the checks *******/

  lemma {:induction false} CountStops(args: seq<string>)
    ensures PositionalCount(args) <= |args|
    ensures PositionalCount(args) == |args| || "--" <= args[PositionalCount(args)]
    ensures forall i :: 0 <= i < PositionalCount(args) ==> !("--" <= args[i])
  {
    if args != [] && !("--" <= args[0]) {
      CountStops(args[1..]);
      var n := PositionalCount(args[1..]);
      assert forall i :: 0 < i <= n ==> args[i] == args[1..][i - 1];
    }
  }

  /**
    * A server is refused exactly when a required variable is absent or empty, fewer arguments stand before the first
    * long flag than there are required positional ones, a required flag has no value, a required boolean flag is no
    * argument, or a required volume is absent or empty.
    */
  lemma RefusedIff(s: Server)
    ensures var args := s.context.args;
      !Validates(s) <==>
      || (exists k :: k in s.entry.requiredEnvVars && (k !in s.context.env || s.context.env[k] == ""))
      || (exists n :: 0 <= n < |s.entry.requiredPositionalArgs| && n <= |args| && (n == |args| || "--" <= args[n]))
      || (exists k :: k in s.entry.requiredValueArgs && forall i :: 0 <= i < |args| ==>
            !(k + "=" <= args[i]) && (args[i] == k ==> i + 1 == |args| || "--" <= args[i + 1]))
      || (exists k :: k in s.entry.requiredBoolArgs && k !in args)
      || (exists v :: v in s.entry.volumes && s.entry.volumes[v].required &&
            (v !in s.context.volumes || s.context.volumes[v] == ""))
  {
    hide HasEnvVars, HasPositionalArgs, HasValueArgs, HasBoolArgs, HasVolumes;
    EnvVarsFailIff(s);
    PositionalArgsFailIff(s);
    ValueArgsFailIff(s);
    BoolArgsFailIff(s);
    VolumesFailIff(s);
  }

  lemma EnvVarsFailIff(s: Server)
    ensures !HasEnvVars(s) <==> exists k :: k in s.entry.requiredEnvVars && (k !in s.context.env || s.context.env[k] == "")
  {
  }

  lemma PositionalArgsFailIff(s: Server)
    ensures var args := s.context.args;
      !HasPositionalArgs(s) <==>
      exists n :: 0 <= n < |s.entry.requiredPositionalArgs| && n <= |args| && (n == |args| || "--" <= args[n])
  {
    hide PositionalCount;
    CountStops(s.context.args);
    var args, required, n := s.context.args, s.entry.requiredPositionalArgs, PositionalCount(s.context.args);
    if n < |required| {
      assert 0 <= n < |required| && n <= |args| && (n == |args| || "--" <= args[n]);
    } else {
      forall m | 0 <= m < |required| && m <= |args| ensures !(m == |args| || "--" <= args[m]) {}
    }
  }

  lemma ValueArgsFailIff(s: Server)
    ensures var args := s.context.args;
      !HasValueArgs(s) <==>
      exists k :: k in s.entry.requiredValueArgs && forall i :: 0 <= i < |args| ==>
        !(k + "=" <= args[i]) && (args[i] == k ==> i + 1 == |args| || "--" <= args[i + 1])
  {
    hide IsSupplied;
    forall k | k in s.entry.requiredValueArgs
      ensures !IsSupplied(s.context.args, k) <==> forall i :: 0 <= i < |s.context.args| ==>
        !(k + "=" <= s.context.args[i]) && (s.context.args[i] == k ==> i + 1 == |s.context.args| || "--" <= s.context.args[i + 1])
    {
      ValueMissingIff(s.context.args, k);
    }
  }

  lemma BoolArgsFailIff(s: Server)
    ensures !HasBoolArgs(s) <==> exists k :: k in s.entry.requiredBoolArgs && k !in s.context.args
  {
  }

  lemma VolumesFailIff(s: Server)
    ensures !HasVolumes(s) <==>
      exists v :: v in s.entry.volumes && s.entry.volumes[v].required && (v !in s.context.volumes || s.context.volumes[v] == "")
  {
  }

  lemma ValueMissingIff(args: seq<string>, k: string)
    ensures !IsSupplied(args, k) <==> forall i :: 0 <= i < |args| ==>
      !(k + "=" <= args[i]) && (args[i] == k ==> i + 1 == |args| || "--" <= args[i + 1])
  {
    if IsSupplied(args, k) {
      var i :| 0 <= i < |args| && SuppliesValue(args, k, i);
      assert k + "=" <= args[i] || (args[i] == k && i + 1 < |args| && !("--" <= args[i + 1]));
    } else {
      forall i | 0 <= i < |args| ensures !(k + "=" <= args[i]) && (args[i] == k ==> i + 1 == |args| || "--" <= args[i + 1]) {
        assert !SuppliesValue(args, k, i);
      }
    }
  }

  /******* The checks as they are made *******/

  datatype Problem =
    | MissingEnvVar(name: string)
    | TooFewPositionals(required: nat, given: nat)
    | MissingPositional(name: string)
    | MissingValue(name: string)
    | MissingBool(name: string)
    | MissingVolume(name: string)

  method CheckEnvVars(s: Server) returns (errs: seq<Problem>)
    ensures errs == [] <==> HasEnvVars(s)
    ensures forall p :: p in errs <==>
      p.MissingEnvVar? && p.name in s.entry.requiredEnvVars && (p.name !in s.context.env || s.context.env[p.name] == "")
  {
    errs := [];
    for i := 0 to |s.entry.requiredEnvVars|
      invariant forall p :: p in errs <==>
        && p.MissingEnvVar? && p.name in s.entry.requiredEnvVars[..i]
        && (p.name !in s.context.env || s.context.env[p.name] == "")
    {
      var key := s.entry.requiredEnvVars[i];
      if key !in s.context.env || s.context.env[key] == "" {
        errs := errs + [MissingEnvVar(key)];
      }
    }
    if errs != [] {
      assert errs[0] in errs;
    } else {
      forall k | k in s.entry.requiredEnvVars ensures k in s.context.env && s.context.env[k] != "" {
        assert MissingEnvVar(k) !in errs;
      }
    }
  }

  method CheckPositionalArgs(s: Server) returns (errs: seq<Problem>)
    ensures errs == [] <==> HasPositionalArgs(s)
    ensures forall p :: p in errs ==> p.TooFewPositionals? || p.MissingPositional?
    ensures errs != [] ==>
      var n := PositionalCount(s.context.args);
      errs[0] == TooFewPositionals(|s.entry.requiredPositionalArgs|, n) &&
      |errs| == 1 + |s.entry.requiredPositionalArgs| - n &&
      forall i :: n <= i < |s.entry.requiredPositionalArgs| ==>
        errs[1 + i - n] == MissingPositional(s.entry.requiredPositionalArgs[i])
  {
    var args, required := s.context.args, s.entry.requiredPositionalArgs;
    var count := 0;
    while count < |args| && !("--" <= args[count])
      invariant count <= |args| && PositionalCount(args) == count + PositionalCount(args[count..])
    {
      assert args[count..][1..] == args[count + 1..];
      count := count + 1;
    }
    errs := [];
    if count < |required| {
      errs := [TooFewPositionals(|required|, count)];
      for i := count to |required|
        invariant |errs| == 1 + i - count && errs[0] == TooFewPositionals(|required|, count)
        invariant forall p :: p in errs ==> p.TooFewPositionals? || p.MissingPositional?
        invariant forall j :: count <= j < i ==> errs[1 + j - count] == MissingPositional(required[j])
      {
        errs := errs + [MissingPositional(required[i])];
      }
    }
  }

  method FindValue(args: seq<string>, key: string) returns (found: bool)
    ensures found <==> IsSupplied(args, key)
  {
    for i := 0 to |args|
      invariant forall j :: 0 <= j < i ==> !SuppliesValue(args, key, j)
    {
      if key + "=" <= args[i] {
        assert SuppliesValue(args, key, i);
        return true;
      }
      if args[i] == key && i + 1 < |args| && !("--" <= args[i + 1]) {
        assert SuppliesValue(args, key, i);
        return true;
      }
    }
    return false;
  }

  method CheckValueArgs(s: Server) returns (errs: seq<Problem>)
    ensures errs == [] <==> HasValueArgs(s)
    ensures forall p :: p in errs <==>
      p.MissingValue? && p.name in s.entry.requiredValueArgs && !IsSupplied(s.context.args, p.name)
  {
    hide IsSupplied;
    errs := [];
    for i := 0 to |s.entry.requiredValueArgs|
      invariant forall p :: p in errs <==>
        p.MissingValue? && p.name in s.entry.requiredValueArgs[..i] && !IsSupplied(s.context.args, p.name)
    {
      var found := FindValue(s.context.args, s.entry.requiredValueArgs[i]);
      if !found {
        errs := errs + [MissingValue(s.entry.requiredValueArgs[i])];
      }
    }
    if errs != [] {
      assert errs[0] in errs;
    } else {
      forall k | k in s.entry.requiredValueArgs ensures IsSupplied(s.context.args, k) { assert MissingValue(k) !in errs; }
    }
  }

  method CheckBoolArgs(s: Server) returns (errs: seq<Problem>)
    ensures errs == [] <==> HasBoolArgs(s)
    ensures forall p :: p in errs <==>
      p.MissingBool? && p.name in s.entry.requiredBoolArgs && p.name !in s.context.args
  {
    errs := [];
    for i := 0 to |s.entry.requiredBoolArgs|
      invariant forall p :: p in errs <==>
        p.MissingBool? && p.name in s.entry.requiredBoolArgs[..i] && p.name !in s.context.args
    {
      var key := s.entry.requiredBoolArgs[i];
      if key !in s.context.args {
        errs := errs + [MissingBool(key)];
      }
    }
    if errs != [] {
      assert errs[0] in errs;
    } else {
      forall k | k in s.entry.requiredBoolArgs ensures k in s.context.args { assert MissingBool(k) !in errs; }
    }
  }

  method CheckVolumes(s: Server) returns (errs: seq<Problem>)
    ensures errs == [] <==> HasVolumes(s)
    ensures forall p :: p in errs <==>
      p.MissingVolume? && p.name in s.entry.volumes && s.entry.volumes[p.name].required &&
      (p.name !in s.context.volumes || s.context.volumes[p.name] == "")
  {
    errs := [];
    var todo := s.entry.volumes.Keys;
    while todo != {}
      invariant todo <= s.entry.volumes.Keys
      invariant forall p :: p in errs <==>
        && p.MissingVolume? && p.name in s.entry.volumes && p.name !in todo && s.entry.volumes[p.name].required
        && (p.name !in s.context.volumes || s.context.volumes[p.name] == "")
    {
      var name :| name in todo;
      todo := todo - {name};
      if s.entry.volumes[name].required && (name !in s.context.volumes || s.context.volumes[name] == "") {
        errs := errs + [MissingVolume(name)];
      }
    }
    if errs != [] {
      assert errs[0] in errs;
    } else {
      forall v | v in s.entry.volumes && s.entry.volumes[v].required
        ensures v in s.context.volumes && s.context.volumes[v] != ""
      {
        assert MissingVolume(v) !in errs;
      }
    }
  }

  /** Everything that is missing, in the order of the checks. */
  method Validate(s: Server) returns (errs: seq<Problem>)
    ensures errs == [] <==> Validates(s)
    ensures forall k :: MissingEnvVar(k) in errs <==>
      k in s.entry.requiredEnvVars && (k !in s.context.env || s.context.env[k] == "")
    ensures forall k :: MissingValue(k) in errs <==> k in s.entry.requiredValueArgs && !IsSupplied(s.context.args, k)
    ensures forall k :: MissingBool(k) in errs <==> k in s.entry.requiredBoolArgs && k !in s.context.args
    ensures forall v :: MissingVolume(v) in errs <==>
      v in s.entry.volumes && s.entry.volumes[v].required && (v !in s.context.volumes || s.context.volumes[v] == "")
  {
    var a := CheckEnvVars(s);
    var b := CheckPositionalArgs(s);
    var c := CheckValueArgs(s);
    var d := CheckBoolArgs(s);
    var e := CheckVolumes(s);
    hide HasEnvVars, HasPositionalArgs, HasValueArgs, HasBoolArgs, HasVolumes, IsSupplied, PositionalCount;
    errs := a + b + c + d + e;
    assert forall p :: p in errs <==> p in a || p in b || p in c || p in d || p in e;
  }
}
