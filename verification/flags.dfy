/** The flag scan of `src/demo.c`: `is_arg` and the loop of `parse_args`.
    The process-wide `verbose` flag becomes a value returned by the scan, and
    the `exit(0)` taken on a help flag becomes the `Help` outcome. */
module Flags {
  import opened CStrings

  const HelpShort := "-h"
  const HelpLong := "--help"
  const VerboseShort := "-v"
  const VerboseLong := "--verbose"

  /** `is_arg`: the argument matches the short or the long spelling of a flag,
      each compared with `strcmp`. */
  predicate IsArg(arg: string, shortName: string, longName: string)
  {
    Strcmp(arg, shortName) == 0 || Strcmp(arg, longName) == 0
  }

  predicate IsHelp(arg: string)
  {
    IsArg(arg, HelpShort, HelpLong)
  }

  predicate IsVerbose(arg: string)
  {
    IsArg(arg, VerboseShort, VerboseLong)
  }

  /** A well-formed argument vector: the invocation name followed by the user's
      tokens, all of them C strings. `print_args` dereferences `argv[0]`, so an
      empty vector is not one the program can handle. */
  predicate Argv(args: seq<string>)
  {
    |args| >= 1 && forall i :: 0 <= i < |args| ==> IsCString(args[i])
  }

  /** What the scan decides: stop with the help text, or carry on with the
      verbose flag it collected. */
  datatype Scan = Help | Continue(verbose: bool)

  /** Some user token (index 1 onward) is exactly `-h` or `--help`. */
  predicate HelpRequested(args: seq<string>)
  {
    exists i :: 1 <= i < |args| && (args[i] == HelpShort || args[i] == HelpLong)
  }

  /** Some user token (index 1 onward) is exactly `-v` or `--verbose`. */
  predicate VerboseRequested(args: seq<string>)
  {
    exists i :: 1 <= i < |args| && (args[i] == VerboseShort || args[i] == VerboseLong)
  }

  /** The decision the scan ought to reach, stated without the loop. */
  function Expected(args: seq<string>): Scan
  {
    if HelpRequested(args) then Help else Continue(VerboseRequested(args))
  }

  /** `is_arg` on C strings is exact equality with either spelling. */
  lemma IsArgExact(arg: string, shortName: string, longName: string)
    requires IsCString(arg) && IsCString(shortName) && IsCString(longName)
    ensures IsArg(arg, shortName, longName) <==> arg == shortName || arg == longName
  {
    StrcmpZeroIffEqual(arg, shortName);
    StrcmpZeroIffEqual(arg, longName);
  }

  /** The flag spellings are C strings. */
  lemma FlagNamesAreCStrings()
    ensures IsCString(HelpShort) && IsCString(HelpLong)
    ensures IsCString(VerboseShort) && IsCString(VerboseLong)
  {
  }

  /** `is_arg(a, "-h", "--help")` and `is_arg(a, "-v", "--verbose")` on a C string. */
  lemma FlagTests(arg: string)
    requires IsCString(arg)
    ensures IsHelp(arg) <==> arg == HelpShort || arg == HelpLong
    ensures IsVerbose(arg) <==> arg == VerboseShort || arg == VerboseLong
  {
    FlagNamesAreCStrings();
    IsArgExact(arg, HelpShort, HelpLong);
    IsArgExact(arg, VerboseShort, VerboseLong);
  }

  /** The `for` loop of `parse_args` from index `i` on, with the verbose flag
      collected so far: a help token ends the scan at once, a verbose token
      sets the flag, every other token is passed over. */
  function ScanFrom(args: seq<string>, i: nat, verbose: bool): Scan
    requires i <= |args|
    decreases |args| - i
  {
    if i == |args| then Continue(verbose)
    else if IsHelp(args[i]) then Help
    else if IsVerbose(args[i]) then ScanFrom(args, i + 1, true)
    else ScanFrom(args, i + 1, verbose)
  }

  /** `parse_args`' scan: from index 1, with `verbose` initially false. */
  function ScanArgs(args: seq<string>): Scan
    requires |args| >= 1
  {
    ScanFrom(args, 1, false)
  }

  /** The scan from `i` on finds help iff a later token is a help flag, and
      otherwise returns the flag it was given or'ed with the presence of a
      later verbose token. */
  lemma {:induction false} ScanFromMeaning(args: seq<string>, i: nat, verbose: bool)
    requires Argv(args) && 1 <= i <= |args|
    ensures ScanFrom(args, i, verbose) ==
      if exists j :: i <= j < |args| && (args[j] == HelpShort || args[j] == HelpLong) then Help
      else Continue(verbose || exists j :: i <= j < |args| && (args[j] == VerboseShort || args[j] == VerboseLong))
    decreases |args| - i
  {
    if i < |args| {
      FlagTests(args[i]);
      if !IsHelp(args[i]) {
        ScanFromMeaning(args, i + 1, verbose || IsVerbose(args[i]));
        if IsVerbose(args[i]) {
          assert ScanFrom(args, i, verbose) == ScanFrom(args, i + 1, true);
        } else {
          assert ScanFrom(args, i, verbose) == ScanFrom(args, i + 1, verbose);
        }
      }
    }
  }

  /** The scan reaches the decision `Expected` describes: help iff some user
      token is a help flag, otherwise verbose iff some user token is a verbose
      flag. */
  lemma ScanMeaning(args: seq<string>)
    requires Argv(args)
    ensures ScanArgs(args) == Expected(args)
  {
    ScanFromMeaning(args, 1, false);
  }

  /** The loop of `parse_args` as written, returning early where the source
      calls `exit(0)`. */
  method ParseArgs(args: seq<string>) returns (r: Scan)
    requires Argv(args)
    ensures r == Expected(args)
    ensures r == ScanArgs(args)
  {
    var verbose := false;
    var i := 1;
    while i < |args|
      invariant 1 <= i <= |args|
      invariant forall j :: 1 <= j < i ==> args[j] != HelpShort && args[j] != HelpLong
      invariant verbose <==> exists j :: 1 <= j < i && (args[j] == VerboseShort || args[j] == VerboseLong)
      invariant ScanFrom(args, i, verbose) == ScanArgs(args)
    {
      FlagTests(args[i]);
      if IsHelp(args[i]) {
        return Help;
      } else if IsVerbose(args[i]) {
        verbose := true;
      }
      i := i + 1;
    }
    r := Continue(verbose);
  }

  /** A help token anywhere among the user tokens wins, whatever other flags
      come before or after it. */
  lemma HelpAnywhere(args: seq<string>, k: nat)
    requires Argv(args) && 1 <= k < |args|
    requires args[k] == HelpShort || args[k] == HelpLong
    ensures ScanArgs(args) == Help
  {
    ScanMeaning(args);
  }

  /** The scan stops at the first help token: whatever follows it is never
      looked at. */
  lemma StopsAtHelp(args: seq<string>, k: nat, rest: seq<string>)
    requires Argv(args) && 1 <= k < |args| && Argv(args[..k + 1] + rest)
    requires args[k] == HelpShort || args[k] == HelpLong
    ensures ScanArgs(args[..k + 1] + rest) == ScanArgs(args) == Help
  {
    var cut := args[..k + 1] + rest;
    assert cut[k] == args[k];
    HelpAnywhere(args, k);
    HelpAnywhere(cut, k);
  }

  /** The invocation name is never read as a flag: the scan starts at index 1. */
  lemma NameIsNotAFlag(args: seq<string>, name: string)
    requires |args| >= 1
    ensures ScanArgs([name] + args[1..]) == ScanArgs(args)
  {
    var other := [name] + args[1..];
    forall i: nat, v: bool | 1 <= i <= |args|
      ensures ScanFrom(other, i, v) == ScanFrom(args, i, v)
    {
      SameTail(other, args, i, v);
    }
  }

  /** The scan from `i` on reads only indices 1 onward, so vectors that agree
      there scan alike. */
  lemma {:induction false} SameTail(a: seq<string>, b: seq<string>, i: nat, v: bool)
    requires |a| == |b| && 1 <= i <= |a|
    requires a[1..] == b[1..]
    ensures ScanFrom(a, i, v) == ScanFrom(b, i, v)
    decreases |a| - i
  {
    if i < |a| {
      assert a[i] == a[1..][i - 1] == b[i];
      SameTail(a, b, i + 1, true);
      SameTail(a, b, i + 1, v);
    }
  }

  /** Example: a vector whose only element is `-h` takes the normal path. */
  lemma HelpAsNameIgnored()
    ensures ScanArgs([HelpShort]) == Continue(false)
  {
  }

  /** The decision depends only on which tokens are present among the user
      tokens, not on their order or on how often they repeat. */
  lemma PresenceOnly(a: seq<string>, b: seq<string>)
    requires Argv(a) && Argv(b)
    requires forall t :: t in a[1..] <==> t in b[1..]
    ensures ScanArgs(a) == ScanArgs(b)
  {
    ScanMeaning(a);
    ScanMeaning(b);
    InTail(a, HelpShort);
    InTail(a, HelpLong);
    InTail(a, VerboseShort);
    InTail(a, VerboseLong);
    InTail(b, HelpShort);
    InTail(b, HelpLong);
    InTail(b, VerboseShort);
    InTail(b, VerboseLong);
  }

  /** Membership in the user tokens is a witness index from 1 on. */
  lemma InTail(args: seq<string>, t: string)
    requires |args| >= 1
    ensures t in args[1..] <==> exists i :: 1 <= i < |args| && args[i] == t
  {
    if t in args[1..] {
      var j :| 0 <= j < |args[1..]| && args[1..][j] == t;
      assert args[j + 1] == t;
    }
  }

  /** Permissiveness: inserting a token that is neither flag anywhere among the
      user tokens changes nothing. */
  lemma UnknownTokenIgnored(args: seq<string>, k: nat, t: string)
    requires Argv(args) && 1 <= k <= |args| && IsCString(t)
    requires t != HelpShort && t != HelpLong && t != VerboseShort && t != VerboseLong
    ensures ScanArgs(args[..k] + [t] + args[k..]) == ScanArgs(args)
  {
    var more := args[..k] + [t] + args[k..];
    assert Argv(more) by {
      forall i | 0 <= i < |more| ensures IsCString(more[i]) {
        if i > k { assert more[i] == args[i - 1]; }
      }
    }
    forall u ensures u in more[1..] <==> u in args[1..] || u == t {
      assert more[1..] == args[1..k] + [t] + args[k..];
      assert args[1..] == args[1..k] + args[k..];
    }
    ScanMeaning(args);
    ScanMeaning(more);
    InTail(args, HelpShort);
    InTail(args, HelpLong);
    InTail(args, VerboseShort);
    InTail(args, VerboseLong);
    InTail(more, HelpShort);
    InTail(more, HelpLong);
    InTail(more, VerboseShort);
    InTail(more, VerboseLong);
  }
}
