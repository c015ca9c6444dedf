/** The echo line of `print_args` (`src/wrong_line_endings.h`): the invocation
    name, a colon, then every user token preceded by one space. The newline
    written by the closing `puts("")` is the line's terminator and is added
    when lines are laid out on standard output. */
module Echo {

  /** The text written by the loop of `print_args`: `" " + t` for each token,
      in order. */
  function Spaced(ts: seq<string>): string
  {
    if |ts| == 0 then "" else " " + ts[0] + Spaced(ts[1..])
  }

  /** The echo line for the argument vector `args`. */
  function EchoLine(args: seq<string>): string
    requires |args| >= 1
  {
    args[0] + ":" + Spaced(args[1..])
  }

  /** Total length of a sequence of strings. */
  function TotalLength(ts: seq<string>): nat
  {
    if |ts| == 0 then 0 else |ts[0]| + TotalLength(ts[1..])
  }

  /** Writing the tokens in two batches writes the same text as one batch. */
  lemma {:induction false} SpacedAppend(a: seq<string>, b: seq<string>)
    ensures Spaced(a + b) == Spaced(a) + Spaced(b)
    decreases |a|
  {
    if |a| == 0 {
      assert a + b == b;
    } else {
      assert (a + b)[1..] == a[1..] + b;
      SpacedAppend(a[1..], b);
    }
  }

  /** `print_args` as written: `printf("%s:", argv[0])`, then `printf(" %s", argv[i])`
      for `i` from 1 while `i < argc`; the result is the text before `puts("")`. */
  method PrintArgs(args: seq<string>) returns (line: string)
    requires |args| >= 1
    ensures line == EchoLine(args)
    ensures |line| == |args[0]| + 1 + (|args| - 1) + TotalLength(args[1..])
  {
    line := args[0] + ":";
    var i := 1;
    while i < |args|
      invariant 1 <= i <= |args|
      invariant line == args[0] + ":" + Spaced(args[1..i])
    {
      SpacedAppend(args[1..i], [args[i]]);
      assert args[1..i + 1] == args[1..i] + [args[i]];
      line := line + " " + args[i];
      i := i + 1;
    }
    assert args[1..i] == args[1..];
    EchoLineLength(args);
  }

  /** The line is `|argv[0]| + 1 + Σ (1 + |argv[i]|)` characters long, the
      terminating newline excluded. */
  lemma EchoLineLength(args: seq<string>)
    requires |args| >= 1
    ensures |EchoLine(args)| == |args[0]| + 1 + (|args| - 1) + TotalLength(args[1..])
  {
    SpacedLength(args[1..]);
  }

  lemma {:induction false} SpacedLength(ts: seq<string>)
    ensures |Spaced(ts)| == |ts| + TotalLength(ts)
  {
    if |ts| > 0 {
      SpacedLength(ts[1..]);
    }
  }

  /** With no user tokens the line is just the name and a colon: no trailing
      space. */
  lemma EchoLineNoTokens(name: string)
    ensures EchoLine([name]) == name + ":"
  {
    assert [name][1..] == [];
  }

  /** Token `k` sits in the line after the name, the colon and the earlier
      tokens, preceded by exactly one space; the later tokens follow it. Every
      token is written, flags included, in its original order. */
  lemma EchoLineAt(args: seq<string>, k: nat)
    requires 1 <= k < |args|
    ensures EchoLine(args) == args[0] + ":" + Spaced(args[1..k]) + " " + args[k] + Spaced(args[k + 1..])
  {
    assert args[1..] == args[1..k] + args[k..];
    SpacedAppend(args[1..k], args[k..]);
    assert args[k..][1..] == args[k + 1..];
  }

  datatype Option<T> = None | Some(value: T)

  /** Splits `s` at the first occurrence of `c`, if there is one. */
  function Cut(s: string, c: char): (r: Option<(string, string)>)
    ensures r.Some? ==> s == r.value.0 + [c] + r.value.1 && c !in r.value.0
    ensures r.None? <==> c !in s
  {
    if |s| == 0 then None
    else if s[0] == c then Some(("", s[1..]))
    else match Cut(s[1..], c)
      case None => None
      case Some((h, t)) => Some(([s[0]] + h, t))
  }

  /** Splits `s` at every occurrence of `c`; always at least one field. */
  function Fields(s: string, c: char): (r: seq<string>)
    ensures |r| >= 1
    decreases |s|
  {
    match Cut(s, c)
    case None => [s]
    case Some((h, t)) => [h] + Fields(t, c)
  }

  /** Reads an echo line back into the argument vector: the name up to the
      first colon, then the space-separated tokens. */
  function ParseEchoLine(line: string): Option<seq<string>>
  {
    match Cut(line, ':')
    case None => None
    case Some((name, rest)) =>
      if |rest| == 0 then Some([name])
      else if rest[0] == ' ' then Some([name] + Fields(rest[1..], ' '))
      else None
  }

  lemma {:induction false} FieldsOfSpaced(t: string, ts: seq<string>)
    requires ' ' !in t
    requires forall i :: 0 <= i < |ts| ==> ' ' !in ts[i]
    ensures Fields(t + Spaced(ts), ' ') == [t] + ts
    decreases |ts|
  {
    if |ts| == 0 {
      assert t + Spaced(ts) == t;
    } else {
      var s := t + Spaced(ts);
      assert s == t + [' '] + (ts[0] + Spaced(ts[1..]));
      CutFirst(t, ' ', ts[0] + Spaced(ts[1..]));
      FieldsOfSpaced(ts[0], ts[1..]);
      assert [ts[0]] + ts[1..] == ts;
    }
  }

  lemma {:induction false} CutFirst(h: string, c: char, t: string)
    requires c !in h
    ensures Cut(h + [c] + t, c) == Some((h, t))
    decreases |h|
  {
    if |h| > 0 {
      assert (h + [c] + t)[1..] == h[1..] + [c] + t;
      CutFirst(h[1..], c, t);
      assert [h[0]] + h[1..] == h;
    }
  }

  /** The echo line loses nothing and reorders nothing: as long as the name has
      no colon and no token has a space, it reads back as the exact argument
      vector. */
  lemma EchoLineRoundTrip(args: seq<string>)
    requires |args| >= 1 && ':' !in args[0]
    requires forall i :: 1 <= i < |args| ==> ' ' !in args[i]
    ensures ParseEchoLine(EchoLine(args)) == Some(args)
  {
    var rest := Spaced(args[1..]);
    CutFirst(args[0], ':', rest);
    assert EchoLine(args) == args[0] + [':'] + rest;
    if |args| == 1 {
      assert args == [args[0]];
    } else {
      var ts := args[1..];
      assert rest == " " + (ts[0] + Spaced(ts[1..]));
      FieldsOfSpaced(ts[0], ts[1..]);
      assert rest[1..] == ts[0] + Spaced(ts[1..]);
      assert [args[0]] + ([ts[0]] + ts[1..]) == args;
    }
  }
}
