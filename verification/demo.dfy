/** The whole run of the program (`main` in `src/demo.c`) as a pure function
    from the argument vector to the lines written on standard output and the
    exit status. */
module Demo {
  import opened Flags
  import opened Echo

  /** The line `print_hello` writes. */
  const Greeting := "Hello, world!"
  /** The line `print_goodbye` writes. */
  const Farewell := "Goodbye, world!"
  /** The line written when verbose mode is on. */
  const VerboseNotice := "Verbose mode enabled!"

  /** The `help` format string, one source line per line here, with each
      line's text and its newline written as separate pieces, and the option
      lines split into option and description, so that the proof that no
      other `%` occurs checks only short literals and stays within the
      solver's budget. */
  const HelpTemplate: string :=
    "Usage: %s [-h] [-v]" + "\n" +
    "\n" +
    "Do some stuff!" + "\n" +
    "\n" +
    "Options:" + "\n" +
    " -h, --help        " + "Print this help text and exit." + "\n" +
    " -v, --verbose     " + "Enable verbose mode." + "\n"

  /** The lines of the help text after the first, without their newlines
      (the option lines are written in two pieces, option and description,
      for the same reason as in `HelpTemplate`: short literals keep the
      no-`%` proof within the solver's budget). */
  const HelpTail: seq<string> :=
    [ "",
      "Do some stuff!",
      "",
      "Options:",
      " -h, --help        " + "Print this help text and exit.",
      " -v, --verbose     " + "Enable verbose mode." ]

  /** The template around its one `%s` conversion. */
  const HelpBefore := "Usage: "
  const HelpAfter: string := " [-h] [-v]" + "\n" + Stdout(HelpTail)

  /** `printf(fmt, arg)` for a format whose only conversion is one `%s`: the
      first `%s` is replaced by `arg`, taken verbatim, and every other
      character is copied. */
  function FormatS(fmt: string, arg: string): string
  {
    if |fmt| < 2 then fmt
    else if fmt[0] == '%' && fmt[1] == 's' then arg + fmt[2..]
    else [fmt[0]] + FormatS(fmt[1..], arg)
  }

  /** `FormatS` puts the argument where the `%s` stands and changes nothing
      else. */
  lemma {:induction false} FormatSubstitutes(before: string, after: string, arg: string)
    requires '%' !in before
    ensures FormatS(before + "%s" + after, arg) == before + arg + after
    decreases |before|
  {
    if |before| > 0 {
      assert (before + "%s" + after)[1..] == before[1..] + "%s" + after;
      FormatSubstitutes(before[1..], after, arg);
    }
  }

  /** A character absent from every line is absent from their layout,
      unless it is the newline itself. */
  lemma {:induction false} StdoutOmits(lines: seq<string>, c: char)
    requires c != '\n'
    requires forall i :: 0 <= i < |lines| ==> c !in lines[i]
    ensures c !in Stdout(lines)
  {
    if |lines| > 0 {
      StdoutOmits(lines[1..], c);
    }
  }

  /** No line of the help text after the first holds a `%`. */
  lemma HelpTailHasNoPercent()
    ensures forall i :: 0 <= i < |HelpTail| ==> '%' !in HelpTail[i]
  {
    assert '%' !in HelpTail[0] && '%' !in HelpTail[1] && '%' !in HelpTail[2];
    assert '%' !in HelpTail[3] && '%' !in HelpTail[4] && '%' !in HelpTail[5];
  }

  /** The template, source line by source line, is the first help line with
      `%s` for the name, then the remaining help lines. */
  lemma HelpTemplateLayout()
    ensures HelpTemplate == "Usage: %s [-h] [-v]" + "\n" + Stdout(HelpTail)
  {
    var t := HelpTail;
    assert Stdout(t[5..]) == t[5] + "\n";
    assert Stdout(t[4..]) == t[4] + "\n" + Stdout(t[5..]);
    assert Stdout(t[3..]) == t[3] + "\n" + Stdout(t[4..]);
    assert Stdout(t[2..]) == t[2] + "\n" + Stdout(t[3..]);
    assert Stdout(t[1..]) == t[1] + "\n" + Stdout(t[2..]);
    assert Stdout(t) == t[0] + "\n" + Stdout(t[1..]);
  }

  /** The help template has exactly one conversion, and no other `%`. */
  lemma HelpTemplateShape()
    ensures HelpTemplate == HelpBefore + "%s" + HelpAfter
    ensures '%' !in HelpBefore && '%' !in HelpAfter
  {
    HelpTemplateLayout();
    HelpTailHasNoPercent();
    StdoutOmits(HelpTail, '%');
    assert "Usage: %s [-h] [-v]" == HelpBefore + "%s" + " [-h] [-v]";
  }

  /** The help text `printf(help, argv[0])` writes. */
  function HelpText(name: string): string
  {
    FormatS(HelpTemplate, name)
  }

  /** The help text is the template with the invocation name in place of
      `%s`, verbatim, and nothing else changed. */
  lemma HelpTextIsTemplateWithName(name: string)
    ensures HelpText(name) == HelpBefore + name + HelpAfter
  {
    HelpTemplateShape();
    FormatSubstitutes(HelpBefore, HelpAfter, name);
  }

  /** The help text split into its newline-terminated lines. */
  function HelpLines(name: string): seq<string>
  {
    ["Usage: " + name + " [-h] [-v]"] + HelpTail
  }

  /** What one run produces: the lines on standard output, each terminated by
      a newline, and the process exit status. */
  datatype Outcome = Outcome(lines: seq<string>, exitCode: int)

  /** The bytes on standard output: every line followed by its newline. */
  function Stdout(lines: seq<string>): string
  {
    if |lines| == 0 then "" else lines[0] + "\n" + Stdout(lines[1..])
  }

  /** Laying out the help lines gives back exactly what `printf(help, argv[0])`
      writes. */
  lemma HelpLinesAreHelpText(name: string)
    ensures Stdout(HelpLines(name)) == HelpText(name)
  {
    HelpTextIsTemplateWithName(name);
    var ls := HelpLines(name);
    assert ls[1..] == HelpTail;
    assert Stdout(ls) == "Usage: " + name + " [-h] [-v]" + "\n" + Stdout(HelpTail);
  }

  /** `main`: the greeting, then `parse_args`, which either writes the help
      text and exits with 0, or writes the echo line and the optional verbose
      notice, after which `main` writes the farewell and returns 0. */
  function Run(args: seq<string>): (r: Outcome)
    requires Argv(args)
    ensures r.exitCode == 0
    ensures HelpRequested(args) ==> r.lines == [Greeting] + HelpLines(args[0])
    ensures !HelpRequested(args) ==>
      r.lines == [Greeting, EchoLine(args)]
                 + (if VerboseRequested(args) then [VerboseNotice] else [])
                 + [Farewell]
  {
    ScanMeaning(args);
    match ScanArgs(args)
    case Help => Outcome([Greeting] + HelpLines(args[0]), 0)
    case Continue(verbose) =>
      Outcome([Greeting, EchoLine(args)] + (if verbose then [VerboseNotice] else []) + [Farewell], 0)
  }

  /** On the help path standard output holds the greeting and then exactly the
      formatted help text: no echo line, no verbose notice, no farewell. */
  lemma RunHelpStdout(args: seq<string>)
    requires Argv(args) && HelpRequested(args)
    ensures Stdout(Run(args).lines) == Greeting + "\n" + HelpText(args[0])
  {
    var ls := Run(args).lines;
    assert ls[1..] == HelpLines(args[0]);
    HelpLinesAreHelpText(args[0]);
  }

  /** On the normal path standard output holds, in order, the greeting, the
      echo line, the verbose notice iff a verbose flag was given, and the
      farewell. */
  lemma RunNormalStdout(args: seq<string>)
    requires Argv(args) && !HelpRequested(args)
    ensures Stdout(Run(args).lines) ==
      Greeting + "\n" + EchoLine(args) + "\n"
      + (if VerboseRequested(args) then VerboseNotice + "\n" else "")
      + Farewell + "\n"
  {
    var ls := Run(args).lines;
    if VerboseRequested(args) {
      assert Stdout(ls[3..]) == Farewell + "\n";
      assert Stdout(ls[2..]) == VerboseNotice + "\n" + Stdout(ls[3..]);
    } else {
      assert Stdout(ls[2..]) == Farewell + "\n";
    }
    assert Stdout(ls[1..]) == ls[1] + "\n" + Stdout(ls[2..]);
  }

  /** `["prog"]`: greeting, `prog:`, farewell. */
  lemma ScenarioNoTokens()
    ensures Run(["prog"]) == Outcome(["Hello, world!", "prog:", "Goodbye, world!"], 0)
  {
    EchoLineNoTokens("prog");
    assert "prog" + ":" == "prog:";
  }

  /** `["prog", "-v", "foo"]`: the flag is echoed like any other token and
      turns on the verbose notice. */
  lemma ScenarioVerbose()
    ensures Run(["prog", "-v", "foo"]) ==
      Outcome(["Hello, world!", "prog: -v foo", "Verbose mode enabled!", "Goodbye, world!"], 0)
  {
    var args := ["prog", "-v", "foo"];
    assert args[1] == VerboseShort;
    assert !HelpRequested(args) by {
      assert args[1] != HelpShort && args[1] != HelpLong;
    }
    assert args[1..][1..][1..] == [];
    assert EchoLine(args) == "prog: -v foo";
  }

  /** `["prog", "foo", "--help"]`: the greeting and then the help text with
      `prog` in place of `%s`. */
  lemma ScenarioHelp()
    ensures Stdout(Run(["prog", "foo", "--help"]).lines) == "Hello, world!\n" + HelpBefore + "prog" + HelpAfter
  {
    var args := ["prog", "foo", "--help"];
    assert args[2] == HelpLong;
    RunHelpStdout(args);
    HelpTextIsTemplateWithName("prog");
  }
}
