# git-filter-demo command-line front end, in Dafny

The program writes a greeting. It then scans its arguments for `-h`/`--help`
and `-v`/`--verbose`. On a help flag it prints the usage text with the
invocation name substituted and exits with status 0. Otherwise it echoes the
whole argument vector on one line, adds a verbose notice if a verbose flag was
given, and writes a farewell. This project models that run as a pure function
from the argument vector to the lines on standard output and the exit status,
and proves what the code promises about it.

Modules, one per part of the program:

- `CStrings` (`cstrings.dfy`): C strings (no NUL) and `strcmp`.
- `Flags` (`flags.dfy`): `is_arg` and the scan loop of `parse_args` in
  `src/demo.c`. The global `verbose` flag is a value the scan returns. The
  `exit(0)` on a help flag is the `Help` outcome of `datatype Scan = Help |
  Continue(verbose: bool)`. `Expected` is an independent, loop-free statement
  of the decision. `ScanArgs` (recursive) and `ParseArgs` (the `for` loop with
  its early return) are both proved to reach it.
- `Echo` (`echo.dfy`): `print_args` in `src/wrong_line_endings.h`. `EchoLine`
  is the line's text. `PrintArgs` is the loop as written. `ParseEchoLine`
  reads a line back, so the round trip shows that nothing is dropped or
  reordered.
- `Demo` (`demo.dfy`): the `help` template, `printf` with a single `%s`
  (`FormatS`), and `main` as `Run(args): Outcome(lines, exitCode)`. `Stdout`
  lays the lines out as the bytes written, one newline after each line.

On the help path `main` has already called `print_hello` (src/demo.c:45-46),
so standard output holds the greeting followed by the help text. `Run`,
`RunHelpStdout` and `ScenarioHelp` state this.

## Model

| member | source | states |
|---|---|---|
| CStrings.Strcmp | src/demo.c:24 | `strcmp` gives a sign, -1, 0 or 1, and two empty strings compare equal |
| CStrings.StrcmpZeroIffEqual | src/demo.c:24 | on C strings, `strcmp` is 0 exactly when the two strings are equal: whole-string, case-sensitive, no prefix matching |
| Flags.IsArgExact | src/demo.c:22-25 | `is_arg(a, s, l)` holds iff `a == s` or `a == l` |
| Flags.FlagTests | src/demo.c:30-34 | a token is a help flag iff it is `-h` or `--help`, and a verbose flag iff it is `-v` or `--verbose` |
| Flags.ScanMeaning | src/demo.c:29-37 | the scan returns Help iff some token at index 1 or later is a help flag; otherwise it continues, with verbose set iff some such token is a verbose flag |
| Flags.ParseArgs | src/demo.c:27-37 | the loop, with its early exit on help, reaches the same decision as the loop-free statement and as the recursive scan |
| Flags.HelpAnywhere | src/demo.c:29-33 | a help token at any position 1.. gives Help, whatever verbose flags come before or after it |
| Flags.StopsAtHelp | src/demo.c:29-33 | the tokens after a help token are never examined: replacing them with anything leaves the result Help |
| Flags.NameIsNotAFlag | src/demo.c:29 | the invocation name `argv[0]` never affects the scan |
| Flags.HelpAsNameIgnored | src/demo.c:29 | `["-h"]` takes the normal path with verbose off |
| Flags.PresenceOnly | src/demo.c:29-36 | the decision depends only on which tokens are present, so reordering or repeating tokens changes nothing |
| Flags.UnknownTokenIgnored | src/demo.c:29-37 | inserting a token that is neither flag, at any position, leaves the decision unchanged; there is no error path |
| Echo.PrintArgs | src/wrong_line_endings.h:15-21 | the loop of `print_args` builds the name, a colon, then each token preceded by one space, with the stated length |
| Echo.EchoLineLength | src/wrong_line_endings.h:17-19 | the line's length is the name's length + 1 + the sum over tokens of (1 + token length), newline excluded |
| Echo.EchoLineNoTokens | src/wrong_line_endings.h:17-20 | with no tokens the line is exactly `name:`, with no trailing space |
| Echo.EchoLineAt | src/wrong_line_endings.h:18-19 | token k appears after the name, the colon and tokens 1..k-1, preceded by exactly one space, and the later tokens follow it |
| Echo.EchoLineRoundTrip | src/wrong_line_endings.h:17-20 | if the name has no colon and no token has a space, the line reads back as the exact argument vector: every token, flags included, in its original order |
| Demo.FormatSubstitutes | src/demo.c:31 | `printf` with one `%s` puts the argument verbatim where the `%s` stands and copies everything else |
| Demo.HelpTemplateShape | src/demo.c:11-18 | the help template is a prefix, one `%s` and a suffix, and holds no other `%` |
| Demo.HelpTextIsTemplateWithName | src/demo.c:31 | the help text is the template with the invocation name in place of `%s` and nothing else changed |
| Demo.HelpLinesAreHelpText | src/demo.c:11-18 | the seven help lines, each followed by a newline, give exactly the text `printf(help, argv[0])` writes |
| Demo.Run | src/demo.c:43-49 | exit status 0 on both paths. With a help flag: the greeting, then the help lines. Otherwise: the greeting, the echo line, the verbose notice iff a verbose flag is present, and the farewell |
| Demo.RunHelpStdout | src/demo.c:29-33 | on the help path, standard output is the greeting line and then exactly the formatted help text, with no echo line, notice or farewell |
| Demo.RunNormalStdout | src/demo.c:38-47 | on the normal path, standard output is the greeting, the echo line, the notice iff verbose, and the farewell, in that order and each ending in a newline |
| Demo.ScenarioNoTokens | src/demo.c:43-49 | `["prog"]` gives `Hello, world!`, `prog:`, `Goodbye, world!` and status 0 |
| Demo.ScenarioVerbose | src/demo.c:43-49 | `["prog", "-v", "foo"]` echoes `prog: -v foo`, prints the verbose notice, and returns status 0 |
| Demo.ScenarioHelp | src/demo.c:43-49 | `["prog", "foo", "--help"]` writes the greeting and then the help text with `prog` substituted |

## Left out

- Writes to standard output, `stdio` buffering and process termination are
  not modelled as effects. Output is a returned sequence of lines, and
  `exit(0)` is the `Help` outcome of the scan.
- `src/fixed_line_endings.h` (`print_hello`, `print_goodbye`) is modelled only
  as the two literal lines `Greeting` and `Farewell`.
- An empty argument vector (`argc == 0`) is excluded by `Argv`. `print_args`
  would pass a null `argv[0]` to `printf`, which is undefined behaviour.
- Arguments are C strings, so none contains NUL. `Strcmp` still stops at a
  NUL, as C does, but the exact-match lemmas assume C strings.
- CStrings.Strcmp: returns only the sign of the comparison. C promises no
  more than the sign, and the program only tests for 0.
- Characters are Dafny `char`s, not bytes. There is no encoding, and
  `strcmp`'s unsigned-byte order is read as code-point order. Only equality
  matters to the program.
- Demo.FormatS: models `printf` only for a format whose sole conversion is one
  `%s`. `HelpTemplateShape` proves the help template is such a format. Other
  conversions and `%%` are not modelled.
- Echo.EchoLineRoundTrip: requires a name without a colon and tokens without
  spaces. With those characters the echo line is ambiguous, so no reader can
  recover the vector. `EchoLineAt` covers every input without that
  restriction.
- The comments about git line endings and blame in both headers describe the
  repository, not the program's behaviour.
