# tool-hub dispatcher and email agent, modelled in Dafny

tool-hub is a command-line menu. The user types a choice. The orchestrator
normalises the choice to one of eleven tool identifiers and routes it
through a small workflow graph. Only three identifiers have handler
nodes: `email_generator`, `exit` and `unknown`. The email agent sends the
user's description to a language model with a fixed system prompt. It then
writes the reply to the next sequentially named file in its output
directory: `email_one.txt` … `email_twelve.txt`, then `email_13.txt`,
`email_14.txt`, and so on.

The project has four modules:

- `Wrappers` (`wrappers.dfy`) holds `Option` and `Result`.
- `Text` (`text.dfy`) models the three Python string operations the core
  uses: `str.strip()` with Python's exact whitespace set, `str.lower()` on
  ASCII letters, and `str(int)`. It proves that stripping ignores padding,
  that stripping and case folding commute, and that decimal numerals
  round-trip.
- `EmailGenerator` (`email_generator.dfy`) covers the word table, the
  suffix function, the file-name pattern and the count. The output
  directory is the class `OutputDirectory`, which holds whether the
  directory exists and a map from name to entry. Its methods
  `EnsureExists`, `NextOutputPath`, `WriteText` and `GenerateEmail` follow
  `mkdir`, `_next_output_path`, `write_text` and `generate_email`. The pure
  function `Generate` specifies one run of `generate_email`, and the
  lemmas about naming, freshness and overwriting are stated about it.
- `Orchestrator` (`orchestrator.dfy`) holds the identifiers, the alias
  table, the if-chain of `_normalize_tool_choice`, routing, the
  conditional edge map, the handler nodes and `orchestrate_tools`.

The language model is a parameter of type `(string, string) -> Result`.
`Failure` stands for the exception that `call_llm` lets propagate.

The naming is not always fresh. With `email_one.txt` and
`email_three.txt` present, the count is two, so the next name is
`email_three.txt`, and the write overwrites that file
(`EmailGenerator.GapOverwrites`). Freshness is proved only for
directories whose matching files are exactly the first n names
(`EmailGenerator.Sequential`).

## Model

| member | source | states |
|---|---|---|
| Text.StripStart | orchestrator.py:26 | what is left after the leading whitespace goes is no longer than the input and does not start with whitespace |
| Text.StripEnd | orchestrator.py:26 | what is left after the trailing whitespace goes is a prefix of the input that does not end with whitespace |
| Text.Strip | orchestrator.py:26 | the stripped string is no longer than the input and neither starts nor ends with whitespace |
| Text.Lower | orchestrator.py:26 | the folded string has the input's length, turns each letter 'A'..'Z' into its own lower-case letter, contains no letter 'A'..'Z', and keeps every other character in place |
| Text.LowerIdempotent | orchestrator.py:26 | folding an already folded string changes nothing |
| Text.StripShape | orchestrator.py:26 | strip removes exactly a whitespace prefix and suffix, and the result neither starts nor ends with whitespace |
| Text.StripIgnoresPadding | orchestrator.py:26 | whitespace on either side of a string does not change its stripped form |
| Text.LowerStripCommute | orchestrator.py:26 | lower(strip(s)) equals strip(lower(s)) |
| Text.NatToDecimal | agents/email_generator.py:47 | str(n) for n >= 0 is a non-empty string of digits with no leading zero |
| Text.IntToDecimal | agents/email_generator.py:47 | str(i) ends in a digit and starts with '-' exactly when i is negative |
| Text.DecimalRoundTrip | agents/email_generator.py:47 | reading back the digits of str(n) gives n |
| Text.NatToDecimalInjective | agents/email_generator.py:47 | different natural numbers have different numerals |
| Text.IntToDecimalInjective | agents/email_generator.py:47 | different integers have different decimal strings |
| EmailGenerator.NumberWordsDomain | agents/email_generator.py:25-38 | the word table has a key exactly for 1..12, and each word is made of letters only |
| EmailGenerator.NumberWordsDistinct | agents/email_generator.py:25-38 | the twelve words are pairwise different |
| EmailGenerator.IndexToWord | agents/email_generator.py:41-47 | 1..12 give a letters-only word (which word, one through twelve, is stated by the NamingWords lemmas); every other integer, including 0, negatives and 13 or more, gives str(i) |
| EmailGenerator.IndexToWordInjective | agents/email_generator.py:25-47 | different indices give different suffixes; no word equals a numeral |
| EmailGenerator.FileName | agents/email_generator.py:63 | every name email_<suffix>.txt matches the counted glob email_*.txt, and its suffix can be read back from between "email_" and ".txt" |
| EmailGenerator.MatchingFiles | agents/email_generator.py:58-60 | the files counted are entries of the directory, each a regular file whose name matches email_*.txt |
| EmailGenerator.NextIndex | agents/email_generator.py:61 | the next index is at least one and at most one more than the number of entries |
| EmailGenerator.NextName | agents/email_generator.py:62-63 | the next name matches the counted glob, and its suffix is the word or numeral of the next index |
| EmailGenerator.FileNameInjective | agents/email_generator.py:63 | different indices give different file names |
| EmailGenerator.CountMatchingFiles | agents/email_generator.py:58-61 | the count is the number of regular files whose names match email_*.txt; other entries are not counted |
| EmailGenerator.LaterNameNotFirst | agents/email_generator.py:47-63 | the name of file j is none of the names of files 1..n when j > n |
| EmailGenerator.FirstNamesCount | agents/email_generator.py:61-63 | the names of the first n files are n different names |
| EmailGenerator.NextNameFresh | agents/email_generator.py:58-63 | if the matching entries are exactly the first n files, the next index is n+1 and its name is not yet taken |
| EmailGenerator.SequentialAfterWrite | agents/email_generator.py:84-85 | writing file n+1 into a directory holding exactly the first n files leaves it holding exactly the first n+1 |
| EmailGenerator.Generate | agents/email_generator.py:79-86 | a failed model call changes nothing; otherwise the directory exists afterwards; at most the next name is added or replaced; after a successful reply the run succeeds exactly when the next name is not taken by a non-file, and otherwise fails with IsADirectory on that path and changes no entry |
| EmailGenerator.GenerateWritesReply | agents/email_generator.py:79-86 | a successful run writes the reply verbatim at the next name and returns that name's path; the name matches the glob; no other entry changes |
| EmailGenerator.GenerateFailureChangesNothing | agents/email_generator.py:79-84 | a failed model call propagates, and the directory is neither created nor written, because the call comes before the path is computed |
| EmailGenerator.GenerateSequential | agents/email_generator.py:58-63 | on a directory holding exactly the first n files, a run writes the new file n+1 without overwriting, and the count rises by exactly one |
| EmailGenerator.GenerateWritesWhenFree | agents/email_generator.py:79-86 | a successful reply is always written verbatim at the next name, with that path returned, unless the name is taken by a non-file; then the run fails with IsADirectory on that path, the directory exists and no entry changes |
| EmailGenerator.NamingWords | agents/email_generator.py:8-10 | the empty directory holds exactly the first 0 files, and the first two names are email_one.txt and email_two.txt |
| EmailGenerator.NamingWordsThreeFour | agents/email_generator.py:25-47 | the third and fourth names are email_three.txt and email_four.txt |
| EmailGenerator.NamingWordsFiveSix | agents/email_generator.py:25-47 | the fifth and sixth names are email_five.txt and email_six.txt |
| EmailGenerator.NamingWordsSevenEight | agents/email_generator.py:25-47 | the seventh and eighth names are email_seven.txt and email_eight.txt |
| EmailGenerator.NamingWordsNineTen | agents/email_generator.py:25-47 | the ninth and tenth names are email_nine.txt and email_ten.txt |
| EmailGenerator.NamingWordsElevenTwelve | agents/email_generator.py:25-47 | the eleventh and twelfth names are email_eleven.txt and email_twelve.txt |
| EmailGenerator.NamingNumerals | agents/email_generator.py:47 | after twelve the names are email_13.txt, and email_<i>.txt for every i >= 13 |
| EmailGenerator.GapCount | agents/email_generator.py:58-61 | with email_one.txt and email_three.txt present, the next index is 3 |
| EmailGenerator.GapOverwrites | agents/email_generator.py:58-63 | with email_one.txt and email_three.txt present, the next name is email_three.txt and the run overwrites it |
| EmailGenerator.OutputDirectory.EnsureExists | agents/email_generator.py:56 | mkdir with exist_ok: afterwards the directory exists and its entries are unchanged, so a second call changes nothing |
| EmailGenerator.OutputDirectory.NextOutputPath | agents/email_generator.py:50-63 | creates the directory if absent, changes no entry, and returns OUTPUT_DIR/email_<suffix(count+1)>.txt |
| EmailGenerator.OutputDirectory.WriteText | agents/email_generator.py:85 | creates or overwrites a regular file with exactly the given text; fails with nothing changed when the name is not a regular file |
| EmailGenerator.OutputDirectory.GenerateEmail | agents/email_generator.py:66-86 | the new directory state and the result are those of Generate applied to the old state and to the model's reply for the description and the fixed system prompt; the call order shows only in that a failed call leaves the directory uncreated |
| EmailGenerator.NextOutputPathTwice | agents/email_generator.py:56-63 | two calls of _next_output_path with no write between return the same path and change no entry |
| Orchestrator.Classify | orchestrator.py:28-49 | the chain returns a tool only for one of that tool's own aliases |
| Orchestrator.Normalize | orchestrator.py:24-49 | a choice normalises to a tool only when its case-folded, stripped form is one of that tool's aliases |
| Orchestrator.AliasShape | orchestrator.py:28-47 | each tool's aliases are its menu number, its display name and "<number>. <identifier>" |
| Orchestrator.ClassifyAlias | orchestrator.py:28-47 | every alias of a tool makes the if-chain return that tool |
| Orchestrator.AliasesDisjoint | orchestrator.py:28-47 | no string is an alias of two tools, so the order of the tests does not matter |
| Orchestrator.ClassifyIsAliasLookup | orchestrator.py:28-49 | the chain returns a tool exactly when the folded input is one of that tool's aliases, and returns unknown exactly when it is no tool's alias |
| Orchestrator.NormalizeIsLookup | orchestrator.py:24-49 | normalisation returns a tool exactly when strip(lower(choice)) is one of its aliases, and unknown exactly when it matches no alias |
| Orchestrator.NormalizeIgnoresCase | orchestrator.py:26 | choices that differ only in letter case normalise alike |
| Orchestrator.NormalizeIgnoresPadding | orchestrator.py:26 | whitespace around a choice does not change its identifier |
| Orchestrator.NormalizePaddedNumberExample | orchestrator.py:26-31 | " 2 " gives email_generator |
| Orchestrator.NormalizeDisplayNameExample | orchestrator.py:26-31 | "Email Generator" gives email_generator |
| Orchestrator.NormalizeLabelExample | orchestrator.py:26-31 | "2. email_generator" gives email_generator |
| Orchestrator.NormalizeExitNumberExample | orchestrator.py:46-47 | "10" gives exit |
| Orchestrator.NormalizeExitLabelExample | orchestrator.py:46-47 | "10. Exit" gives exit |
| Orchestrator.NormalizeFirstExample | orchestrator.py:28-29 | "1" gives resume_analyzer, not exit |
| Orchestrator.NormalizeInvalidExample | orchestrator.py:49 | "invalid_tool_xyz" gives unknown |
| Orchestrator.Route | orchestrator.py:57-72 | a state with a tool key routes as its value normalises; a state without one routes to unknown |
| Orchestrator.RouteMissingTool | orchestrator.py:71 | a state with no tool key routes as "" does, to unknown |
| Orchestrator.Handler | orchestrator.py:113-128 | only email_generator, exit and unknown have a handler node, and each handler node's edge goes to END |
| Orchestrator.Visited | orchestrator.py:104-128 | every run starts at the start node and ends at END |
| Orchestrator.VisitedHandlers | orchestrator.py:113-123 | a run visits the email, exit or unknown node exactly when the choice routes there; every other identifier goes from start straight to END |
| Orchestrator.RunPassThrough | orchestrator.py:52-96 | the start, exit and unknown nodes return the state with its tool and result keys as they were |
| Orchestrator.RunEmailGenerator | orchestrator.py:75-84 | the email node keeps the tool key and sets result to the saved-to message for the returned path |
| Orchestrator.OrchestrateTools | orchestrator.py:87-143 | returns the graph's final state, which the source's orchestrate_tools discards; a choice that does not normalise to email_generator ends with the initial state and touches no file; an email choice has exactly one Generate effect on the directory, and its error propagates |

## Left out

- Text.Lower: folds only 'A'..'Z', while Python's str.lower is Unicode-wide. For alias matching this changes nothing except the Kelvin sign U+212A, which Python lowers to 'k', and no alias contains 'k'.
- The LangGraph runtime (StateGraph, add_conditional_edges, compile, invoke) is replaced by the constant edge maps. The claim that an identifier missing from the conditional map ends the run with no handler comes from the comment beside the map. It is an assumption of `Orchestrator.Visited`, not something the model derives.
- Console I/O: the prints in the nodes and in main.py, and the `input` calls. The email description is a parameter of `OrchestrateTools`.
- main.py: it only prints the menu and passes one input line on. The `run()` entry point of the email agent is also left out, because it is only I/O.
- tools/call_llm.py: the model client is not part of this model. It is a function parameter, and its failure is a `Failure` result.
- PROJECT_ROOT resolution is left out: paths are the relative string "output/tool_two/<name>". UTF-8 encoding is also left out: file contents are strings.
- Real filesystem semantics are left out. The model does not cover permissions, a full disk, symbolic links, `mkdir` failing because a file already has the directory's name, or case-insensitive globbing on other platforms. Every non-regular entry is `NotAFile`, and a write onto one fails as writing onto a directory does.
- The `sorted` call in `_next_output_path`: only the length of its result is used. The model counts a set, so the order plays no part.
- Concurrency: the count-then-write race between two processes is out of scope. The code runs single-threaded.
