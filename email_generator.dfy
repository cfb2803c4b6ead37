/** The email agent: numbering of its output files and the order in which
    it calls the model, picks a name and writes. */
module EmailGenerator {
  import opened Wrappers
  import opened Text

  /** The directory the agent writes into, relative to the project root. */
  const OutputDir: string := "output/tool_two"

  /** The fixed instruction sent with every request. */
  const SystemPrompt: string :=
    "You are an expert email writer. " +
    "Given a short description of the email a user wants to send, " +
    "write a clear, concise, and well‑formatted email. " +
    "Do not include any explanations, only the final email body."

  /** Index-to-word table for the first twelve files. */
  const NumberWords: map<int, string> := map[
    1 := "one", 2 := "two", 3 := "three", 4 := "four", 5 := "five", 6 := "six",
    7 := "seven", 8 := "eight", 9 := "nine", 10 := "ten", 11 := "eleven", 12 := "twelve"]

  /** The errors that propagate out of generate_email uncaught. */
  datatype Error =
    | LlmFailed                 // call_llm raised (network, authentication, quota)
    | IsADirectory(path: string) // write_text onto a name that is not a regular file

  /** The model collaborator: (prompt, system prompt) to reply or failure. */
  type Llm = (string, string) -> Result<string, Error>

  /** A directory entry: a regular file with its text, or anything else. */
  datatype Entry = RegularFile(content: string) | NotAFile

  predicate IsWord(s: string) {
    |s| > 0 && forall k :: 0 <= k < |s| ==> IsLetter(s[k])
  }

  /** The word table covers exactly 1..12, with letter-only words. */
  lemma NumberWordsDomain(i: int)
    ensures i in NumberWords <==> 1 <= i <= 12
    ensures i in NumberWords ==> IsWord(NumberWords[i])
  {
  }

  /** The suffix for the i-th file: its word for 1..12, else str(i). */
  function IndexToWord(i: int): (r: string)
    ensures 1 <= i <= 12 ==> IsWord(r)
    ensures !(1 <= i <= 12) ==> r == IntToDecimal(i)
  {
    NumberWordsDomain(i);
    if i in NumberWords then NumberWords[i] else IntToDecimal(i)
  }

  /** The twelve words are pairwise distinct. */
  lemma NumberWordsDistinct(i: int, j: int)
    requires 1 <= i <= 12 && 1 <= j <= 12 && i != j
    ensures NumberWords[i] != NumberWords[j]
  {
  }

  /** Different indices give different suffixes: no word is a numeral, the
      words are distinct and so are the numerals. */
  lemma IndexToWordInjective(i: int, j: int)
    requires IndexToWord(i) == IndexToWord(j)
    ensures i == j
  {
    if 1 <= i <= 12 && 1 <= j <= 12 {
      if i != j {
        NumberWordsDistinct(i, j);
      }
    } else if !(1 <= i <= 12) && !(1 <= j <= 12) {
      IntToDecimalInjective(i, j);
    }
  }

  /** Name of the i-th output file: it matches the counted glob, and the
      suffix can be read back from between "email_" and ".txt". */
  function FileName(i: int): (r: string)
    ensures MatchesPattern(r)
    ensures r[6..|r| - 4] == IndexToWord(i)
  {
    var r := "email_" + IndexToWord(i) + ".txt";
    assert r[..6] == "email_" && r[|r| - 4..] == ".txt";
    r
  }

  /** Full path of a file in the output directory. */
  function PathOf(name: string): string {
    OutputDir + "/" + name
  }

  /** The glob email_*.txt: prefix "email_", suffix ".txt", anything between. */
  predicate MatchesPattern(name: string) {
    |name| >= 10 && name[..6] == "email_" && name[|name| - 4..] == ".txt"
  }

  lemma FileNameInjective(i: int, j: int)
    requires FileName(i) == FileName(j)
    ensures i == j
  {
    var a, b := FileName(i), FileName(j);
    assert a[6..|a| - 4] == IndexToWord(i);
    assert b[6..|b| - 4] == IndexToWord(j);
    IndexToWordInjective(i, j);
  }

  /** The regular files the glob finds (is_file() filters the rest out):
      entries of the directory, each a regular file with a matching name. */
  function MatchingFiles(entries: map<string, Entry>): (r: set<string>)
    ensures r <= entries.Keys
    ensures forall name :: name in r ==> MatchesPattern(name) && entries[name].RegularFile?
  {
    set name | name in entries && MatchesPattern(name) && entries[name].RegularFile?
  }

  /** The index the next file gets: matching regular files, plus one. It is
      at least one and at most one more than the number of entries. */
  function NextIndex(entries: map<string, Entry>): (r: nat)
    ensures 1 <= r <= |entries| + 1
  {
    SubsetCard(MatchingFiles(entries), entries.Keys);
    |MatchingFiles(entries)| + 1
  }

  /** The name the next file gets; it matches the counted glob. */
  function NextName(entries: map<string, Entry>): (r: string)
    ensures MatchesPattern(r)
    ensures r[6..|r| - 4] == IndexToWord(NextIndex(entries))
  {
    FileName(NextIndex(entries))
  }

  lemma {:induction false} SubsetCard(a: set<string>, b: set<string>)
    requires a <= b
    ensures |a| <= |b|
  {
    if a != {} {
      var x :| x in a;
      SubsetCard(a - {x}, b - {x});
    }
  }

  /** The glob's matches among some of the names. */
  function MatchingAmong(entries: map<string, Entry>, names: set<string>): set<string> {
    set name | name in names && name in entries && MatchesPattern(name) && entries[name].RegularFile?
  }

  /** Counts the regular files matching email_*.txt, one entry at a time. */
  method CountMatchingFiles(entries: map<string, Entry>) returns (count: nat)
    ensures count == |MatchingFiles(entries)|
  {
    var remaining := entries.Keys;
    count := 0;
    assert MatchingAmong(entries, remaining) == MatchingFiles(entries);
    while remaining != {}
      invariant remaining <= entries.Keys
      invariant count + |MatchingAmong(entries, remaining)| == |MatchingFiles(entries)|
      decreases remaining
    {
      var name :| name in remaining;
      var rest := remaining - {name};
      if MatchesPattern(name) && entries[name].RegularFile? {
        assert MatchingAmong(entries, remaining) == MatchingAmong(entries, rest) + {name};
        count := count + 1;
      } else {
        assert MatchingAmong(entries, remaining) == MatchingAmong(entries, rest);
      }
      remaining := rest;
    }
    assert MatchingAmong(entries, remaining) == {};
  }

  /** The names f(1), ..., f(n). */
  function Names(f: int -> string, n: nat): set<string> {
    if n == 0 then {} else Names(f, n - 1) + {f(n)}
  }

  /** The names of the first n files. */
  function FirstNames(n: nat): set<string> {
    Names(FileName, n)
  }

  /** Under an injective naming, a later name is not among the first n. */
  lemma {:induction false} LaterNameNotAmong(f: int -> string, n: nat, j: int)
    requires j > n
    requires forall i :: 1 <= i <= n ==> f(i) != f(j)
    ensures f(j) !in Names(f, n)
  {
    if n > 0 {
      LaterNameNotAmong(f, n - 1, j);
    }
  }

  /** Under an injective naming, the first n names are n names. */
  lemma {:induction false} NamesCount(f: int -> string, n: nat)
    requires forall i, j :: 1 <= i < j <= n ==> f(i) != f(j)
    ensures |Names(f, n)| == n
  {
    if n > 0 {
      NamesCount(f, n - 1);
      LaterNameNotAmong(f, n - 1, n);
    }
  }

  /** A later file's name is not among the first n names. */
  lemma LaterNameNotFirst(n: nat, j: int)
    requires j > n
    ensures FileName(j) !in FirstNames(n)
  {
    forall i | 1 <= i <= n
      ensures FileName(i) != FileName(j)
    {
      if FileName(i) == FileName(j) {
        FileNameInjective(i, j);
      }
    }
    LaterNameNotAmong(FileName, n, j);
  }

  lemma FirstNamesCount(n: nat)
    ensures |FirstNames(n)| == n
  {
    forall i, j | 1 <= i < j <= n
      ensures FileName(i) != FileName(j)
    {
      if FileName(i) == FileName(j) {
        FileNameInjective(i, j);
      }
    }
    NamesCount(FileName, n);
  }

  /** The entries that match the glob, regular or not. */
  function MatchingNames(entries: map<string, Entry>): set<string> {
    set name | name in entries && MatchesPattern(name)
  }

  /** The directory holds, among names matching the glob, exactly the first
      n files, all of them regular files. */
  ghost predicate Sequential(entries: map<string, Entry>, n: nat) {
    MatchingNames(entries) == FirstNames(n) &&
    forall name :: name in MatchingNames(entries) ==> entries[name].RegularFile?
  }

  /** Under Sequential the next name is the (n+1)-th and is not taken. */
  lemma NextNameFresh(entries: map<string, Entry>, n: nat)
    requires Sequential(entries, n)
    ensures NextIndex(entries) == n + 1
    ensures NextName(entries) == FileName(n + 1)
    ensures NextName(entries) !in entries
  {
    assert MatchingFiles(entries) == MatchingNames(entries);
    FirstNamesCount(n);
    LaterNameNotFirst(n, n + 1);
  }

  /** Writing the next file keeps the directory sequential, one longer. */
  lemma SequentialAfterWrite(entries: map<string, Entry>, n: nat, text: string)
    requires Sequential(entries, n)
    ensures Sequential(entries[FileName(n + 1) := RegularFile(text)], n + 1)
  {
    var e := entries[FileName(n + 1) := RegularFile(text)];
    assert MatchingNames(e) == MatchingNames(entries) + {FileName(n + 1)};
  }

  /** What one run of generate_email does to the directory. */
  datatype Outcome = Outcome(present: bool, entries: map<string, Entry>, result: Result<string, Error>)

  /** One run of generate_email on a directory given the model's reply: a
      failed call changes nothing; otherwise the directory is created, the
      next name is computed, and the reply is written there unless the name
      is taken by something that is not a regular file. */
  function Generate(present: bool, entries: map<string, Entry>, reply: Result<string, Error>): (o: Outcome)
    ensures reply.Failure? ==> o == Outcome(present, entries, Failure(reply.error))
    ensures reply.Success? ==> o.present
    ensures entries.Keys <= o.entries.Keys <= entries.Keys + {NextName(entries)}
    ensures forall name :: name in entries && name != NextName(entries) ==> o.entries[name] == entries[name]
    ensures o.result.Failure? ==> o.entries == entries
    ensures reply.Success? ==>
      (o.result.Success? <==> !(NextName(entries) in entries && entries[NextName(entries)].NotAFile?))
    ensures reply.Success? && o.result.Failure? ==> o.result.error == IsADirectory(PathOf(NextName(entries)))
  {
    match reply
    case Failure(e) => Outcome(present, entries, Failure(e))
    case Success(text) =>
      var name := NextName(entries);
      if name in entries && entries[name].NotAFile? then
        Outcome(true, entries, Failure(IsADirectory(PathOf(name))))
      else
        Outcome(true, entries[name := RegularFile(text)], Success(PathOf(name)))
  }

  /** A successful run writes the reply verbatim at the returned path, which
      is the next name, and leaves every other entry alone. */
  lemma GenerateWritesReply(present: bool, entries: map<string, Entry>, reply: Result<string, Error>)
    ensures var o := Generate(present, entries, reply);
      o.result.Success? ==>
        reply.Success? && o.present &&
        o.result.value == PathOf(NextName(entries)) &&
        MatchesPattern(NextName(entries)) &&
        o.entries.Keys == entries.Keys + {NextName(entries)} &&
        o.entries[NextName(entries)] == RegularFile(reply.value) &&
        (forall name :: name in entries && name != NextName(entries) ==> o.entries[name] == entries[name])
  {
  }

  /** Conversely, a successful reply is always written at the next name and
      that path returned, unless the name is taken by something that is not a
      regular file; then the run fails with IsADirectory and writes nothing. */
  lemma GenerateWritesWhenFree(present: bool, entries: map<string, Entry>, reply: Result<string, Error>)
    requires reply.Success?
    ensures var name := NextName(entries);
      var o := Generate(present, entries, reply);
      if name in entries && entries[name].NotAFile? then
        o == Outcome(true, entries, Failure(IsADirectory(PathOf(name))))
      else
        o == Outcome(true, entries[name := RegularFile(reply.value)], Success(PathOf(name)))
  {
  }

  /** A failed model call leaves the directory as it was: no directory is
      created and no file is written, since the call comes first. */
  lemma GenerateFailureChangesNothing(present: bool, entries: map<string, Entry>, reply: Result<string, Error>)
    requires reply.Failure?
    ensures Generate(present, entries, reply) == Outcome(present, entries, Failure(reply.error))
  {
  }

  /** On a sequential directory a run writes a new file, the (n+1)-th, and the
      directory stays sequential: the count goes up by exactly one. */
  lemma GenerateSequential(present: bool, entries: map<string, Entry>, n: nat, text: string)
    requires Sequential(entries, n)
    ensures var o := Generate(present, entries, Success(text));
      o.result == Success(PathOf(FileName(n + 1))) &&
      FileName(n + 1) !in entries &&
      o.entries == entries[FileName(n + 1) := RegularFile(text)] &&
      Sequential(o.entries, n + 1) &&
      |MatchingFiles(o.entries)| == n + 1
  {
    NextNameFresh(entries, n);
    SequentialAfterWrite(entries, n, text);
    var e := entries[FileName(n + 1) := RegularFile(text)];
    assert MatchingFiles(e) == MatchingNames(e);
    FirstNamesCount(n + 1);
  }

  /** Starting empty, the files are named one, two, ... */
  lemma NamingWords()
    ensures Sequential(map[], 0)
    ensures FileName(1) == "email_one.txt"
    ensures FileName(2) == "email_two.txt"
  {
    assert IndexToWord(1) == "one";
    assert IndexToWord(2) == "two";
  }

  /** ... three, four ... */
  lemma NamingWordsThreeFour()
    ensures FileName(3) == "email_three.txt"
    ensures FileName(4) == "email_four.txt"
  {
    assert IndexToWord(3) == "three";
    assert IndexToWord(4) == "four";
  }

  /** ... five, six ... */
  lemma NamingWordsFiveSix()
    ensures FileName(5) == "email_five.txt"
    ensures FileName(6) == "email_six.txt"
  {
    assert IndexToWord(5) == "five";
    assert IndexToWord(6) == "six";
  }

  /** ... seven, eight ... */
  lemma NamingWordsSevenEight()
    ensures FileName(7) == "email_seven.txt"
    ensures FileName(8) == "email_eight.txt"
  {
    assert IndexToWord(7) == "seven";
    assert IndexToWord(8) == "eight";
  }

  /** ... nine, ten ... */
  lemma NamingWordsNineTen()
    ensures FileName(9) == "email_nine.txt"
    ensures FileName(10) == "email_ten.txt"
  {
    assert IndexToWord(9) == "nine";
    assert IndexToWord(10) == "ten";
  }

  /** ... eleven and twelve. */
  lemma NamingWordsElevenTwelve()
    ensures FileName(11) == "email_eleven.txt"
    ensures FileName(12) == "email_twelve.txt"
  {
    assert IndexToWord(11) == "eleven";
    assert IndexToWord(12) == "twelve";
  }

  /** After twelve, the files are named 13, 14, ... */
  lemma NamingNumerals(i: int)
    ensures FileName(13) == "email_13.txt"
    ensures i >= 13 ==> FileName(i) == "email_" + NatToDecimal(i) + ".txt"
  {
  }

  /** With email_one.txt and email_three.txt present, two files are counted. */
  lemma GapCount(a: string, b: string)
    ensures NextIndex(map["email_one.txt" := RegularFile(a), "email_three.txt" := RegularFile(b)]) == 3
  {
    var entries := map["email_one.txt" := RegularFile(a), "email_three.txt" := RegularFile(b)];
    assert MatchesPattern("email_one.txt") && MatchesPattern("email_three.txt");
    assert MatchingFiles(entries) == {"email_one.txt", "email_three.txt"};
  }

  /** Names are not always fresh: with email_one.txt and email_three.txt
      present the count is two, so the third run overwrites email_three.txt. */
  lemma GapOverwrites(a: string, b: string, text: string)
    ensures var entries := map["email_one.txt" := RegularFile(a), "email_three.txt" := RegularFile(b)];
      NextName(entries) == "email_three.txt" &&
      Generate(true, entries, Success(text)).entries == entries["email_three.txt" := RegularFile(text)]
  {
    GapCount(a, b);
    assert IndexToWord(3) == "three";
    assert FileName(3) == "email_three.txt";
  }

  /** The output directory, as the names it holds. */
  class OutputDirectory {
    var present: bool
    var entries: map<string, Entry>

    /** A directory that does not exist holds no entries. The constructor
        and every method keep this, so the entries never describe a
        directory that mkdir has not yet created. */
    ghost predicate Valid()
      reads this
    {
      !present ==> entries == map[]
    }

    constructor (present: bool, entries: map<string, Entry>)
      requires !present ==> entries == map[]
      ensures Valid() && this.present == present && this.entries == entries
    {
      this.present := present;
      this.entries := entries;
    }

    /** mkdir(parents=True, exist_ok=True): create if absent, else nothing. */
    method EnsureExists()
      requires Valid()
      modifies this
      ensures Valid() && present && entries == old(entries)
    {
      present := true;
    }

    /** _next_output_path: ensure the directory, count, name the next file. */
    method NextOutputPath() returns (path: string)
      requires Valid()
      modifies this
      ensures Valid() && present && entries == old(entries)
      ensures path == PathOf(NextName(entries))
    {
      EnsureExists();
      var count := CountMatchingFiles(entries);
      path := PathOf(FileName(count + 1));
    }

    /** Path.write_text: create or overwrite a regular file. */
    method WriteText(name: string, text: string) returns (r: Result<(), Error>)
      requires Valid() && present
      modifies this
      ensures Valid() && present
      ensures name in old(entries) && old(entries)[name].NotAFile? ==>
        r == Failure(IsADirectory(PathOf(name))) && entries == old(entries)
      ensures !(name in old(entries) && old(entries)[name].NotAFile?) ==>
        r == Success(()) && entries == old(entries)[name := RegularFile(text)]
    {
      if name in entries && entries[name].NotAFile? {
        r := Failure(IsADirectory(PathOf(name)));
      } else {
        entries := entries[name := RegularFile(text)];
        r := Success(());
      }
    }

    /** generate_email: call the model, then pick the path, then write. */
    method GenerateEmail(userPrompt: string, llm: Llm) returns (r: Result<string, Error>)
      requires Valid()
      modifies this
      ensures Valid()
      ensures Outcome(present, entries, r) == Generate(old(present), old(entries), llm(userPrompt, SystemPrompt))
    {
      var reply := llm(userPrompt, SystemPrompt);
      if reply.Failure? {
        return Failure(reply.error);
      }
      var path := NextOutputPath();
      var name := NextName(entries);
      var written := WriteText(name, reply.value);
      if written.Failure? {
        return Failure(written.error);
      }
      r := Success(path);
    }
  }

  /** Two calls of _next_output_path with no write between give one path. */
  method NextOutputPathTwice(dir: OutputDirectory) returns (first: string, second: string)
    requires dir.Valid()
    modifies dir
    ensures dir.Valid() && dir.present && dir.entries == old(dir.entries)
    ensures first == second == PathOf(NextName(old(dir.entries)))
  {
    first := dir.NextOutputPath();
    second := dir.NextOutputPath();
  }
}
