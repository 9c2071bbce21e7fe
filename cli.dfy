/** `main`: the option handling that fixes the page size, and the start of
    the interaction loop. */
module Cli {
  import opened Numbers
  import opened Articles
  import opened Offer
  import opened Sessions

  /** The command line as getopt leaves it: a syntax error with its message,
      or the recognised (option, argument) pairs and the remaining arguments. */
  datatype Invocation = Malformed(message: string) | Parsed(opts: seq<(string, string)>, args: seq<string>)

  /** Where option handling ends: go on with a page size, or return an exit
      code after printing some lines. */
  datatype Setup = Proceed(pageSize: nat) | Abort(code: int, said: seq<Output>)

  const HELP_MESSAGE: string :=
    "This program offers the user random articles from Wikipedia to read. Articles will be opened in a new browser tab.\n"
    + "Use -n or --number= to set the number of articles to display at any one time (from 1 to 10)."
  const RANGE_MESSAGE: string := "Please enter a number between 1-10."
  const HELP_HINT: string := "for help use --help"
  /** `upper_limit` as `main` passes it: page sizes 1 through 10. */
  const NUMBER_UPPER_LIMIT: int := 11

  predicate IsHelpFlag(opt: string) {
    opt == "-h" || opt == "--help"
  }

  predicate IsNumberFlag(opt: string) {
    opt == "-n" || opt == "--number"
  }

  /** An option that sets the page size to a value the program accepts. */
  predicate IsPageSizeOption(o: (string, string)) {
    IsNumberFlag(o.0) && AppropriateNumber(o.1, 1, NUMBER_UPPER_LIMIT)
  }

  /** The `for opt, arg in opts` loop, from page size `size` on. */
  function ApplyOptions(opts: seq<(string, string)>, size: nat): (r: Setup)
    requires 1 <= size <= MAX_PAGE_SIZE
    ensures r.Proceed? ==> 1 <= r.pageSize <= MAX_PAGE_SIZE
    ensures r.Abort? ==> r.code == EXIT_USAGE
    decreases |opts|
  {
    if opts == [] then Proceed(size)
    else
      var (opt, arg) := opts[0];
      if IsHelpFlag(opt) then Abort(EXIT_USAGE, [Print(HELP_MESSAGE)])
      else if IsNumberFlag(opt) then
        if AppropriateNumber(arg, 1, NUMBER_UPPER_LIMIT) then ApplyOptions(opts[1..], ParseInt(arg).value)
        else Abort(EXIT_USAGE, [Print(RANGE_MESSAGE)])
      else Abort(EXIT_USAGE, [Print(HELP_MESSAGE)])
  }

  /** What `main` decides before the loop starts: a page size the program
      accepts, or exit code 2; a getopt error is reported with the hint. */
  function Configure(inv: Invocation): (r: Setup)
    ensures r.Proceed? ==> 1 <= r.pageSize <= MAX_PAGE_SIZE
    ensures r.Abort? ==> r.code == EXIT_USAGE
    ensures inv.Malformed? ==> r.Abort? && r.said == [Print(inv.message), Print(HELP_HINT)]
  {
    match inv
    case Malformed(message) => Abort(EXIT_USAGE, [Print(message), Print(HELP_HINT)])
    case Parsed(opts, args) =>
      if |args| > 0 && |opts| == 0 then Abort(EXIT_USAGE, [Print(HELP_MESSAGE)])
      else ApplyOptions(opts, DEFAULT_PAGE_SIZE)
  }

  /** The option handling of `main`, updating the page size option by option. */
  method ReadOptions(inv: Invocation) returns (r: Setup)
    ensures r == Configure(inv)
  {
    match inv
    case Malformed(message) =>
      return Abort(EXIT_USAGE, [Print(message), Print(HELP_HINT)]);
    case Parsed(opts, args) =>
      if |args| > 0 && |opts| == 0 {
        return Abort(EXIT_USAGE, [Print(HELP_MESSAGE)]);
      }
      var size := DEFAULT_PAGE_SIZE;
      for i := 0 to |opts|
        invariant 1 <= size <= MAX_PAGE_SIZE
        invariant ApplyOptions(opts[i..], size) == Configure(inv)
      {
        assert opts[i..][1..] == opts[i + 1..];
        var (opt, arg) := opts[i];
        if IsHelpFlag(opt) {
          return Abort(EXIT_USAGE, [Print(HELP_MESSAGE)]);
        } else if IsNumberFlag(opt) {
          if AppropriateNumber(arg, 1, NUMBER_UPPER_LIMIT) {
            size := ParseInt(arg).value;
          } else {
            return Abort(EXIT_USAGE, [Print(RANGE_MESSAGE)]);
          }
        } else {
          return Abort(EXIT_USAGE, [Print(HELP_MESSAGE)]);
        }
      }
      return Proceed(size);
  }

  /** `main`: handle the options, then run `offerArticles` from the empty
      queue with the chosen page size and return its exit code. */
  method Start(inv: Invocation, events: seq<Event>, answers: seq<FetchResult>)
    returns (outcome: Outcome, trace: seq<Output>)
    ensures Configure(inv).Abort? ==> outcome == Exited(Configure(inv).code) && trace == Configure(inv).said
    ensures Configure(inv).Proceed? ==>
      var r := Cycle(State([], []), Configure(inv).pageSize, events, answers);
      outcome == r.outcome && trace == r.trace
  {
    var setup := ReadOptions(inv);
    match setup
    case Abort(code, said) =>
      return Exited(code), said;
    case Proceed(size) =>
      var session := new Session(size);
      outcome, trace := session.Run(events, answers);
  }

  /** -n accepts exactly the page sizes 1 through 10, and an accepted value
      becomes the page size. */
  lemma NumberOptionRange(flag: string, arg: string, args: seq<string>)
    requires IsNumberFlag(flag)
    ensures Configure(Parsed([(flag, arg)], args))
         == if ParseInt(arg).Some? && 1 <= ParseInt(arg).value <= 10 then Proceed(ParseInt(arg).value)
            else Abort(EXIT_USAGE, [Print(RANGE_MESSAGE)])
  {
    var opts := [(flag, arg)];
    assert opts[0].0 == flag && opts[0].1 == arg && opts[1..] == [];
    assert !IsHelpFlag(flag);
    assert Configure(Parsed(opts, args)) == ApplyOptions(opts, DEFAULT_PAGE_SIZE);
    if AppropriateNumber(arg, 1, NUMBER_UPPER_LIMIT) {
      assert ApplyOptions(opts, DEFAULT_PAGE_SIZE) == ApplyOptions([], ParseInt(arg).value);
    } else {
      assert ApplyOptions(opts, DEFAULT_PAGE_SIZE) == Abort(EXIT_USAGE, [Print(RANGE_MESSAGE)]);
    }
  }

  /** Typing the numeral of a page size in 1..10 selects it. */
  lemma NumberOptionAcceptsNumeral(k: nat, args: seq<string>)
    requires 1 <= k <= MAX_PAGE_SIZE
    ensures Configure(Parsed([("-n", NatToString(k))], args)) == Proceed(k)
  {
    ParseIntOfNatToString(k);
    NumberOptionRange("-n", NatToString(k), args);
  }

  /** -n 11, -n 0 and -n abc are refused with exit code 2 before the loop starts. */
  lemma NumberOptionRejectsExamples(args: seq<string>)
    ensures Configure(Parsed([("-n", "11")], args)) == Abort(EXIT_USAGE, [Print(RANGE_MESSAGE)])
    ensures Configure(Parsed([("-n", "0")], args)) == Abort(EXIT_USAGE, [Print(RANGE_MESSAGE)])
    ensures Configure(Parsed([("-n", "abc")], args)) == Abort(EXIT_USAGE, [Print(RANGE_MESSAGE)])
  {
    assert NatToString(11) == "11" by {
      assert NatToString(1) == "1";
    }
    assert NatToString(0) == "0";
    ParseIntOfNatToString(11);
    ParseIntOfNatToString(0);
    NumberOptionRange("-n", "11", args);
    NumberOptionRange("-n", "0", args);
    NumberOptionRange("-n", "abc", args);
    assert !IsDigit("abc"[0]);
  }

  /** Positional arguments without any option print the help and return 2. */
  lemma ArgumentsWithoutOptionsQuit(args: seq<string>)
    requires args != []
    ensures Configure(Parsed([], args)) == Abort(EXIT_USAGE, [Print(HELP_MESSAGE)])
  {
  }

  /** Options are handled in order: the first one that is not a valid page
      size option decides the exit code and message, whatever follows it. */
  lemma {:induction false} FirstFailureDecides(opts: seq<(string, string)>, size: nat, k: nat)
    requires 1 <= size <= MAX_PAGE_SIZE
    requires k < |opts| && !IsPageSizeOption(opts[k])
    requires forall i :: 0 <= i < k ==> IsPageSizeOption(opts[i])
    ensures ApplyOptions(opts, size)
         == Abort(EXIT_USAGE, [Print(if IsNumberFlag(opts[k].0) then RANGE_MESSAGE else HELP_MESSAGE)])
    decreases k
  {
    if k > 0 {
      assert IsPageSizeOption(opts[0]);
      forall i | 0 <= i < k - 1
        ensures IsPageSizeOption(opts[1..][i])
      {
        assert opts[1..][i] == opts[i + 1];
      }
      FirstFailureDecides(opts[1..], ParseInt(opts[0].1).value, k - 1);
    }
  }

  /** When every option is a valid page size option, the last one wins. */
  lemma {:induction false} LastNumberWins(opts: seq<(string, string)>, size: nat)
    requires 1 <= size <= MAX_PAGE_SIZE
    requires opts != [] && forall i :: 0 <= i < |opts| ==> IsPageSizeOption(opts[i])
    ensures var last := opts[|opts| - 1];
      IsPageSizeOption(last) && ApplyOptions(opts, size) == Proceed(ParseInt(last.1).value)
    decreases |opts|
  {
    assert IsPageSizeOption(opts[0]);
    if |opts| > 1 {
      forall i | 0 <= i < |opts| - 1
        ensures IsPageSizeOption(opts[1..][i])
      {
        assert opts[1..][i] == opts[i + 1];
      }
      LastNumberWins(opts[1..], ParseInt(opts[0].1).value);
      assert opts[1..][|opts| - 2] == opts[|opts| - 1];
    } else {
      assert opts[1..] == [];
    }
  }

  /** The loop starts exactly when every option is a valid page size option
      (and the command line is not only positional arguments); the page size
      is then the last one given, or 5 when there is none. */
  lemma {:induction false} ProceedsExactly(opts: seq<(string, string)>, args: seq<string>)
    ensures Configure(Parsed(opts, args)).Proceed?
        <==> !(|args| > 0 && |opts| == 0) && forall i :: 0 <= i < |opts| ==> IsPageSizeOption(opts[i])
    ensures Configure(Parsed(opts, args)).Proceed? ==>
      Configure(Parsed(opts, args)).pageSize
        == if opts == [] then DEFAULT_PAGE_SIZE else ParseInt(opts[|opts| - 1].1).value
  {
    if !(|args| > 0 && |opts| == 0) {
      if forall i :: 0 <= i < |opts| ==> IsPageSizeOption(opts[i]) {
        if opts != [] {
          LastNumberWins(opts, DEFAULT_PAGE_SIZE);
        }
      } else {
        var k :| 0 <= k < |opts| && !IsPageSizeOption(opts[k]);
        FirstFailing(opts, k);
      }
    }
  }

  /** Some option fails; then the first failing one decides. */
  lemma {:induction false} FirstFailing(opts: seq<(string, string)>, k: nat)
    requires k < |opts| && !IsPageSizeOption(opts[k])
    ensures ApplyOptions(opts, DEFAULT_PAGE_SIZE).Abort?
    decreases k
  {
    if exists j :: 0 <= j < k && !IsPageSizeOption(opts[j]) {
      var j :| 0 <= j < k && !IsPageSizeOption(opts[j]);
      FirstFailing(opts, j);
    } else {
      FirstFailureDecides(opts, DEFAULT_PAGE_SIZE, k);
    }
  }
}
