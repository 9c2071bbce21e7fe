# randomwiki in Dafny

`randomwiki.py` offers the user random Wikipedia articles a page at a time.
It keeps a queue of article records fetched ten at a time from the random
article endpoint, cuts a page of `articles_to_show` articles (1 to 10, default
5) off the front of the queue, prints it as a numbered list, and reads lines:
a number opens that article in a browser tab, an empty line shows the next
page (refilling the queue first when it is short), `exit` or an interrupt
ends the program with exit code 0, and anything else is reported as "That's
not a valid option.". A failed fetch ends the program with exit code 1;
`main` handles the `-n`/`--number` and `-h`/`--help` options and returns
exit code 2 for help and for every bad command line. When a refill still
leaves fewer articles than a page, the program prints the entries it has and
then stops on an uncaught IndexError.

This project models that core:

- `numbers.dfy` (module `Numbers`): Python's `int()` and `str()` on decimal
  numerals, and `appropriate_number` as `AppropriateNumber`.
- `articles.dfy` (module `Articles`): the article record, the article address,
  the constants, and the endpoint's answer as a `FetchResult` (the article list,
  or the exception text).
- `offer.dfy` (module `Offer`): the interaction loop as a pure reference
  machine. `Cycle` is the top of the outer loop (refill when short, then
  present), `Present` cuts and prints a batch, `Await` is the inner input
  loop. A run consumes a sequence of input events (`Line(text)` or
  `Interrupt`) and a sequence of endpoint answers. It records what it made
  visible (printed lines, prompts, opened tabs), its exit code, its final
  state, the batches shown and the answers used. A run ends with an exit
  code, with the IndexError crash, or suspended when the given events or
  answers run out.
- `offer_facts.dfy` (module `OfferFacts`): the loop's promises proved about
  the machine. They cover each kind of input, the refill rule, and that the
  queue is a FIFO over the delivered articles, cut into whole pages, and
  when a run can crash.
- `session.dfy` (module `Sessions`): the program's state as a class
  `Session` with fields `queue`, `current` and `pageSize`. Its methods
  update the state in place the way the Python code does: `Fill`
  (`call_Wikipedia`), `TakeBatch`, `Render`, `Answer`, `Converse` (the inner
  loop), `Replenish`, `Show`, `Round` (one pass of the outer loop) and `Run`
  (`offerArticles`). `Run` is proved to end in exactly the outcome, output
  and state that `Cycle` defines.
- `cli.dfy` (module `Cli`): the option handling of `main` (`Configure` and
  the loop `ReadOptions`), and `Start`, which runs the loop from the empty
  queue with the chosen page size.

A successful fetch appends whatever list the endpoint returned to the
queue, whatever its length. The model simplifies one thing: it takes an
interrupt only while the program waits for input, although the program
handles one anywhere in the outer loop (see "## Left out").

## Model

| member | source | states |
|---|---|---|
| `Numbers.ParseInt` | randomwiki.py:99 | Python's `int()` on a string: it accepts exactly a run of ASCII digits, optionally after one `+` or `-`; a value after `-` is never positive, any other never negative. Everything else is the ValueError case |
| `Numbers.IntToString` | randomwiki.py:81-82 | `str(n)`: starts with `-` exactly when n is negative, and the rest is a non-empty run of digits |
| `Numbers.NatToString` | randomwiki.py:75-82 | `str(n)` of a non-negative integer is a non-empty run of digits, and has no leading zero unless it is `"0"` |
| `Numbers.ParseIntOfIntToString` | randomwiki.py:80-82 | `int(str(n)) == n` for every integer n: a printed number reads back as itself |
| `Numbers.ParseIntOfNatToString` | randomwiki.py:80-82 | the same round trip for non-negative integers (page indices and article ids) |
| `Numbers.AppropriateNumber` | randomwiki.py:94-107 | true exactly when the string parses as an integer a with lower <= a < upper; a string that does not parse is the ValueError branch and gives false |
| `Numbers.AppropriateNumeral` | randomwiki.py:94-107 | on the numeral of any integer k the check is true iff lower <= k < upper, so it is false for k < lower and for k >= upper |
| `Numbers.RejectsNonNumeral` | randomwiki.py:98-107 | a string with a character that is neither a digit nor a leading sign is never appropriate, whatever the limits |
| `Articles.ArticleUrl` | randomwiki.py:25 | the tab address is the article URL prefix followed by exactly `str(id)`, and the id parses back from the rest of the address |
| `Articles.FullAnswersSupply` | randomwiki.py:20-22 | answers of the requested ten articles hold at least a page for every page size up to 10 |
| `Offer.NeedsFetch` | randomwiki.py:68 | the refill test: when it is false a whole, non-empty page is queued; for a positive page size the test is exactly "fewer than a page queued", so `not queue` adds nothing |
| `Offer.Split` | randomwiki.py:72-73 | the batch and the rest of the queue concatenate to the old queue; the batch has `articles_to_show` articles, or the whole queue when it is shorter, as Python slices do |
| `Offer.Entry` | randomwiki.py:75 | the line printed for entry i opens with `[`, then the numeral of i, which reads back as i, then `] `, and ends with the title |
| `Offer.Listing` | randomwiki.py:74-75 | one printed line per entry of the batch, in order, line i being the entry line of position i |
| `Offer.Choose` | randomwiki.py:78-86 | an input line is an empty line iff it is `""`; a selection iff it passes the range check with limits 0 and the page size, and then its index is the parsed value and below the page size; the exit command iff it is `"exit"`; otherwise invalid |
| `Offer.Cycle` | randomwiki.py:66-73 | reference definition of the outer loop: fetch only when the queue is empty or shorter than a page; a failed fetch prints the cause and "Unable to fetch Articles now" and returns 1; then present. Its contract: a run never uses more answers than it was given |
| `Offer.Present` | randomwiki.py:72-77 | reference definition of cutting a batch, printing it and the first prompt, or crashing after printing a short batch. Its contract: no more answers used than given |
| `Offer.Await` | randomwiki.py:76-92 | reference definition of the inner input loop for each kind of event. Its contract: no more answers used than given |
| `OfferFacts.StockedCycleSkipsFetch` | randomwiki.py:68-73 | step equation of the machine: a queue holding at least a page is not refilled: the batch is cut at once |
| `OfferFacts.ShortCycleFetches` | randomwiki.py:68-73 | step equation: a short queue consumes exactly one answer, and a successful answer is appended to the back of the queue before the batch is cut |
| `OfferFacts.FailedFetchExits` | randomwiki.py:69-71 | step equation: a failed fetch prints its cause and the failure message, returns exit code 1, and leaves queue and batch unchanged |
| `OfferFacts.PresentShowsFront` | randomwiki.py:72-77 | step equation: with at least a page queued, presenting puts the first page of the queue on display and keeps the rest queued. It prints one numbered line per entry, then the first prompt |
| `OfferFacts.PresentCrashes` | randomwiki.py:72-75 | step equation: with fewer than a page queued, the whole queue becomes the batch, its entries are printed, the run crashes, and the queue is left empty |
| `OfferFacts.SelectionOpensArticle` | randomwiki.py:79-82 | step equation: a line that passes the range check opens exactly one tab, at the URL of `current[int(line)]`, then prompts again with queue and batch unchanged |
| `OfferFacts.ListedIndexOpensArticle` | randomwiki.py:74-82 | the number printed beside entry k, typed back, opens the tab of entry k and nothing else |
| `OfferFacts.ChooseListedIndex` | randomwiki.py:79-80 | the numeral of any k below the page size is a selection of index k |
| `OfferFacts.InvalidLineChangesNothing` | randomwiki.py:85-89 | step equation: a non-empty line that is neither a valid index nor `"exit"` prints "That's not a valid option." and prompts again with queue and batch unchanged |
| `OfferFacts.OutOfRangeIsInvalid` | randomwiki.py:79 | the numeral of a negative number or of one at or above the page size is an invalid line |
| `OfferFacts.ExitEndsRun` | randomwiki.py:83-84 | step equation: `"exit"` returns 0 with no further output or prompt, and the state stays as it is |
| `OfferFacts.InterruptEndsRun` | randomwiki.py:90-92 | step equation: an interrupt at the prompt prints `"\n"` (two line breaks, with print's own) and returns 0 |
| `OfferFacts.LeaveConversation` | randomwiki.py:78 | step equation for the two events that leave the inner loop: an interrupt prints `"\n"` and ends the run with 0, an empty line goes back to the top of the outer loop |
| `OfferFacts.EmptyLineAdvances` | randomwiki.py:78 | step equation: an empty line goes back to the top of the outer loop with the state unchanged, so the next page comes from the queue and a fetch happens only if the queue is short |
| `OfferFacts.CycleAccounts` | randomwiki.py:44-92 | over a whole run from the top of the outer loop: the batches shown, followed by what is still queued, equal the start queue followed by the articles of the answers used, in order; every batch is a whole page except the last batch of a crashed run, which is short, and a run crashes only on such a batch; the batch on display is the last one shown |
| `OfferFacts.PresentAccounts` | randomwiki.py:72-73 | the same accounts from the moment a batch is cut, and at least one batch is shown |
| `OfferFacts.AwaitAccounts` | randomwiki.py:78-89 | the same accounts from the input prompt: selections and invalid lines change nothing, an empty line continues with the outer loop |
| `OfferFacts.CycleNeverCrashes` | randomwiki.py:68-75 | when every successful answer holds at least a page, no run crashes, however many refills it makes |
| `OfferFacts.PresentNeverCrashes` | randomwiki.py:72-75 | the same from the moment a batch is cut from a queue holding a page |
| `OfferFacts.AwaitNeverCrashes` | randomwiki.py:78-89 | the same from the input prompt |
| `OfferFacts.FullAnswersNeverCrash` | randomwiki.py:20-22 | answers of the requested ten articles never crash a run, for every page size the options accept |
| `OfferFacts.ShortAnswerCompletesPage` | randomwiki.py:68-75 | an answer shorter than a page does not crash the run when the leftover queue makes up the page (one queued article plus an answer of two, page size 3) |
| `OfferFacts.ShortAnswerCrashes` | randomwiki.py:68-75 | an empty queue and an answer of two for a page of three print `[0]` and `[1]` and then crash, with the queue left empty |
| `OfferFacts.RunIsFifo` | randomwiki.py:36 | from the empty start queue, the batches shown and the articles still queued are exactly the delivered articles, in delivery order: fetches only append and pages are only cut from the front |
| `OfferFacts.ExampleSession` | randomwiki.py:56-92 | page size 1 and one answer holding article 42, "Test Article". The input "0" then "exit" prints `[0] Test Article`, opens `http://en.wikipedia.org/wiki?curid=42`, and returns 0 |
| `Sessions.Session.constructor` | randomwiki.py:36-39 | the loop starts from an empty queue, nothing on display, and the chosen page size |
| `Sessions.Session.Fill` | randomwiki.py:41-54 | `call_Wikipedia`: it succeeds iff the answer is an article list. Success appends the list to the back of the queue; failure leaves the queue unchanged and prints the exception text |
| `Sessions.Session.TakeBatch` | randomwiki.py:72-73 | the new batch followed by the new queue is the old queue; the batch is a whole page, or the whole old queue when that is shorter |
| `Sessions.Session.Render` | randomwiki.py:74-75 | prints exactly one line `[i] title` for each entry i of the batch on display, in order; it completes exactly when the batch is a whole page, and otherwise stops where the program raises IndexError |
| `Sessions.Session.Answer` | randomwiki.py:79-89 | the body of the inner loop for one non-empty line. It stops iff the line is `"exit"`; otherwise its output is what the reference machine emits for that line (one tab, or the invalid-option message, then the re-prompt) |
| `Sessions.Session.Converse` | randomwiki.py:76-92 | the inner loop reads events until an empty line or the end of the run. The result is the reference inner loop's outcome, output and state; after an empty line the rest of the run continues with the outer loop |
| `Sessions.Session.Replenish` | randomwiki.py:68-71 | the refill step: it uses at most one answer, and uses one exactly when the queue is short and an answer is left; a queue holding a page is left alone and the run goes on. It ends the run on a failed fetch; after a successful one the answer's articles are appended to the queue and the run goes on to present from it |
| `Sessions.Session.Show` | randomwiki.py:72-92 | the body of the outer loop after the refill: the new batch and queue are `Split` of the old queue, and it agrees with the reference `Present`: printing the batch, then conversing, either finishes the rest of the run (including the crash on a short batch) or gives its output up to an empty line, after which the run continues with the outer loop |
| `Sessions.Session.Round` | randomwiki.py:66-89 | one pass of the outer loop: when the run goes on, the batch on display and the queue are the page cut from the old queue followed by the articles of the answers used; and it agrees with the reference machine: either the whole rest of the run, or its output up to an empty line, with the events and answers consumed; a short batch ends the run with the crash |
| `Sessions.Session.Run` | randomwiki.py:56-92 | `offerArticles` gives exactly the exit outcome, output trace and final queue and batch of the reference machine `Cycle` |
| `Cli.Configure` | randomwiki.py:119-140 | the decision `main` takes before the loop: a page size between 1 and 10, or exit code 2; a getopt error prints its message and the `--help` hint |
| `Cli.ApplyOptions` | randomwiki.py:128-140 | the option loop either goes on with a page size between 1 and 10 or returns exit code 2 |
| `Cli.ReadOptions` | randomwiki.py:119-140 | the option handling of `main`, updating the page size option by option, decides exactly what `Configure` defines: a getopt error prints its message and the `--help` hint and returns 2; positional arguments without options print the help and return 2 |
| `Cli.Start` | randomwiki.py:109-141 | `main`: a refused command line returns its exit code after its messages and never starts the loop. Otherwise the result is the loop's run from the empty queue with the chosen page size |
| `Cli.NumberOptionRange` | randomwiki.py:132-137 | `-n`/`--number` with argument a sets the page size to int(a) exactly when a parses as an integer in 1..10, and otherwise prints "Please enter a number between 1-10." and returns 2 |
| `Cli.NumberOptionAcceptsNumeral` | randomwiki.py:132-134 | `-n k` for each k in 1..10 selects page size k |
| `Cli.NumberOptionRejectsExamples` | randomwiki.py:132-137 | `-n 11`, `-n 0` and `-n abc` return 2 before the loop starts |
| `Cli.ArgumentsWithoutOptionsQuit` | randomwiki.py:124-126 | positional arguments with no option print the help and return 2 |
| `Cli.FirstFailureDecides` | randomwiki.py:128-140 | options are handled in order. The first one that is not a valid page size option decides the result: `-h`/`--help` and unknown options print the help, a bad `-n` value prints the range message, and every case returns 2 |
| `Cli.LastNumberWins` | randomwiki.py:128-134 | when every option is a valid page size option, the last one sets the page size |
| `Cli.ProceedsExactly` | randomwiki.py:124-141 | the loop starts iff the command line is not only positional arguments and every option is a valid page size option. The page size is then the last value given, or 5 when no option is given |

## Left out

- Network I/O: `urlopen`, JSON decoding and the `["query"]["random"]`
  extraction are not modelled. Each call's result is an element of a given
  sequence of answers: an article list, or a failure with the exception
  text.
- The IndexError raised when a refill leaves fewer articles than a page is
  the outcome `Crashed`, reached after the entries that exist are printed.
  The traceback and the exit status of the uncaught exception are not
  modelled.
- `webbrowser.open_new_tab` is modelled as an `OpenTab(url)` entry in the
  output trace. Whether a tab really opens is not modelled.
- getopt itself is left out. `main` receives its result as an `Invocation`:
  a syntax error with its message, or the parsed option pairs and the
  positional arguments.
- The Python version check at the start of `main` is left out. The model
  assumes Python 3.
- Console I/O: `print` and the prompt written by `input` become `Print` and
  `Prompt` entries in the trace. Input is a finite sequence of events. When
  the events or the answers run out the run ends as `Suspended` with its
  state so far. End of input (EOFError, uncaught in the source) is not
  modelled.
- KeyboardInterrupt is modelled only as an input event at the prompt. An
  interrupt during a fetch or while the list is printed is not modelled; the
  source also answers those by printing `"\n"` and returning 0.
- Python's `int()` grammar is modelled as an optional `+` or `-` followed by
  ASCII digits. Surrounding whitespace, underscores between digits and
  non-ASCII digits, which CPython also accepts, are left out. So is the
  limit of 4300 digits that CPython 3.11 and later enforce (leading zeros
  included): the model accepts longer numerals, which Python rejects as
  ValueError.
- Article ids are non-negative integers, as the endpoint returns them; only
  `id` and `title` of each record are kept.
- `Offer.Cycle`: its own contract states only that a run uses no more
  answers than given; what the outer loop promises is proved by the
  `OfferFacts` lemmas and tied to the imperative code by `Sessions.Session.Run`.
- `Offer.Present`: likewise; its steps are `OfferFacts.PresentShowsFront` and
  `OfferFacts.PresentCrashes`.
- `Offer.Await`: likewise; each kind of input event is a step equation in
  `OfferFacts`.
