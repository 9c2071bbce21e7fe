/** The interaction loop of `offerArticles` as a pure reference machine: what
    one run does, given the user's input events and the endpoint's answers. */
module Offer {
  import opened Numbers
  import opened Articles

  /** One thing the user does at the prompt: enter a line, or interrupt. */
  datatype Event = Line(text: string) | Interrupt

  /** What the program makes visible: a printed line, the prompt written by
      input(), or a browser tab opened on an address. */
  datatype Output = Print(text: string) | Prompt(text: string) | OpenTab(url: string)

  /** How a run stands when the given events or answers are used up: it has
      returned an exit code, it has stopped on the IndexError raised while a
      batch shorter than a page is printed (nothing catches it), or it is
      still waiting for more. */
  datatype Outcome = Exited(code: int) | Crashed | Suspended

  const EXIT_OK: int := 0
  const EXIT_FETCH_FAILED: int := 1
  const EXIT_USAGE: int := 2

  const FIRST_PROMPT: string :=
    "Select an article by number, press enter to get new articles, or type exit.\n"
  const REPEAT_PROMPT: string :=
    "Select another article by number, press enter to get new articles, or type exit.\n"
  const INVALID_OPTION: string := "That's not a valid option."
  const FETCH_FAILED: string := "Unable to fetch Articles now"
  const INTERRUPT_ECHO: string := "\n"
  const EXIT_COMMAND: string := "exit"

  /** The loop's state: articles not yet shown, and the batch on display. */
  datatype State = State(queue: seq<Article>, current: seq<Article>)

  /** The result of a run: its outcome, everything it made visible, the state
      it ended in, the batches it displayed and how many answers it used. */
  datatype RunResult = RunResult(
    outcome: Outcome,
    trace: seq<Output>,
    final: State,
    batches: seq<seq<Article>>,
    used: nat)

  function Emit(out: seq<Output>, r: RunResult): RunResult {
    r.(trace := out + r.trace)
  }

  function Shows(batch: seq<Article>, r: RunResult): RunResult {
    r.(batches := [batch] + r.batches)
  }

  function Consumed(r: RunResult): RunResult {
    r.(used := r.used + 1)
  }

  function Stop(outcome: Outcome, out: seq<Output>, s: State): RunResult {
    RunResult(outcome, out, s, [], 0)
  }

  /** A run that has made `done` visible so far and goes on as `rest`
      agrees with `whole`. */
  predicate Continues(whole: RunResult, done: seq<Output>, rest: RunResult) {
    whole.outcome == rest.outcome && whole.trace == done + rest.trace && whole.final == rest.final
  }

  lemma ContinuesTransitive(whole: RunResult, done: seq<Output>, middle: RunResult, more: seq<Output>)
    requires Continues(whole, done, middle)
    ensures forall rest :: Continues(middle, more, rest) ==> Continues(whole, done + more, rest)
  {
  }

  /** The queue must be refilled before a batch can be cut from it. When no
      refill is needed a whole, non-empty page is queued; for the page sizes
      the program accepts the emptiness test adds nothing to the length test. */
  predicate NeedsFetch(queue: seq<Article>, pageSize: nat): (b: bool)
    ensures !b ==> 0 < |queue| && pageSize <= |queue|
    ensures 0 < pageSize ==> (b <==> |queue| < pageSize)
  {
    |queue| == 0 || |queue| < pageSize
  }

  /** A batch cut from the front of the queue, and the rest of the queue, with
      the slicing rules of Python: a short queue yields all of itself. */
  function Split(queue: seq<Article>, pageSize: nat): (r: (seq<Article>, seq<Article>))
    ensures r.0 + r.1 == queue
    ensures |r.0| == if pageSize <= |queue| then pageSize else |queue|
  {
    var cut := if pageSize <= |queue| then pageSize else |queue|;
    (queue[..cut], queue[cut..])
  }

  /** The line printed for entry i of a batch: it opens with "[", the
      numeral of i, which reads back as i, and "] ", and ends with the title. */
  function Entry(i: nat, title: string): (line: string)
    ensures |line| == |NatToString(i)| + |title| + 3 && line[0] == '['
    ensures ParseInt(line[1..|NatToString(i)| + 1]) == Some(i as int)
    ensures line[|NatToString(i)| + 1..|NatToString(i)| + 3] == "] "
    ensures line[|NatToString(i)| + 3..] == title
  {
    var digits := NatToString(i);
    ParseIntOfNatToString(i);
    var line := "[" + digits + "] " + title;
    assert line[1..|digits| + 1] == digits;
    assert line[|digits| + 1..|digits| + 3] == "] ";
    assert line[|digits| + 3..] == title;
    line
  }

  /** The numbered list printed for a batch: one line per entry, in order,
      entry i on line i. */
  function Listing(batch: seq<Article>): (lines: seq<Output>)
    ensures |lines| == |batch|
    ensures forall i :: 0 <= i < |batch| ==> lines[i] == Print(Entry(i, batch[i].title))
  {
    seq(|batch|, i requires 0 <= i < |batch| => Print(Entry(i, batch[i].title)))
  }

  /** What a non-interrupted input line asks for. */
  datatype Choice = Advance | Open(index: nat) | Quit | Reject

  /** The dispatch of one input line while a batch of `pageSize` articles is
      on display. */
  function Choose(text: string, pageSize: nat): (c: Choice)
    ensures c == Advance <==> text == ""
    ensures c.Open? <==> text != "" && AppropriateNumber(text, 0, pageSize)
    ensures c.Open? ==> c.index < pageSize && ParseInt(text) == Some(c.index as int)
    ensures c == Quit <==> text == EXIT_COMMAND
  {
    if text == "" then Advance
    else if AppropriateNumber(text, 0, pageSize) then Open(ParseInt(text).value)
    else if text == EXIT_COMMAND then
      assert !IsDigit(text[0]);
      Quit
    else Reject
  }

  /** The top of the outer loop: refill the queue if it is short, then
      present the next batch. */
  function Cycle(s: State, pageSize: nat, events: seq<Event>, answers: seq<FetchResult>): (r: RunResult)
    ensures r.used <= |answers|
    decreases |events|, 2
  {
    if NeedsFetch(s.queue, pageSize) then
      if answers == [] then Stop(Suspended, [], s)
      else match answers[0]
        case FetchFailed(cause) =>
          RunResult(Exited(EXIT_FETCH_FAILED), [Print(cause), Print(FETCH_FAILED)], s, [], 1)
        case Fetched(articles) =>
          Consumed(Present(State(s.queue + articles, s.current), pageSize, events, answers[1..]))
    else Present(s, pageSize, events, answers)
  }

  /** Cut a batch off the queue, print it and the first prompt, then wait.
      A batch shorter than a page is printed entry by entry until the print
      of the first missing entry raises IndexError. */
  function Present(s: State, pageSize: nat, events: seq<Event>, answers: seq<FetchResult>): (r: RunResult)
    ensures r.used <= |answers|
    decreases |events|, 1
  {
    var (batch, rest) := Split(s.queue, pageSize);
    if |batch| < pageSize then Shows(batch, Stop(Crashed, Listing(batch), State(rest, batch)))
    else
      Shows(batch, Emit(Listing(batch) + [Prompt(FIRST_PROMPT)],
                        Await(State(rest, batch), pageSize, events, answers)))
  }

  /** The inner loop: consume one input event with `s.current` on display. */
  function Await(s: State, pageSize: nat, events: seq<Event>, answers: seq<FetchResult>): (r: RunResult)
    requires |s.current| == pageSize
    ensures r.used <= |answers|
    decreases |events|, 0
  {
    if events == [] then Stop(Suspended, [], s)
    else match events[0]
      case Interrupt => Stop(Exited(EXIT_OK), [Print(INTERRUPT_ECHO)], s)
      case Line(text) =>
        match Choose(text, pageSize)
        case Advance => Cycle(s, pageSize, events[1..], answers)
        case Open(k) =>
          Emit([OpenTab(ArticleUrl(s.current[k])), Prompt(REPEAT_PROMPT)],
               Await(s, pageSize, events[1..], answers))
        case Quit => Stop(Exited(EXIT_OK), [], s)
        case Reject =>
          Emit([Print(INVALID_OPTION), Prompt(REPEAT_PROMPT)],
               Await(s, pageSize, events[1..], answers))
  }
}
