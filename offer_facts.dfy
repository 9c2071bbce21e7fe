/** What the interaction loop promises, proved about the reference machine. */
module OfferFacts {
  import opened Numbers
  import opened Articles
  import opened Offer

  /** A queue that holds a whole page is not refilled: the batch is cut at once. */
  lemma StockedCycleSkipsFetch(s: State, pageSize: nat, events: seq<Event>, answers: seq<FetchResult>)
    requires pageSize <= |s.queue| && 0 < |s.queue|
    ensures Cycle(s, pageSize, events, answers) == Present(s, pageSize, events, answers)
  {
  }

  /** A short queue is refilled by exactly one answer; a successful answer is
      appended to the back of the queue before the batch is cut. */
  lemma ShortCycleFetches(s: State, pageSize: nat, events: seq<Event>, answers: seq<FetchResult>)
    requires NeedsFetch(s.queue, pageSize)
    requires answers != [] && answers[0].Fetched?
    ensures Cycle(s, pageSize, events, answers)
         == Consumed(Present(State(s.queue + answers[0].articles, s.current), pageSize, events, answers[1..]))
  {
  }

  /** A failed answer ends the run with exit code 1 and leaves the state alone. */
  lemma FailedFetchExits(s: State, pageSize: nat, events: seq<Event>, answers: seq<FetchResult>)
    requires NeedsFetch(s.queue, pageSize)
    requires answers != [] && answers[0].FetchFailed?
    ensures Cycle(s, pageSize, events, answers)
         == RunResult(Exited(EXIT_FETCH_FAILED), [Print(answers[0].cause), Print(FETCH_FAILED)], s, [], 1)
  {
  }

  /** Presenting prints the batch cut from the front of the queue and the
      first prompt, and puts that batch on display. */
  lemma PresentShowsFront(s: State, pageSize: nat, events: seq<Event>, answers: seq<FetchResult>)
    requires pageSize <= |s.queue|
    ensures Present(s, pageSize, events, answers)
         == Shows(s.queue[..pageSize],
                  Emit(Listing(s.queue[..pageSize]) + [Prompt(FIRST_PROMPT)],
                       Await(State(s.queue[pageSize..], s.queue[..pageSize]), pageSize, events, answers)))
  {
  }

  /** A queue shorter than a page, even after a refill, is cut as a whole:
      its entries are printed, the print of the first missing entry raises
      IndexError, and the queue is left empty. */
  lemma PresentCrashes(s: State, pageSize: nat, events: seq<Event>, answers: seq<FetchResult>)
    requires |s.queue| < pageSize
    ensures Present(s, pageSize, events, answers)
         == RunResult(Crashed, Listing(s.queue), State([], s.queue), [s.queue], 0)
  {
    assert s.queue[..|s.queue|] == s.queue && s.queue[|s.queue|..] == [];
  }

  /** With no more input the run is suspended where it stands. */
  lemma AwaitOutOfInput(s: State, pageSize: nat, answers: seq<FetchResult>)
    requires |s.current| == pageSize
    ensures Await(s, pageSize, [], answers) == Stop(Suspended, [], s)
  {
  }

  /** A line that passes the range check opens exactly one address, that of
      the article at the number typed, changes no state, and prompts again. */
  lemma SelectionOpensArticle(s: State, pageSize: nat, text: string, events: seq<Event>, answers: seq<FetchResult>)
    requires |s.current| == pageSize
    requires AppropriateNumber(text, 0, pageSize)
    ensures 0 <= ParseInt(text).value < pageSize
    ensures Await(s, pageSize, [Line(text)] + events, answers)
         == Emit([OpenTab(ArticleUrl(s.current[ParseInt(text).value])), Prompt(REPEAT_PROMPT)],
                 Await(s, pageSize, events, answers))
  {
    assert ([Line(text)] + events)[1..] == events;
  }

  /** In particular, typing the number printed beside entry k opens entry k. */
  lemma ListedIndexOpensArticle(s: State, pageSize: nat, k: nat, events: seq<Event>, answers: seq<FetchResult>)
    requires |s.current| == pageSize && k < pageSize
    ensures Listing(s.current)[k] == Print("[" + NatToString(k) + "] " + s.current[k].title)
    ensures Await(s, pageSize, [Line(NatToString(k))] + events, answers)
         == Emit([OpenTab(ArticleUrl(s.current[k])), Prompt(REPEAT_PROMPT)], Await(s, pageSize, events, answers))
  {
    ChooseListedIndex(NatToString(k), k, pageSize);
    SelectionOpensArticle(s, pageSize, NatToString(k), events, answers);
  }

  /** Typing the index printed beside an entry selects that entry. */
  lemma ChooseListedIndex(text: string, k: nat, pageSize: nat)
    requires k < pageSize && text == NatToString(k)
    ensures Choose(text, pageSize) == Open(k)
  {
    ParseIntOfNatToString(k);
  }

  /** Any other line that is not empty and not "exit" is reported as invalid,
      changes no state, and prompts again. */
  lemma InvalidLineChangesNothing(s: State, pageSize: nat, text: string, events: seq<Event>, answers: seq<FetchResult>)
    requires |s.current| == pageSize
    requires text != "" && text != EXIT_COMMAND && !AppropriateNumber(text, 0, pageSize)
    ensures Await(s, pageSize, [Line(text)] + events, answers)
         == Emit([Print(INVALID_OPTION), Prompt(REPEAT_PROMPT)], Await(s, pageSize, events, answers))
  {
    assert ([Line(text)] + events)[1..] == events;
  }

  /** A selection whose number is out of range is one such invalid line. */
  lemma OutOfRangeIsInvalid(k: int, pageSize: nat)
    requires k < 0 || k >= pageSize
    ensures Choose(IntToString(k), pageSize) == Reject
  {
    AppropriateNumeral(k, 0, pageSize);
    if k >= 0 {
      assert IntToString(k)[0] != 'e';
    }
  }

  /** "exit" ends the run with exit code 0, printing and prompting nothing more. */
  lemma ExitEndsRun(s: State, pageSize: nat, events: seq<Event>, answers: seq<FetchResult>)
    requires |s.current| == pageSize
    ensures Await(s, pageSize, [Line(EXIT_COMMAND)] + events, answers) == Stop(Exited(EXIT_OK), [], s)
  {
  }

  /** An interrupt at the prompt prints "\n" and exits with code 0. */
  lemma InterruptEndsRun(s: State, pageSize: nat, events: seq<Event>, answers: seq<FetchResult>)
    requires |s.current| == pageSize
    ensures Await(s, pageSize, [Interrupt] + events, answers)
         == Stop(Exited(EXIT_OK), [Print(INTERRUPT_ECHO)], s)
  {
  }

  /** The two events that leave the inner loop: an interrupt ends the run
      after printing "\n"; an empty line goes back to the top of the outer
      loop. */
  lemma LeaveConversation(s: State, pageSize: nat, event: Event, events: seq<Event>, answers: seq<FetchResult>)
    requires |s.current| == pageSize
    requires !(event.Line? && event.text != "")
    ensures event.Interrupt? ==>
      Await(s, pageSize, [event] + events, answers) == Stop(Exited(EXIT_OK), [Print(INTERRUPT_ECHO)], s)
    ensures event.Line? ==> Await(s, pageSize, [event] + events, answers) == Cycle(s, pageSize, events, answers)
  {
    assert ([event] + events)[1..] == events;
  }

  /** An empty line goes back to the top of the outer loop. */
  lemma EmptyLineAdvances(s: State, pageSize: nat, events: seq<Event>, answers: seq<FetchResult>)
    requires |s.current| == pageSize
    ensures Await(s, pageSize, [Line("")] + events, answers) == Cycle(s, pageSize, events, answers)
  {
    assert ([Line("")] + events)[1..] == events;
  }

  /** The batches of a run, one after the other. */
  function Flatten(batches: seq<seq<Article>>): seq<Article>
    decreases |batches|
  {
    if batches == [] then [] else batches[0] + Flatten(batches[1..])
  }

  /** The queue is a FIFO over the delivered articles: everything displayed,
      followed by what is still queued, is the start queue followed by the
      articles of the answers used, in order; every batch displayed is a whole
      page, except the last batch of a run that crashed, which is short, and
      a run crashes only on such a batch; and the batch left on display is the
      last one shown. */
  predicate Accounts(s: State, pageSize: nat, answers: seq<FetchResult>, r: RunResult) {
    && r.used <= |answers|
    && Flatten(r.batches) + r.final.queue == s.queue + Delivered(answers[..r.used])
    && (forall i :: 0 <= i < |r.batches| ==>
          |r.batches[i]| == pageSize
          || (r.outcome == Crashed && i == |r.batches| - 1 && |r.batches[i]| < pageSize))
    && (r.outcome == Crashed ==> r.batches != [] && |r.batches[|r.batches| - 1]| < pageSize)
    && r.final.current == (if r.batches == [] then s.current else r.batches[|r.batches| - 1])
  }

  lemma DeliveredFront(answers: seq<FetchResult>, n: nat)
    requires 0 < n <= |answers|
    ensures Delivered(answers[..n])
         == (if answers[0].Fetched? then answers[0].articles else []) + Delivered(answers[1..][..n - 1])
  {
    assert answers[..n][0] == answers[0];
    assert answers[..n][1..] == answers[1..][..n - 1];
  }

  lemma {:induction false} CycleAccounts(s: State, pageSize: nat, events: seq<Event>, answers: seq<FetchResult>)
    ensures Accounts(s, pageSize, answers, Cycle(s, pageSize, events, answers))
    decreases |events|, 2
  {
    if NeedsFetch(s.queue, pageSize) {
      if answers == [] {
        assert answers[..0] == [];
      } else if answers[0].FetchFailed? {
        FailedFetchExits(s, pageSize, events, answers);
        DeliveredFront(answers, 1);
        assert answers[1..][..0] == [];
      } else {
        var filled := State(s.queue + answers[0].articles, s.current);
        PresentAccounts(filled, pageSize, events, answers[1..]);
        ShortCycleFetches(s, pageSize, events, answers);
        ConsumedAccounts(s, pageSize, answers, Present(filled, pageSize, events, answers[1..]));
      }
    } else {
      StockedCycleSkipsFetch(s, pageSize, events, answers);
      PresentAccounts(s, pageSize, events, answers);
    }
  }

  /** Appending a successful answer to the queue before going on keeps the
      accounts. */
  lemma ConsumedAccounts(s: State, pageSize: nat, answers: seq<FetchResult>, inner: RunResult)
    requires answers != [] && answers[0].Fetched?
    requires Accounts(State(s.queue + answers[0].articles, s.current), pageSize, answers[1..], inner)
    requires inner.batches != []
    ensures Accounts(s, pageSize, answers, Consumed(inner))
  {
    DeliveredFront(answers, inner.used + 1);
  }

  lemma {:induction false} PresentAccounts(s: State, pageSize: nat, events: seq<Event>, answers: seq<FetchResult>)
    ensures Accounts(s, pageSize, answers, Present(s, pageSize, events, answers))
    ensures Present(s, pageSize, events, answers).batches != []
    decreases |events|, 1
  {
    if |s.queue| < pageSize {
      PresentCrashes(s, pageSize, events, answers);
      FlattenCons(s.queue, []);
      assert answers[..0] == [];
    } else {
      var batch, rest := s.queue[..pageSize], s.queue[pageSize..];
      AwaitAccounts(State(rest, batch), pageSize, events, answers);
      PresentShowsFront(s, pageSize, events, answers);
      ShowsAccounts(s, pageSize, answers, batch, rest,
                    Listing(batch) + [Prompt(FIRST_PROMPT)], Await(State(rest, batch), pageSize, events, answers));
    }
  }

  /** Displaying a whole page cut from the front keeps the accounts. */
  lemma ShowsAccounts(s: State, pageSize: nat, answers: seq<FetchResult>,
                      batch: seq<Article>, rest: seq<Article>, out: seq<Output>, inner: RunResult)
    requires batch + rest == s.queue && |batch| == pageSize
    requires Accounts(State(rest, batch), pageSize, answers, inner)
    ensures Accounts(s, pageSize, answers, Shows(batch, Emit(out, inner)))
  {
    var r := Shows(batch, Emit(out, inner));
    var delivered := Delivered(answers[..r.used]);
    FlattenCons(batch, inner.batches);
    calc {
      Flatten(r.batches) + r.final.queue;
      batch + Flatten(inner.batches) + inner.final.queue;
      batch + (Flatten(inner.batches) + inner.final.queue);
      batch + (rest + delivered);
      s.queue + delivered;
    }
    forall i | 0 <= i < |r.batches|
      ensures |r.batches[i]| == pageSize
              || (r.outcome == Crashed && i == |r.batches| - 1 && |r.batches[i]| < pageSize)
    {
      if i > 0 {
        assert r.batches[i] == inner.batches[i - 1];
      }
    }
    if inner.batches != [] {
      assert r.batches[|r.batches| - 1] == inner.batches[|inner.batches| - 1];
    }
  }

  lemma FlattenCons(batch: seq<Article>, batches: seq<seq<Article>>)
    ensures Flatten([batch] + batches) == batch + Flatten(batches)
  {
    assert ([batch] + batches)[1..] == batches;
  }

  lemma {:induction false} AwaitAccounts(s: State, pageSize: nat, events: seq<Event>, answers: seq<FetchResult>)
    requires |s.current| == pageSize
    ensures Accounts(s, pageSize, answers, Await(s, pageSize, events, answers))
    decreases |events|, 0
  {
    if events == [] {
      assert answers[..0] == [];
    } else {
      match events[0]
      case Interrupt =>
        assert answers[..0] == [];
      case Line(text) =>
        match Choose(text, pageSize)
        case Advance => CycleAccounts(s, pageSize, events[1..], answers);
        case Open(k) => AwaitAccounts(s, pageSize, events[1..], answers);
        case Quit => assert answers[..0] == [];
        case Reject => AwaitAccounts(s, pageSize, events[1..], answers);
    }
  }

  /** Answers that each hold at least a page never let a run crash: after a
      refill a whole page is always queued. */
  lemma {:induction false} CycleNeverCrashes(s: State, pageSize: nat, events: seq<Event>, answers: seq<FetchResult>)
    requires Supplies(answers, pageSize)
    ensures Cycle(s, pageSize, events, answers).outcome != Crashed
    decreases |events|, 2
  {
    if NeedsFetch(s.queue, pageSize) {
      if answers != [] && answers[0].Fetched? {
        forall i | 0 <= i < |answers| - 1 && answers[1..][i].Fetched?
          ensures |answers[1..][i].articles| >= pageSize
        {
          assert answers[1..][i] == answers[i + 1];
        }
        ShortCycleFetches(s, pageSize, events, answers);
        PresentNeverCrashes(State(s.queue + answers[0].articles, s.current), pageSize, events, answers[1..]);
      }
    } else {
      StockedCycleSkipsFetch(s, pageSize, events, answers);
      PresentNeverCrashes(s, pageSize, events, answers);
    }
  }

  lemma {:induction false} PresentNeverCrashes(s: State, pageSize: nat, events: seq<Event>, answers: seq<FetchResult>)
    requires pageSize <= |s.queue| && Supplies(answers, pageSize)
    ensures Present(s, pageSize, events, answers).outcome != Crashed
    decreases |events|, 1
  {
    PresentShowsFront(s, pageSize, events, answers);
    AwaitNeverCrashes(State(s.queue[pageSize..], s.queue[..pageSize]), pageSize, events, answers);
  }

  lemma {:induction false} AwaitNeverCrashes(s: State, pageSize: nat, events: seq<Event>, answers: seq<FetchResult>)
    requires |s.current| == pageSize && Supplies(answers, pageSize)
    ensures Await(s, pageSize, events, answers).outcome != Crashed
    decreases |events|, 0
  {
    if events != [] {
      match events[0]
      case Interrupt =>
      case Line(text) =>
        match Choose(text, pageSize)
        case Advance => CycleNeverCrashes(s, pageSize, events[1..], answers);
        case Open(k) => AwaitNeverCrashes(s, pageSize, events[1..], answers);
        case Quit =>
        case Reject => AwaitNeverCrashes(s, pageSize, events[1..], answers);
    }
  }

  /** Answers of the requested ten articles never let a run crash, whatever
      page size the options chose. */
  lemma FullAnswersNeverCrash(s: State, pageSize: nat, events: seq<Event>, answers: seq<FetchResult>)
    requires pageSize <= MAX_PAGE_SIZE
    requires forall i :: 0 <= i < |answers| && answers[i].Fetched? ==> |answers[i].articles| == RANDOM_BATCH_SIZE
    ensures Cycle(s, pageSize, events, answers).outcome != Crashed
  {
    FullAnswersSupply(answers, pageSize);
    CycleNeverCrashes(s, pageSize, events, answers);
  }

  /** An answer shorter than a page is harmless when the queue left over
      makes up the difference: one queued article and an answer of two give a
      page of three. */
  lemma ShortAnswerCompletesPage(a: Article, b: Article, c: Article, events: seq<Event>)
    ensures !Supplies([Fetched([b, c])], 3)
    ensures Cycle(State([a], []), 3, events, [Fetched([b, c])]).outcome != Crashed
  {
    assert [Fetched([b, c])][0].articles == [b, c];
    ShortCycleFetches(State([a], []), 3, events, [Fetched([b, c])]);
    PresentNeverCrashes(State([a] + [b, c], []), 3, events, []);
  }

  /** An answer that leaves the queue short of a page crashes the run: with an
      empty queue and an answer of two for a page of three, both entries are
      printed, then the IndexError stops the program. */
  lemma ShortAnswerCrashes(b: Article, c: Article, events: seq<Event>)
    ensures Cycle(State([], []), 3, events, [Fetched([b, c])])
         == RunResult(Crashed, [Print("[0] " + b.title), Print("[1] " + c.title)], State([], [b, c]), [[b, c]], 1)
  {
    ShortCycleFetches(State([], []), 3, events, [Fetched([b, c])]);
    assert [] + [b, c] == [b, c];
    PresentCrashes(State([b, c], []), 3, events, []);
    assert NatToString(0) == "0" && NatToString(1) == "1";
    assert Entry(0, b.title) == "[0] " + b.title && Entry(1, c.title) == "[1] " + c.title;
    assert Listing([b, c]) == [Print("[0] " + b.title), Print("[1] " + c.title)];
  }

  /** A whole run from the start state: every article shown or still queued
      came from the answers, in the order they were delivered. */
  lemma RunIsFifo(pageSize: nat, events: seq<Event>, answers: seq<FetchResult>)
    ensures var r := Cycle(State([], []), pageSize, events, answers);
      Flatten(r.batches) + r.final.queue == Delivered(answers[..r.used])
  {
    CycleAccounts(State([], []), pageSize, events, answers);
  }

  /** The example session: page size 1, one answer holding article 42, the
      user types "0" and then "exit". */
  lemma ExampleSession()
    ensures var a := Article(42, "Test Article");
      Cycle(State([], []), 1, [Line("0"), Line(EXIT_COMMAND)], [Fetched([a])])
      == RunResult(Exited(EXIT_OK),
             [Print("[0] Test Article"), Prompt(FIRST_PROMPT),
              OpenTab("http://en.wikipedia.org/wiki?curid=42"), Prompt(REPEAT_PROMPT)],
             State([], [a]), [[a]], 1)
  {
    var a := Article(42, "Test Article");
    var shown := State([], [a]);
    var events: seq<Event> := [Line("0"), Line(EXIT_COMMAND)];
    var url := "http://en.wikipedia.org/wiki?curid=42";
    var leaving := Await(shown, 1, [Line(EXIT_COMMAND)], []);
    var waiting := Await(shown, 1, events, []);
    ExampleExit(a);
    ExamplePick(a);
    assert waiting == Emit([OpenTab(url), Prompt(REPEAT_PROMPT)], leaving);
    ExampleListing(a);
    PresentShowsFront(State([a], []), 1, events, []);
    assert [a][..1] == [a] && [a][1..] == [];
    assert Present(State([a], []), 1, events, [])
        == Shows([a], Emit([Print("[0] Test Article"), Prompt(FIRST_PROMPT)], waiting));
    ShortCycleFetches(State([], []), 1, events, [Fetched([a])]);
    assert [] + [a] == [a] && [Fetched([a])][1..] == [];
  }

  lemma ExampleExit(a: Article)
    ensures Await(State([], [a]), 1, [Line(EXIT_COMMAND)], []) == Stop(Exited(EXIT_OK), [], State([], [a]))
  {
    ExitEndsRun(State([], [a]), 1, [], []);
    assert [Line(EXIT_COMMAND)] + [] == [Line(EXIT_COMMAND)];
  }

  lemma ExamplePick(a: Article)
    requires a.id == 42
    ensures Await(State([], [a]), 1, [Line("0"), Line(EXIT_COMMAND)], [])
         == Emit([OpenTab("http://en.wikipedia.org/wiki?curid=42"), Prompt(REPEAT_PROMPT)],
                 Await(State([], [a]), 1, [Line(EXIT_COMMAND)], []))
  {
    assert NatToString(0) == "0";
    assert NatToString(42) == "42" by {
      assert NatToString(4) == "4";
    }
    assert ArticleUrl(a) == "http://en.wikipedia.org/wiki?curid=42";
    ListedIndexOpensArticle(State([], [a]), 1, 0, [Line(EXIT_COMMAND)], []);
    assert [Line("0"), Line(EXIT_COMMAND)] == [Line(NatToString(0))] + [Line(EXIT_COMMAND)];
  }

  lemma ExampleListing(a: Article)
    requires a.title == "Test Article"
    ensures Listing([a]) + [Prompt(FIRST_PROMPT)] == [Print("[0] Test Article"), Prompt(FIRST_PROMPT)]
  {
    assert NatToString(0) == "0";
    assert Entry(0, a.title) == "[0] Test Article";
    assert Listing([a]) == [Print("[0] Test Article")];
  }
}
