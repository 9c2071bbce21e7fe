/** The program's mutable state (the global `queue`, the batch `current` and
    the page size) and the imperative loop of `offerArticles` over it. */
module Sessions {
  import opened Numbers
  import opened Articles
  import opened Offer
  import opened OfferFacts

  class Session {
    /** Articles fetched and not yet displayed, oldest first. */
    var queue: seq<Article>
    /** The batch on display. */
    var current: seq<Article>
    /** `articles_to_show`, fixed once the loop starts. */
    const pageSize: nat

    /** The module-level start state: an empty queue and nothing on display. */
    constructor (size: nat)
      requires 1 <= size <= MAX_PAGE_SIZE
      ensures queue == [] && current == [] && pageSize == size
    {
      queue, current := [], [];
      pageSize := size;
    }

    function Snapshot(): State
      reads this
    {
      State(queue, current)
    }

    /** `call_Wikipedia`: a successful answer is appended to the back of the
        queue; a failed one leaves the queue alone and its cause is printed. */
    method Fill(answer: FetchResult) returns (ok: bool, said: seq<Output>)
      modifies this`queue
      ensures ok <==> answer.Fetched?
      ensures ok ==> queue == old(queue) + answer.articles && said == []
      ensures !ok ==> queue == old(queue) && said == [Print(answer.cause)]
    {
      match answer
      case Fetched(articles) =>
        queue := queue + articles;
        ok, said := true, [];
      case FetchFailed(cause) =>
        ok, said := false, [Print(cause)];
    }

    /** Cut the next batch off the front of the queue; a queue shorter than
        a page is taken whole, as Python's slices do. */
    method TakeBatch()
      modifies this`queue, this`current
      ensures current + queue == old(queue)
      ensures |current| == if pageSize <= |old(queue)| then pageSize else |old(queue)|
      ensures (current, queue) == Split(old(queue), pageSize)
    {
      var cut := if pageSize <= |queue| then pageSize else |queue|;
      current := queue[..cut];
      queue := queue[cut..];
    }

    /** Print the numbered line of entries 0 to pageSize - 1 of the batch on
        display. On a short batch the entry after the last one does not
        exist: `complete` is false where the program raises IndexError. */
    method Render() returns (lines: seq<Output>, complete: bool)
      requires |current| <= pageSize
      ensures lines == Listing(current)
      ensures complete <==> |current| == pageSize
    {
      lines := [];
      for i := 0 to pageSize
        invariant i <= |current|
        invariant |lines| == i
        invariant forall k :: 0 <= k < i ==> lines[k] == Print(Entry(k, current[k].title))
      {
        if i == |current| {
          return lines, false;
        }
        lines := lines + [Print(Entry(i, current[i].title))];
      }
      return lines, true;
    }

    /** The body of the inner loop for one non-empty line `text`, followed
        by the events `rest`: open the chosen article, leave on "exit", or
        report an invalid option. */
    method Answer(text: string, ghost rest: seq<Event>, ghost answers: seq<FetchResult>)
      returns (quit: bool, said: seq<Output>)
      requires |current| == pageSize && text != ""
      ensures quit <==> text == EXIT_COMMAND
      ensures quit ==> Await(Snapshot(), pageSize, [Line(text)] + rest, answers) == Stop(Exited(EXIT_OK), said, Snapshot())
      ensures !quit ==>
        Await(Snapshot(), pageSize, [Line(text)] + rest, answers) == Emit(said, Await(Snapshot(), pageSize, rest, answers))
    {
      if AppropriateNumber(text, 0, pageSize) {
        SelectionOpensArticle(Snapshot(), pageSize, text, rest, answers);
        var choice := ParseInt(text).value;
        return false, [OpenTab(ArticleUrl(current[choice])), Prompt(REPEAT_PROMPT)];
      } else if text == EXIT_COMMAND {
        ExitEndsRun(Snapshot(), pageSize, rest, answers);
        return true, [];
      } else {
        InvalidLineChangesNothing(Snapshot(), pageSize, text, rest, answers);
        return false, [Print(INVALID_OPTION), Prompt(REPEAT_PROMPT)];
      }
    }

    /** The inner `while user_input` loop of `offerArticles`: answer the
        events from `events[0]` on, with `current` on display, until an empty
        line (`ended` false, `next` is the index after it) or the end of the
        run (`ended` true). */
    method Converse(events: seq<Event>, ghost answers: seq<FetchResult>)
      returns (ended: bool, next: nat, outcome: Outcome, trace: seq<Output>)
      requires |current| == pageSize
      ensures var r := Await(Snapshot(), pageSize, events, answers);
        ended ==> outcome == r.outcome && trace == r.trace && Snapshot() == r.final
      ensures var r := Await(Snapshot(), pageSize, events, answers);
        !ended ==> (0 < next <= |events| && Continues(r, trace, Cycle(Snapshot(), pageSize, events[next..], answers)))
    {
      ghost var shown := Snapshot();
      ghost var goal := Await(shown, pageSize, events, answers);
      trace := [];
      if |events| == 0 {
        AwaitOutOfInput(shown, pageSize, answers);
        return true, 0, Suspended, trace;
      }
      var event := events[0];
      var i := 1;
      while event.Line? && event.text != ""
        invariant 1 <= i <= |events| && event == events[i - 1]
        invariant Continues(goal, trace, Await(shown, pageSize, events[i - 1..], answers))
        decreases |events| - i
      {
        assert events[i - 1..] == [event] + events[i..];
        var quit, said := Answer(event.text, events[i..], answers);
        ContinuesTransitive(goal, trace, Await(shown, pageSize, events[i - 1..], answers), said);
        trace := trace + said;
        if quit {
          return true, i, Exited(EXIT_OK), trace;
        }
        if i == |events| {
          AwaitOutOfInput(shown, pageSize, answers);
          return true, i, Suspended, trace;
        }
        event := events[i];
        i := i + 1;
      }
      LeaveConversation(shown, pageSize, event, events[i..], answers);
      assert events[i - 1..] == [event] + events[i..];
      if event.Interrupt? {
        return true, i, Exited(EXIT_OK), trace + [Print(INTERRUPT_ECHO)];
      }
      return false, i, Suspended, trace;
    }

    /** The head of the outer `while True` loop: when the queue is short,
        refill it from `answers[0]`; a failed fetch ends the run (`ended`). */
    method Replenish(events: seq<Event>, answers: seq<FetchResult>)
      returns (ended: bool, used: nat, outcome: Outcome, trace: seq<Output>)
      modifies this`queue
      ensures used <= 1 && (used == 1 <==> NeedsFetch(old(queue), pageSize) && answers != [])
      ensures !NeedsFetch(old(queue), pageSize) ==> !ended && queue == old(queue)
      ensures !ended && used == 1 ==> answers[0].Fetched? && queue == old(queue) + answers[0].articles
      ensures var r := Cycle(old(Snapshot()), pageSize, events, answers);
        ended ==> outcome == r.outcome && trace == r.trace && Snapshot() == r.final
      ensures var r := Cycle(old(Snapshot()), pageSize, events, answers);
        !ended ==> (used <= |answers|
                    && Continues(r, trace, Present(Snapshot(), pageSize, events, answers[used..])))
    {
      if NeedsFetch(queue, pageSize) {
        if |answers| == 0 {
          return true, 0, Suspended, [];
        }
        if answers[0].FetchFailed? {
          FailedFetchExits(Snapshot(), pageSize, events, answers);
        } else {
          ShortCycleFetches(Snapshot(), pageSize, events, answers);
        }
        var ok, said := Fill(answers[0]);
        if !ok {
          return true, 1, Exited(EXIT_FETCH_FAILED), said + [Print(FETCH_FAILED)];
        }
        return false, 1, Suspended, said;
      }
      StockedCycleSkipsFetch(Snapshot(), pageSize, events, answers);
      return false, 0, Suspended, [];
    }

    /** The body of the outer loop after the refill: cut a batch off the
        queue, print it and the first prompt, and converse until an empty line
        (`ended` false; `next` events were consumed) or the end of the run
        (`ended` true), which is the crash when the batch is short. */
    method Show(events: seq<Event>, ghost answers: seq<FetchResult>)
      returns (ended: bool, next: nat, outcome: Outcome, trace: seq<Output>)
      modifies this`queue, this`current
      ensures (current, queue) == Split(old(queue), pageSize)
      ensures var r := Present(old(Snapshot()), pageSize, events, answers);
        ended ==> outcome == r.outcome && trace == r.trace && Snapshot() == r.final
      ensures var r := Present(old(Snapshot()), pageSize, events, answers);
        !ended ==> (0 < next <= |events| && Continues(r, trace, Cycle(Snapshot(), pageSize, events[next..], answers)))
    {
      ghost var top := Present(Snapshot(), pageSize, events, answers);
      if |queue| < pageSize {
        PresentCrashes(Snapshot(), pageSize, events, answers);
      } else {
        PresentShowsFront(Snapshot(), pageSize, events, answers);
      }
      TakeBatch();
      var listing, complete := Render();
      if !complete {
        return true, 0, Crashed, listing;
      }
      trace := listing + [Prompt(FIRST_PROMPT)];
      ghost var waiting := Await(Snapshot(), pageSize, events, answers);
      assert Continues(top, trace, waiting);
      var said;
      ended, next, outcome, said := Converse(events, answers);
      ContinuesTransitive(top, trace, waiting, said);
      trace := trace + said;
    }

    /** One pass of the outer `while True` loop of `offerArticles`: refill
        the queue if it is short, then show a batch and converse until an
        empty line (`ended` false; `next` events and `used` answers were
        consumed) or the end of the run (`ended` true). */
    method Round(events: seq<Event>, answers: seq<FetchResult>)
      returns (ended: bool, next: nat, used: nat, outcome: Outcome, trace: seq<Output>)
      modifies this`queue, this`current
      ensures !ended ==> used <= |answers| && (current, queue) == Split(old(queue) + Delivered(answers[..used]), pageSize)
      ensures var r := Cycle(old(Snapshot()), pageSize, events, answers);
        ended ==> outcome == r.outcome && trace == r.trace && Snapshot() == r.final
      ensures var r := Cycle(old(Snapshot()), pageSize, events, answers);
        !ended ==> (0 < next <= |events| && used <= |answers|
                    && Continues(r, trace, Cycle(Snapshot(), pageSize, events[next..], answers[used..])))
    {
      ghost var top := Cycle(Snapshot(), pageSize, events, answers);
      ghost var before := queue;
      ended, used, outcome, trace := Replenish(events, answers);
      if ended {
        return ended, 0, used, outcome, trace;
      }
      if used == 1 {
        assert answers[..1][1..] == [] && answers[..1][0] == answers[0];
        assert Delivered(answers[..1]) == answers[0].articles;
      } else {
        assert answers[..0] == [];
      }
      assert queue == before + Delivered(answers[..used]);
      ghost var present := Present(Snapshot(), pageSize, events, answers[used..]);
      var said;
      ended, next, outcome, said := Show(events, answers[used..]);
      ContinuesTransitive(top, trace, present, said);
      trace := trace + said;
    }

    /** `offerArticles`: consume the events, fetching from `answers` when the
        queue runs short, until the user leaves, a fetch fails, or the
        events or answers run out. */
    method Run(events: seq<Event>, answers: seq<FetchResult>) returns (outcome: Outcome, trace: seq<Output>)
      modifies this`queue, this`current
      ensures var r := Cycle(old(Snapshot()), pageSize, events, answers);
        outcome == r.outcome && trace == r.trace && Snapshot() == r.final
    {
      ghost var goal := Cycle(Snapshot(), pageSize, events, answers);
      var i, j := 0, 0;
      trace := [];
      while true
        invariant i <= |events| && j <= |answers|
        invariant Continues(goal, trace, Cycle(Snapshot(), pageSize, events[i..], answers[j..]))
        decreases |events| - i
      {
        ghost var top := Cycle(Snapshot(), pageSize, events[i..], answers[j..]);
        var ended, next, used, said;
        ended, next, used, outcome, said := Round(events[i..], answers[j..]);
        ContinuesTransitive(goal, trace, top, said);
        trace := trace + said;
        if ended {
          return;
        }
        assert events[i..][next..] == events[i + next..];
        assert answers[j..][used..] == answers[j + used..];
        i, j := i + next, j + used;
      }
    }
  }
}
