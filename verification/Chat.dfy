/**
 * The interactive loop of the client: read a line, strip it, stop on `quit`,
 * otherwise run the query and print its response, or the error it raised.
 * The lines typed at the prompt are a finite sequence; the end of that
 * sequence is the end of input.
 */
module Chat {
  import opened Text
  import opened Client
  import opened Conversation

  /** What one pass of the loop prints. */
  datatype Event =
    | Answer(text: string)      // "\n" followed by the response
    | Failure(cause: Outcome)   // the error report after `process_query` raised
    | InputFailure              // the error report after reading the prompt raised

  /** What stays fixed for a whole session: the server's tools and the collaborators. */
  datatype Session = Session(descriptors: seq<ToolDescriptor>, gateway: Gateway, invoke: Invoker,
                             render: Renderer, fuel: nat)

  /** One query of the session. */
  function Query(s: Session, query: string): Run
  {
    Process(query, s.descriptors, s.gateway, s.invoke, s.render, s.fuel)
  }

  /** What the loop prints for a query's run: the response, or an error report. */
  function EventOf(run: Run): Event
  {
    if run.outcome.Done? then Answer("\n" + Response(run.outcome)) else Failure(run.outcome)
  }

  /** How the session reacts to one stripped line that is not `quit`. */
  function Reaction(s: Session): string -> Event
  {
    query => EventOf(Query(s, query))
  }

  /** One pass of the loop at input position `pos`: stop, or print and go on at `next`. */
  datatype Pass = Stop | Continue(event: Event, next: nat)

  /** One pass of the loop; at the end of input it stops. */
  function Step(react: string -> Event, lines: seq<string>, pos: nat): (r: Pass)
    requires pos <= |lines|
    ensures r.Continue? ==> pos < r.next <= |lines|
    ensures r.Stop? <==> pos == |lines| || IsQuit(Strip(lines[pos]))
  {
    if pos == |lines| then Stop
    else if IsQuit(Strip(lines[pos])) then Stop
    else Continue(react(Strip(lines[pos])), pos + 1)
  }

  /** Everything the loop prints from input position `pos` until it stops. */
  function Events(react: string -> Event, lines: seq<string>, pos: nat): seq<Event>
    requires pos <= |lines|
    decreases |lines| - pos
  {
    match Step(react, lines, pos)
    case Stop => []
    case Continue(e, next) => [e] + Events(react, lines, next)
  }

  /** The position of the first `quit` line at or after `pos`, or the end of input. */
  function QuitFrom(lines: seq<string>, pos: nat): (k: nat)
    requires pos <= |lines|
    ensures pos <= k <= |lines|
    ensures forall i :: pos <= i < k ==> !IsQuit(Strip(lines[i]))
    ensures k < |lines| ==> IsQuit(Strip(lines[k]))
    decreases |lines| - pos
  {
    if pos == |lines| || IsQuit(Strip(lines[pos])) then pos else QuitFrom(lines, pos + 1)
  }

  /**
   * The loop answers every line before the first `quit`, in order, each with
   * its reaction to that stripped line, and nothing after it: no line after
   * `quit` is sent as a query.
   */
  lemma {:induction false} EventsSpec(react: string -> Event, lines: seq<string>, pos: nat)
    requires pos <= |lines|
    ensures |Events(react, lines, pos)| == QuitFrom(lines, pos) - pos
    ensures forall i :: 0 <= i < |Events(react, lines, pos)| ==>
              Events(react, lines, pos)[i] == react(Strip(lines[pos + i]))
    decreases |lines| - pos
  {
    if pos < |lines| && !IsQuit(Strip(lines[pos])) {
      EventsSpec(react, lines, pos + 1);
      var rest := Events(react, lines, pos + 1);
      assert Events(react, lines, pos) == [react(Strip(lines[pos]))] + rest;
      forall i | 0 < i < |Events(react, lines, pos)|
        ensures Events(react, lines, pos)[i] == react(Strip(lines[pos + i]))
      {
        assert Events(react, lines, pos)[i] == rest[i - 1];
      }
    }
  }

  /** A `quit` line, in any letter case and with any surrounding blanks, ends the session at once. */
  lemma QuitEndsSession(react: string -> Event, lines: seq<string>, pos: nat, lead: string, trail: string)
    requires pos < |lines| && AllSpace(lead) && AllSpace(trail)
    requires lines[pos] == lead + "QUIT" + trail || lines[pos] == lead + "quit" + trail
    ensures Events(react, lines, pos) == []
  {
    IsQuitSpellings("QUIT");
    IsQuitSpellings("quit");
    if lines[pos] == lead + "QUIT" + trail {
      QuitIgnoresSpace(lead, "QUIT", trail);
    } else {
      QuitIgnoresSpace(lead, "quit", trail);
    }
  }

  /** `chat_loop`: read, strip, test for `quit`, run the query, report. */
  method ChatLoop(s: Session, lines: seq<string>) returns (events: seq<Event>)
    ensures events == Events(Reaction(s), lines, 0)
  {
    events := [];
    var pos := 0;
    while pos < |lines|
      invariant pos <= |lines|
      invariant events + Events(Reaction(s), lines, pos) == Events(Reaction(s), lines, 0)
      decreases |lines| - pos
    {
      var query := Strip(lines[pos]);
      if IsQuit(query) {
        break;
      }
      var event := Respond(s, query);
      assert Events(Reaction(s), lines, pos) == [event] + Events(Reaction(s), lines, pos + 1);
      assert events + [event] + Events(Reaction(s), lines, pos + 1) == events + Events(Reaction(s), lines, pos);
      events := events + [event];
      pos := pos + 1;
    }
    assert Events(Reaction(s), lines, pos) == [];
    assert events + [] == events;
  }

  /** One query at the prompt: run it, then print its response, or report its error. */
  method Respond(s: Session, query: string) returns (event: Event)
    ensures event == Reaction(s)(query)
  {
    var run, response := ProcessQuery(query, s.descriptors, s.gateway, s.invoke, s.render, s.fuel);
    if run.outcome.Done? {
      event := Answer("\n" + response);
    } else {
      event := Failure(run.outcome);
    }
  }

  // ---------------------------------------------------------------------------
  // The end of input, as the loop is written

  /**
   * One pass of the loop as written: at the end of input, reading the prompt
   * raises, the handler for every exception reports it, and the loop reads
   * again from the same place.
   */
  function StepAsWritten(react: string -> Event, lines: seq<string>, pos: nat): Pass
    requires pos <= |lines|
  {
    if pos == |lines| then Continue(InputFailure, pos)
    else Step(react, lines, pos)
  }

  /** What the loop as written prints in its first `n` passes from `pos`. */
  function PassesAsWritten(react: string -> Event, lines: seq<string>, pos: nat, n: nat): seq<Event>
    requires pos <= |lines|
    decreases n
  {
    if n == 0 then []
    else
      match StepAsWritten(react, lines, pos)
      case Stop => []
      case Continue(e, next) => if next <= |lines| then [e] + PassesAsWritten(react, lines, next, n - 1) else []
  }

  /**
   * At the end of input the loop as written never stops: every one of its next
   * `n` passes, for any `n`, reports an input error.
   */
  lemma {:induction false} EndOfInputAsWritten(react: string -> Event, lines: seq<string>, n: nat)
    ensures |PassesAsWritten(react, lines, |lines|, n)| == n
    ensures forall i :: 0 <= i < n ==> PassesAsWritten(react, lines, |lines|, n)[i] == InputFailure
  {
    if n > 0 {
      EndOfInputAsWritten(react, lines, n - 1);
      var rest := PassesAsWritten(react, lines, |lines|, n - 1);
      assert PassesAsWritten(react, lines, |lines|, n) == [InputFailure] + rest;
    }
  }

  /** With the end of input ending the session, every session ends, after at most one pass per line. */
  lemma {:induction false} EventsBounded(react: string -> Event, lines: seq<string>, pos: nat)
    requires pos <= |lines|
    ensures |Events(react, lines, pos)| <= |lines| - pos
    ensures Events(react, lines, |lines|) == []
    decreases |lines| - pos
  {
    if Step(react, lines, pos).Continue? {
      EventsBounded(react, lines, pos + 1);
    }
  }
}
