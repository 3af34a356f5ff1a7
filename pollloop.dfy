/** One iteration of the bot's `while True` loop in `main`, with the network,
    the clock and the chat API turned into inputs: fetch the answer, check it,
    extract the newest homework's text, notify on a change, report a failure
    unless it repeats the last report, and move the polling cursor. */
module PollLoop {
  import opened Wrappers
  import opened JsonValues
  import opened PyRuntime
  import opened Homework

  const TimestampFormatMessage := "формат current_timestamp не чило"
  const ErrorPrefix := "Сбой в работе программы: "

  /** The loop's variables: `current_timestamp`, `old_status`, `old_message`. */
  datatype State = State(cursor: Json, oldStatus: string, oldMessage: string)

  /** The outcome of `get_api_answer`: the exception it raised, or the body. */
  datatype Fetch = FetchFailed(error: PyError) | Fetched(body: Json)

  /** What the outside world contributes to one cycle: the fetch outcome,
      `int(time.time())` as read at line 111, and the exception, if any,
      that `send_message` raises when asked to send a status. */
  datatype Input = Input(fetch: Fetch, now: int, sendFailure: Option<PyError>)

  /** A call to the chat API: a status notification or a failure report. */
  datatype Call = StatusCall(text: string) | ErrorCall(text: string)

  datatype Cycle = Cycle(next: State, calls: seq<Call>)

  /** How far lines 108-115 of a cycle get, apart from the comparison with
      `old_status`: `responseTime` is the value line 111 assigned, when it
      completed. */
  datatype Progress =
    | Raised(responseTime: Option<Json>, error: PyError)
    | NoHomework(responseTime: Option<Json>)
    | Parsed(responseTime: Option<Json>, message: string)

  /** The state main enters its loop with (lines 102-104). */
  function Initial(now: int): State {
    State(JInt(now), "", "")
  }

  /** The text reported for a caught exception (line 123): the fixed prefix,
      then the exception's text. */
  function ErrorReport(e: PyError): string {
    ErrorPrefix + ErrorText(e)
  }

  /** Two `KeyError`s with different arguments are reported with different
      texts, so neither silences the other. */
  lemma {:induction false} KeyErrorReportsDistinct(a: string, b: string)
    requires ErrorReport(KeyError(a)) == ErrorReport(KeyError(b))
    ensures a == b
  {
    assert ErrorText(KeyError(a)) == ErrorReport(KeyError(a))[|ErrorPrefix|..];
    StrReprInjective(a, b);
  }

  /** Lines 108-115: check the cursor, take the fetch outcome, read
      `current_date` (before the answer is validated), validate, and parse
      the first homework if there is one. */
  function Attempt(cursor: Json, input: Input): (st: Progress)
    // the guards in the order the source meets them
    ensures !IsInt(cursor) ==> st == Raised(None, ErorrAPI(TimestampFormatMessage))
    ensures IsInt(cursor) && input.fetch.FetchFailed? ==> st == Raised(None, input.fetch.error)
    ensures IsInt(cursor) && input.fetch.Fetched? && GetItem(input.fetch.body, "current_date").Failure? ==>
              st == Raised(None, GetItem(input.fetch.body, "current_date").error)
    ensures st.responseTime.Some? && CheckResponse(input.fetch.body).Failure? ==>
              st == Raised(st.responseTime, CheckResponse(input.fetch.body).error)
    ensures st.responseTime.Some? && CheckResponse(input.fetch.body).Success? ==>
              var homeworks := CheckResponse(input.fetch.body).value;
              && (homeworks == [] <==> st.NoHomework?)
              && (homeworks != [] && ParseStatus(homeworks[0]).Failure? ==>
                    st == Raised(st.responseTime, ParseStatus(homeworks[0]).error))
              && (homeworks != [] && ParseStatus(homeworks[0]).Success? ==>
                    st == Parsed(st.responseTime, ParseStatus(homeworks[0]).value))
    // how far line 111 got
    ensures st.responseTime.Some? <==>
              && IsInt(cursor)
              && input.fetch.Fetched?
              && input.fetch.body.JObject?
              && "current_date" in input.fetch.body.fields
    ensures st.responseTime.Some? ==>
              var date := input.fetch.body.fields["current_date"];
              st.responseTime.value == if Truthy(date) then date else JInt(input.now)
    ensures !st.Raised? ==> st.responseTime.Some?
    ensures st.NoHomework? ==> input.fetch.Fetched? && CheckResponse(input.fetch.body) == Success([])
    ensures st.Parsed? ==>
              && input.fetch.Fetched?
              && var homeworks := CheckResponse(input.fetch.body);
              && homeworks.Success? && homeworks.value != []
              && ParseStatus(homeworks.value[0]) == Success(st.message)
  {
    if !IsInt(cursor) then Raised(None, ErorrAPI(TimestampFormatMessage))
    else
      match input.fetch
      case FetchFailed(e) => Raised(None, e)
      case Fetched(body) =>
        match GetItem(body, "current_date")
        case Failure(e) => Raised(None, e)
        case Success(date) =>
          var responseTime := Some(if Truthy(date) then date else JInt(input.now));
          match CheckResponse(body)
          case Failure(e) => Raised(responseTime, e)
          case Success(homeworks) =>
            if |homeworks| == 0 then NoHomework(responseTime)
            else
              match ParseStatus(homeworks[0])
              case Failure(e) => Raised(responseTime, e)
              case Success(message) => Parsed(responseTime, message)
  }

  /** At most one status call and one failure report, the status first. */
  predicate WellOrdered(calls: seq<Call>) {
    |calls| <= 1 || (|calls| == 2 && calls[0].StatusCall? && calls[1].ErrorCall?)
  }

  /** One whole cycle, the `finally` included. */
  function Step(s: State, input: Input): (c: Cycle)
    ensures WellOrdered(c.calls)
    // a status is sent only when it differs from the remembered one, and
    // whatever is sent is remembered; the memory changes only by sending
    ensures forall k :: 0 <= k < |c.calls| && c.calls[k].StatusCall? ==>
              c.calls[k].text != s.oldStatus && c.calls[k].text == c.next.oldStatus
    ensures c.next.oldStatus != s.oldStatus ==> StatusCall(c.next.oldStatus) in c.calls
    // the same for failure reports and the last reported text
    ensures forall k :: 0 <= k < |c.calls| && c.calls[k].ErrorCall? ==>
              c.calls[k].text != s.oldMessage && c.calls[k].text == c.next.oldMessage
    ensures c.next.oldMessage != s.oldMessage ==> ErrorCall(c.next.oldMessage) in c.calls
    // the cursor takes the value of line 111 when that line completed
    ensures c.next.cursor == Attempt(s.cursor, input).responseTime.GetOr(s.cursor)
  {
    var st := Attempt(s.cursor, input);
    var n := Notify(st, s.oldStatus, input.sendFailure);
    var r := Report(n.raised, s.oldMessage);
    Cycle(State(st.responseTime.GetOr(s.cursor), n.oldStatus, r.oldMessage), n.calls + r.calls)
  }

  /** What the end of the `try` block leaves: the remembered status, the
      status call made and the exception that escaped the block. */
  datatype Notified = Notified(oldStatus: string, calls: seq<Call>, raised: Option<PyError>)

  /** Lines 116-118: a new status is remembered before `send_message` is
      called, so a failing send still leaves it remembered. */
  function Notify(st: Progress, oldStatus: string, sendFailure: Option<PyError>): (n: Notified)
    ensures n.calls != [] <==> st.Parsed? && st.message != oldStatus
    ensures n.calls != [] ==>
              n.oldStatus == st.message && n.calls == [StatusCall(n.oldStatus)] && n.raised == sendFailure
    ensures n.calls == [] ==> n.oldStatus == oldStatus && n.raised == (if st.Raised? then Some(st.error) else None)
  {
    if st.Parsed? && st.message != oldStatus then Notified(st.message, [StatusCall(st.message)], sendFailure)
    else Notified(oldStatus, [], if st.Raised? then Some(st.error) else None)
  }

  /** What the `except` clause leaves: the last reported text and the
      report call made. */
  datatype Reported = Reported(oldMessage: string, calls: seq<Call>)

  /** Lines 122-127: report a caught exception unless its text repeats the
      last report. */
  function Report(raised: Option<PyError>, oldMessage: string): (r: Reported)
    ensures r.calls != [] <==> raised.Some? && ErrorReport(raised.value) != oldMessage
    ensures r.calls != [] ==> r.calls == [ErrorCall(r.oldMessage)] && r.oldMessage == ErrorReport(raised.value)
    ensures r.calls == [] ==> r.oldMessage == oldMessage
  {
    if raised.Some? && ErrorReport(raised.value) != oldMessage then
      Reported(ErrorReport(raised.value), [ErrorCall(ErrorReport(raised.value))])
    else Reported(oldMessage, [])
  }

  /** Cycles run one after another over a finite stretch of inputs. */
  function Run(s: State, trace: seq<Input>): (c: Cycle)
    ensures trace == [] ==> c == Cycle(s, [])
    ensures |c.calls| <= 2 * |trace|
    decreases |trace|
  {
    if trace == [] then Cycle(s, [])
    else
      var before := Run(s, trace[..|trace| - 1]);
      var last := Step(before.next, trace[|trace| - 1]);
      Cycle(last.next, before.calls + last.calls)
  }

  /** Running two stretches of inputs one after the other is running their
      concatenation: the second starts from the state the first ends in, and
      the calls follow each other. */
  lemma {:induction false} RunConcat(s: State, t1: seq<Input>, t2: seq<Input>)
    ensures var a := Run(s, t1);
            var b := Run(a.next, t2);
            Run(s, t1 + t2) == Cycle(b.next, a.calls + b.calls)
    decreases |t2|
  {
    if t2 == [] {
      assert t1 + t2 == t1;
    } else {
      var init, x := t2[..|t2| - 1], t2[|t2| - 1];
      SplitLast(t1, t2);
      RunConcat(s, t1, init);
      RunConcatLast(s, t1, init, x);
    }
  }

  lemma SplitLast(t1: seq<Input>, t2: seq<Input>)
    requires t2 != []
    ensures t2 == t2[..|t2| - 1] + [t2[|t2| - 1]]
    ensures t1 + t2 == (t1 + t2[..|t2| - 1]) + [t2[|t2| - 1]]
  {
  }

  /** The induction step of RunConcat: one more input at the end. */
  lemma RunConcatLast(s: State, t1: seq<Input>, t2: seq<Input>, x: Input)
    requires Run(s, t1 + t2) == Cycle(Run(Run(s, t1).next, t2).next, Run(s, t1).calls + Run(Run(s, t1).next, t2).calls)
    ensures var a := Run(s, t1);
            var b := Run(a.next, t2 + [x]);
            Run(s, (t1 + t2) + [x]) == Cycle(b.next, a.calls + b.calls)
  {
    var a := Run(s, t1);
    RunLast(a.next, t2, x);
    RunLast(s, t1 + t2, x);
    var b := Run(a.next, t2);
    var last := Step(b.next, x);
    AppendAssoc(a.calls, b.calls, last.calls);
  }

  /** The loop invariant of PollAll carried over one more cycle. */
  lemma RunExtends(start: State, trace: seq<Input>, i: nat, pre: State, calls: seq<Call>, post: State, more: seq<Call>)
    requires i < |trace|
    requires Cycle(pre, calls) == Run(start, trace[..i])
    requires Cycle(post, more) == Step(pre, trace[i])
    ensures Cycle(post, calls + more) == Run(start, trace[..i + 1])
  {
    assert trace[..i + 1] == trace[..i] + [trace[i]];
    RunLast(start, trace[..i], trace[i]);
  }

  /** One more input runs one more cycle. */
  lemma RunLast(s: State, t: seq<Input>, x: Input)
    ensures var before := Run(s, t);
            var last := Step(before.next, x);
            Run(s, t + [x]) == Cycle(last.next, before.calls + last.calls)
  {
    assert (t + [x])[..|t|] == t;
  }

  lemma AppendAssoc(a: seq<Call>, b: seq<Call>, c: seq<Call>)
    ensures (a + b) + c == a + (b + c)
  {
  }

  lemma StatusChangeSent(s: State, input: Input)
    requires Attempt(s.cursor, input).Parsed?
    requires Attempt(s.cursor, input).message != s.oldStatus
    ensures var c := Step(s, input);
            var m := Attempt(s.cursor, input).message;
            && c.next.oldStatus == m
            && c.calls[0] == StatusCall(m)
            && (input.sendFailure.None? ==> c.calls == [StatusCall(m)] && c.next.oldMessage == s.oldMessage)
  {
  }

  /** When the send fails, the new status is remembered all the same and the
      send's exception is reported like any other failure. */
  lemma SendFailureReported(s: State, input: Input)
    requires Attempt(s.cursor, input).Parsed?
    requires Attempt(s.cursor, input).message != s.oldStatus
    requires input.sendFailure.Some?
    ensures var c := Step(s, input);
            var m := Attempt(s.cursor, input).message;
            var report := ErrorReport(input.sendFailure.value);
            && c.next.oldStatus == m
            && c.calls == [StatusCall(m)] + (if report != s.oldMessage then [ErrorCall(report)] else [])
            && c.next.oldMessage == (if report != s.oldMessage then report else s.oldMessage)
  {
  }

  /** A status equal to the remembered one is not sent again; only the cursor
      moves. */
  lemma SameStatusSuppressed(s: State, input: Input)
    requires Attempt(s.cursor, input).Parsed?
    requires Attempt(s.cursor, input).message == s.oldStatus
    ensures Step(s, input) == Cycle(s.(cursor := Attempt(s.cursor, input).responseTime.value), [])
  {
  }

  /** An empty `homeworks` list sends nothing and keeps the memory; the
      cursor still advances. */
  lemma EmptyListQuiet(s: State, input: Input)
    requires Attempt(s.cursor, input).NoHomework?
    ensures Step(s, input) == Cycle(s.(cursor := Attempt(s.cursor, input).responseTime.value), [])
  {
  }

  /** A failure is reported once: sent and remembered when its text differs
      from the last report, otherwise nothing is sent. The status memory is
      kept. */
  lemma FailureReportedOnce(s: State, input: Input)
    requires Attempt(s.cursor, input).Raised?
    ensures var c := Step(s, input);
            var report := ErrorReport(Attempt(s.cursor, input).error);
            && c.next.oldStatus == s.oldStatus
            && (report != s.oldMessage ==> c.calls == [ErrorCall(report)] && c.next.oldMessage == report)
            && (report == s.oldMessage ==> c.calls == [] && c.next.oldMessage == s.oldMessage)
  {
  }

  /** The cursor: when the fetch fails (or the cursor is not an integer) it
      keeps its value; once `current_date` has been read it takes that value,
      or `now` if it is falsy, whatever happens later in the cycle. */
  lemma CursorUpdate(s: State, input: Input)
    ensures input.fetch.FetchFailed? ==> Step(s, input).next.cursor == s.cursor
    ensures IsInt(s.cursor) && input.fetch.Fetched? && input.fetch.body.JObject?
            && "current_date" in input.fetch.body.fields ==>
              var date := input.fetch.body.fields["current_date"];
              Step(s, input).next.cursor == if Truthy(date) then date else JInt(input.now)
  {
  }

  /** Two consecutive cycles with the same inputs make at most one status
      call: the second one makes none. */
  lemma RepeatedCycleSendsNoStatus(s: State, input: Input)
    ensures forall k :: 0 <= k < |Step(Step(s, input).next, input).calls| ==>
              !Step(Step(s, input).next, input).calls[k].StatusCall?
  {
    // a second cycle that parses a text got past line 108, so the first did
    // too, with the same body, and remembered that text
  }

  /** The status texts among `calls`, in order. */
  function StatusTexts(calls: seq<Call>): seq<string> {
    if calls == [] then []
    else (if calls[0].StatusCall? then [calls[0].text] else []) + StatusTexts(calls[1..])
  }

  /** The failure reports among `calls`, in order. */
  function ErrorTexts(calls: seq<Call>): seq<string> {
    if calls == [] then []
    else (if calls[0].ErrorCall? then [calls[0].text] else []) + ErrorTexts(calls[1..])
  }

  lemma {:induction false} StatusTextsAppend(a: seq<Call>, b: seq<Call>)
    ensures StatusTexts(a + b) == StatusTexts(a) + StatusTexts(b)
  {
    if a == [] {
      assert a + b == b;
    } else {
      assert (a + b)[0] == a[0];
      assert (a + b)[1..] == a[1..] + b;
      StatusTextsAppend(a[1..], b);
    }
  }

  lemma {:induction false} ErrorTextsAppend(a: seq<Call>, b: seq<Call>)
    ensures ErrorTexts(a + b) == ErrorTexts(a) + ErrorTexts(b)
  {
    if a == [] {
      assert a + b == b;
    } else {
      assert (a + b)[0] == a[0];
      assert (a + b)[1..] == a[1..] + b;
      ErrorTextsAppend(a[1..], b);
    }
  }

  /** `texts` never repeats its predecessor, the first one being `first`. */
  predicate NoRepeats(first: string, texts: seq<string>) {
    && (texts != [] ==> texts[0] != first)
    && forall k :: 0 < k < |texts| ==> texts[k] != texts[k - 1]
  }

  function LastOr(first: string, texts: seq<string>): string {
    if texts == [] then first else texts[|texts| - 1]
  }

  /** One cycle makes at most one status call, whose text differs from the
      remembered status and becomes it. */
  lemma {:induction false} StepStatusTexts(s: State, input: Input)
    ensures var c := Step(s, input);
            && |StatusTexts(c.calls)| <= 1
            && NoRepeats(s.oldStatus, StatusTexts(c.calls))
            && LastOr(s.oldStatus, StatusTexts(c.calls)) == c.next.oldStatus
  {
    var c := Step(s, input);
    var calls := c.calls;
    if |calls| == 2 {
      assert calls == [calls[0]] + [calls[1]];
      StatusTextsAppend([calls[0]], [calls[1]]);
      assert StatusTexts(calls) == [calls[0].text];
    } else if |calls| == 1 {
      assert calls[1..] == [];
      assert calls[0] in calls;
    }
  }

  /** One cycle makes at most one failure report, whose text differs from
      the last report and becomes it. */
  lemma {:induction false} StepReportTexts(s: State, input: Input)
    ensures var c := Step(s, input);
            && |ErrorTexts(c.calls)| <= 1
            && NoRepeats(s.oldMessage, ErrorTexts(c.calls))
            && LastOr(s.oldMessage, ErrorTexts(c.calls)) == c.next.oldMessage
  {
    var c := Step(s, input);
    var calls := c.calls;
    if |calls| == 2 {
      assert calls == [calls[0]] + [calls[1]];
      ErrorTextsAppend([calls[0]], [calls[1]]);
      assert ErrorTexts(calls) == [calls[1].text];
    } else if |calls| == 1 {
      assert calls[1..] == [];
      assert calls[0] in calls;
    }
  }

  /** Over any run, no status notification repeats the one before it (the
      first differs from the status remembered at the start), and the last
      one sent is the status remembered at the end. */
  lemma {:induction false} RunStatusesNeverRepeat(s: State, trace: seq<Input>)
    ensures var c := Run(s, trace);
            && NoRepeats(s.oldStatus, StatusTexts(c.calls))
            && LastOr(s.oldStatus, StatusTexts(c.calls)) == c.next.oldStatus
    decreases |trace|
  {
    if trace != [] {
      var before := Run(s, trace[..|trace| - 1]);
      var last := Step(before.next, trace[|trace| - 1]);
      RunStatusesNeverRepeat(s, trace[..|trace| - 1]);
      StepStatusTexts(before.next, trace[|trace| - 1]);
      StatusTextsAppend(before.calls, last.calls);
      ChainAppend(s.oldStatus, StatusTexts(before.calls), StatusTexts(last.calls));
    }
  }

  /** Over any run, no failure report repeats the one before it, and the
      last one sent is the text remembered at the end. */
  lemma {:induction false} RunReportsNeverRepeat(s: State, trace: seq<Input>)
    ensures var c := Run(s, trace);
            && NoRepeats(s.oldMessage, ErrorTexts(c.calls))
            && LastOr(s.oldMessage, ErrorTexts(c.calls)) == c.next.oldMessage
    decreases |trace|
  {
    if trace != [] {
      var before := Run(s, trace[..|trace| - 1]);
      var last := Step(before.next, trace[|trace| - 1]);
      RunReportsNeverRepeat(s, trace[..|trace| - 1]);
      StepReportTexts(before.next, trace[|trace| - 1]);
      ErrorTextsAppend(before.calls, last.calls);
      ChainAppend(s.oldMessage, ErrorTexts(before.calls), ErrorTexts(last.calls));
    }
  }

  lemma ChainAppend(first: string, a: seq<string>, b: seq<string>)
    requires NoRepeats(first, a) && NoRepeats(LastOr(first, a), b) && |b| <= 1
    ensures NoRepeats(first, a + b)
    ensures b == [] ==> LastOr(first, a + b) == LastOr(first, a)
    ensures b != [] ==> LastOr(first, a + b) == b[0]
  {
  }

  /** The bot's loop variables, updated in place by each cycle. */
  class Bot {
    var cursor: Json
    var oldStatus: string
    var oldMessage: string

    function Snapshot(): State
      reads this
    {
      State(cursor, oldStatus, oldMessage)
    }

    constructor (now: int)
      ensures Snapshot() == Initial(now)
    {
      cursor := JInt(now);
      oldStatus := "";
      oldMessage := "";
    }

    /** One pass of the loop body; returns the calls made to the chat API. */
    method Poll(input: Input) returns (calls: seq<Call>)
      modifies this
      ensures Cycle(Snapshot(), calls) == Step(old(Snapshot()), input)
    {
      var responseTime, raised, statusCalls := TryBlock(input);
      var reportCalls := ReportFailure(raised);
      calls := statusCalls + reportCalls;
      // `finally`
      cursor := responseTime;
    }

    /** Lines 108-120; `responseTime` is what `response_time` holds at the
        end, the previous cycle's value when line 111 did not complete. */
    method TryBlock(input: Input) returns (responseTime: Json, raised: Option<PyError>, calls: seq<Call>)
      modifies this`oldStatus
      ensures var st := Attempt(cursor, input);
              && responseTime == st.responseTime.GetOr(cursor)
              && Notified(oldStatus, calls, raised) == Notify(st, old(oldStatus), input.sendFailure)
    {
      calls := [];
      responseTime := cursor;
      raised := None;
      if !IsInt(cursor) {
        raised := Some(ErorrAPI(TimestampFormatMessage));
      } else if input.fetch.FetchFailed? {
        raised := Some(input.fetch.error);
      } else {
        var body := input.fetch.body;
        var date := GetItem(body, "current_date");
        if date.Failure? {
          raised := Some(date.error);
        } else {
          responseTime := if Truthy(date.value) then date.value else JInt(input.now);
          var homeworks := CheckResponse(body);
          if homeworks.Failure? {
            raised := Some(homeworks.error);
          } else if |homeworks.value| > 0 {
            var status := ParseStatus(homeworks.value[0]);
            if status.Failure? {
              raised := Some(status.error);
            } else if status.value != oldStatus {
              oldStatus := status.value;
              calls := [StatusCall(status.value)];
              raised := input.sendFailure;
            }
          }
        }
      }
    }

    /** Lines 122-127: the `except` clause. */
    method ReportFailure(raised: Option<PyError>) returns (calls: seq<Call>)
      modifies this`oldMessage
      ensures Reported(oldMessage, calls) == Report(raised, old(oldMessage))
    {
      calls := [];
      if raised.Some? {
        var message := ErrorReport(raised.value);
        if message != oldMessage {
          calls := [ErrorCall(message)];
          oldMessage := message;
        }
      }
    }

    /** The loop run over a finite stretch of inputs. */
    method PollAll(trace: seq<Input>) returns (calls: seq<Call>)
      modifies this
      ensures Cycle(Snapshot(), calls) == Run(old(Snapshot()), trace)
    {
      ghost var start := Snapshot();
      calls := [];
      var i := 0;
      while i < |trace|
        invariant 0 <= i <= |trace|
        invariant Cycle(Snapshot(), calls) == Run(start, trace[..i])
      {
        ghost var pre := Snapshot();
        var more := Poll(trace[i]);
        RunExtends(start, trace, i, pre, calls, Snapshot(), more);
        calls := calls + more;
        i := i + 1;
      }
      assert trace[..|trace|] == trace;
    }
  }
}
