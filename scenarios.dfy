/** Worked cycles: an approved homework, the same answer again, a failing
    fetch seen twice, an empty homework list, and an answer without
    `current_date`. */
module Scenarios {
  import opened Wrappers
  import opened JsonValues
  import opened PyRuntime
  import opened Homework
  import opened PollLoop

  const Proj1 := JObject(map["homework_name" := JStr("proj1"), "status" := JStr("approved")])

  function Answer(homeworks: seq<Json>, date: int): Json {
    JObject(map["homeworks" := JList(homeworks), "current_date" := JInt(date)])
  }

  /** The text `Изменился статус проверки работы "proj1". ` followed by the
      approved verdict. */
  const Proj1Message := StatusMessage("proj1", ApprovedVerdict)

  /** A fresh bot that sees an approved homework notifies once and moves the
      cursor to the server's date; the identical next answer is silent. */
  lemma ApprovedThenRepeated(start: int, now: int)
    ensures var input := Input(Fetched(Answer([Proj1], 1000)), now, None);
            var first := Step(Initial(start), input);
            && first == Cycle(State(JInt(1000), Proj1Message, ""), [StatusCall(Proj1Message)])
            && Step(first.next, input) == Cycle(first.next, [])
  {
  }

  /** An unavailable server is reported once; the same failure next cycle is
      not reported again, and the cursor does not move. */
  lemma OutageReportedOnce(s: State, now: int, detail: string)
    requires IsInt(s.cursor)
    requires s.oldMessage != ErrorReport(BadRequestError(detail))
    ensures var input := Input(FetchFailed(BadRequestError(detail)), now, None);
            var first := Step(s, input);
            && first == Cycle(s.(oldMessage := ErrorReport(BadRequestError(detail))),
                              [ErrorCall(ErrorReport(BadRequestError(detail)))])
            && Step(first.next, input) == Cycle(first.next, [])
  {
  }

  /** An empty homework list sends nothing, but the cursor follows
      `current_date`. */
  lemma EmptyAnswerAdvances(s: State, now: int)
    requires IsInt(s.cursor)
    ensures Step(s, Input(Fetched(Answer([], 1000)), now, None)) == Cycle(s.(cursor := JInt(1000)), [])
  {
  }

  /** A dict without `current_date` fails at line 111 with the bare key
      error rather than with check_response's messages, even when
      `homeworks` is missing too, and the cursor stays. */
  lemma MissingDateFailsBeforeValidation(s: State, input: Input)
    requires IsInt(s.cursor) && input.fetch.Fetched? && input.fetch.body.JObject?
    requires "current_date" !in input.fetch.body.fields
    ensures Attempt(s.cursor, input) == Raised(None, KeyError("current_date"))
    ensures Step(s, input).next == s.(oldMessage := Step(s, input).next.oldMessage)
  {
  }
}
