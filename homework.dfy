/** The pure part of the homework bot: the table of review verdicts, the
    shape check of an API answer, the extraction of the notification text
    from a homework record, and the check that the three secrets are set. */
module Homework {
  import opened Wrappers
  import opened JsonValues
  import opened PyRuntime

  const ApprovedVerdict := "Работа проверена: ревьюеру всё понравилось. Ура!"
  const ReviewingVerdict := "Работа взята на проверку ревьюером."
  const RejectedVerdict := "Работа проверена: у ревьюера есть замечания."
  const UnassignedVerdict := "статус для работы не назначен"

  /** HOMEWORK_STATUSES: review status code to verdict sentence, with the
      empty code standing for "no status assigned". */
  const HomeworkStatuses: map<string, string> := map[
    "approved" := ApprovedVerdict,
    "reviewing" := ReviewingVerdict,
    "rejected" := RejectedVerdict,
    "" := UnassignedVerdict
  ]

  // Messages of the exceptions check_response and parse_status raise
  // (the doubled spaces are the source's).
  const NotADictMessage := "Тип  API не словарь"
  const NoHomeworksMessage := "Ключ  не содержит homeworks"
  const NoCurrentDateMessage := "Ключ  не содержит current_date"
  const NotAListMessage := "Список отсуствует"
  const EmptyRecordMessage := "Словарь homeworks пуст"
  const NoNameMessage := "Отсутствует Ключ homework_name"
  const NoStatusMessage := "Отсуствует Ключ status"
  const UnknownStatusSuffix := " отсутствует в словаре verdicts"

  const MessagePrefix := "Изменился статус проверки работы \""
  const MessageMiddle := "\". "

  /** The four status codes the bot knows. */
  lemma KnownStatuses(s: string)
    ensures s in HomeworkStatuses <==> s == "approved" || s == "reviewing" || s == "rejected" || s == ""
    ensures HomeworkStatuses[""] == UnassignedVerdict
  {
  }

  /** The notification text for a homework called `name` with `verdict`: the
      name sits in quotes after the fixed prefix, the verdict ends the text. */
  function StatusMessage(name: string, verdict: string): string {
    MessagePrefix + name + MessageMiddle + verdict
  }

  /** check_response: the `homeworks` list of a well-formed API answer, or
      the first shape violation found, in the order the source tests them. */
  function CheckResponse(response: Json): (r: Result<seq<Json>, PyError>)
    ensures !response.JObject? ==> r == Failure(TypeError(NotADictMessage))
    ensures response.JObject? && "homeworks" !in response.fields ==>
              r == Failure(KeyError(NoHomeworksMessage))
    ensures response.JObject? && "homeworks" in response.fields && "current_date" !in response.fields ==>
              r == Failure(KeyError(NoCurrentDateMessage))
    ensures response.JObject? && "homeworks" in response.fields && "current_date" in response.fields
            && !response.fields["homeworks"].JList? ==>
              r == Failure(PlainException(NotAListMessage))
    ensures r.Success? ==>
              && response.JObject?
              && "current_date" in response.fields
              && "homeworks" in response.fields
              && response.fields["homeworks"] == JList(r.value)
  {
    if !response.JObject? then Failure(TypeError(NotADictMessage))
    else if "homeworks" !in response.fields then Failure(KeyError(NoHomeworksMessage))
    else if "current_date" !in response.fields then Failure(KeyError(NoCurrentDateMessage))
    else if !response.fields["homeworks"].JList? then Failure(PlainException(NotAListMessage))
    else Success(response.fields["homeworks"].items)
  }

  /** An answer built with a `homeworks` list and a `current_date`, whatever
      else it carries, passes the check and yields that very list. */
  lemma AnswerAccepted(others: map<string, Json>, homeworks: seq<Json>, date: Json)
    ensures CheckResponse(JObject(others["homeworks" := JList(homeworks)]["current_date" := date]))
            == Success(homeworks)
  {
  }

  /** A homework record parse_status accepts: a dict naming the work and
      carrying a status code the verdict table knows. */
  predicate IsReviewRecord(homework: Json) {
    && homework.JObject?
    && "homework_name" in homework.fields
    && "status" in homework.fields
    && homework.fields["status"].JStr?
    && homework.fields["status"].s in HomeworkStatuses
  }

  /** parse_status: the notification text for one homework record, or the
      exception the source raises for it. */
  function ParseStatus(homework: Json): (r: Result<string, PyError>)
    ensures !Truthy(homework) ==> r == Failure(ErorrAPI(EmptyRecordMessage))
    ensures Truthy(homework) && homework.JObject? && "homework_name" !in homework.fields ==>
              r == Failure(KeyError(NoNameMessage))
    ensures homework.JObject? && "homework_name" in homework.fields && "status" !in homework.fields ==>
              r == Failure(KeyError(NoStatusMessage))
    ensures homework.JObject? && "homework_name" in homework.fields && "status" in homework.fields
            && homework.fields["status"].JStr? && homework.fields["status"].s !in HomeworkStatuses ==>
              r == Failure(KeyError(homework.fields["status"].s + UnknownStatusSuffix))
    ensures homework.JObject? && "homework_name" in homework.fields && "status" in homework.fields
            && (homework.fields["status"].JNull? || IsInt(homework.fields["status"])) ==>
              r == Failure(KeyError(Str(homework.fields["status"]) + UnknownStatusSuffix))
    ensures homework.JObject? && "homework_name" in homework.fields && "status" in homework.fields
            && (homework.fields["status"].JList? || homework.fields["status"].JObject?) ==>
              r.Failure? && r.error.TypeError?
    ensures Truthy(homework) && IsInt(homework) ==> r.Failure? && r.error.TypeError?
    ensures homework.JList? || homework.JStr? ==>
              r.Failure? && (r.error.ErorrAPI? || r.error.KeyError? || r.error.AttributeError?)
    ensures r.Success? <==> IsReviewRecord(homework)
    ensures r.Success? ==>
              r.value == StatusMessage(Str(homework.fields["homework_name"]),
                                       HomeworkStatuses[homework.fields["status"].s])
  {
    if !Truthy(homework) then Failure(ErorrAPI(EmptyRecordMessage))
    else
      match Contains(homework, "homework_name")
      case Failure(e) => Failure(e)
      case Success(hasName) =>
        if !hasName then Failure(KeyError(NoNameMessage))
        else
          match Contains(homework, "status")
          case Failure(e) => Failure(e)
          case Success(hasStatus) =>
            if !hasStatus then Failure(KeyError(NoStatusMessage))
            else
              match Get(homework, "homework_name")
              case Failure(e) => Failure(e)
              case Success(name) =>
                match Get(homework, "status")
                case Failure(e) => Failure(e)
                case Success(status) => Lookup(Str(name), status)
  }

  /** Lines 85-88 of parse_status: look `status` up in the verdict table;
      a list or dict cannot be a key at all. */
  function Lookup(name: string, status: Json): (r: Result<string, PyError>)
    ensures r.Success? <==> status.JStr? && status.s in HomeworkStatuses
    ensures r.Success? ==> r.value == StatusMessage(name, HomeworkStatuses[status.s])
    ensures status.JStr? && status.s !in HomeworkStatuses ==> r == Failure(KeyError(status.s + UnknownStatusSuffix))
    ensures status.JNull? || IsInt(status) ==> r == Failure(KeyError(Str(status) + UnknownStatusSuffix))
    ensures status.JList? || status.JObject? ==> r.Failure? && r.error.TypeError?
  {
    match status
    case JStr(s) =>
      if s in HomeworkStatuses then Success(StatusMessage(name, HomeworkStatuses[s]))
      else Failure(KeyError(s + UnknownStatusSuffix))
    case JList(_) => Failure(TypeError("unhashable type: 'list'"))
    case JObject(_) => Failure(TypeError("unhashable type: 'dict'"))
    case _ => Failure(KeyError(Str(status) + UnknownStatusSuffix))
  }

  /** A record with no status assigned yet is reported with the sentinel
      verdict rather than rejected. */
  lemma UnassignedStatusReported(name: Json)
    ensures ParseStatus(JObject(map["homework_name" := name, "status" := JStr("")]))
            == Success(StatusMessage(Str(name), UnassignedVerdict))
  {
  }

  /** No verdict is a proper suffix of another: the table's sentences end
      differently. */
  lemma VerdictsSuffixFree(v: string, w: string)
    requires v in HomeworkStatuses.Values && w in HomeworkStatuses.Values
    requires |v| <= |w| && w[|w| - |v|..] == v
    ensures v == w
  {
  }

  /** Distinct status codes have distinct verdicts. */
  lemma VerdictsDistinct(s: string, t: string)
    requires s in HomeworkStatuses && t in HomeworkStatuses
    requires HomeworkStatuses[s] == HomeworkStatuses[t]
    ensures s == t
  {
  }

  /** A notification text determines the name and the verdict it was made
      from. */
  lemma {:induction false} StatusMessageInjective(n1: string, v1: string, n2: string, v2: string)
    requires v1 in HomeworkStatuses.Values && v2 in HomeworkStatuses.Values
    requires StatusMessage(n1, v1) == StatusMessage(n2, v2)
    ensures n1 == n2 && v1 == v2
  {
    var m := StatusMessage(n1, v1);
    assert m[|m| - |v1|..] == v1;
    assert m[|m| - |v2|..] == v2;
    if |v1| <= |v2| {
      assert v2[|v2| - |v1|..] == v1;
      VerdictsSuffixFree(v1, v2);
    } else {
      assert v1[|v1| - |v2|..] == v2;
      VerdictsSuffixFree(v2, v1);
    }
    assert n1 == m[|MessagePrefix|..|m| - |MessageMiddle| - |v1|];
    assert n2 == m[|MessagePrefix|..|m| - |MessageMiddle| - |v2|];
  }

  /** Two accepted records yield the same text exactly when they show the
      same name and carry the same status code; so comparing texts, as the
      poll loop does, compares (name, status) pairs. */
  lemma SameMessageIffSameReview(h1: Json, h2: Json)
    requires IsReviewRecord(h1) && IsReviewRecord(h2)
    ensures ParseStatus(h1) == ParseStatus(h2) <==>
              && Str(h1.fields["homework_name"]) == Str(h2.fields["homework_name"])
              && h1.fields["status"].s == h2.fields["status"].s
  {
    var s1, s2 := h1.fields["status"].s, h2.fields["status"].s;
    if ParseStatus(h1) == ParseStatus(h2) {
      StatusMessageInjective(Str(h1.fields["homework_name"]), HomeworkStatuses[s1],
                             Str(h2.fields["homework_name"]), HomeworkStatuses[s2]);
      VerdictsDistinct(s1, s2);
    }
  }

  /** check_tokens: every secret is present and non-empty (`all` over the
      values `os.getenv` returned). */
  function CheckTokens(tokens: seq<Option<string>>): (ok: bool)
    ensures ok <==> forall k :: 0 <= k < |tokens| ==> tokens[k].Some? && tokens[k].value != ""
  {
    if tokens == [] then true
    else tokens[0].Some? && tokens[0].value != "" && CheckTokens(tokens[1..])
  }
}
