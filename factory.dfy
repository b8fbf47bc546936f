/** The financial question-answering service behind the `call_dxa_factory`
    tool (backend/services/openai.py, `_generate_aiko_message`): one HTTP
    POST whose answer is either the service's answer content or, on an HTTP
    error status, a failure text that carries the status code. */
module Factory {
  import opened Common
  import opened Remote

  const FailurePrefix := "request failed. status: "

  /** The statuses `raise_for_status` rejects: client errors (400-499) and
      server errors (500-599). Anything else, including 3xx and 6xx, passes. */
  predicate IsHttpError(status: nat)
    ensures IsHttpError(status) <==> status / 100 == 4 || status / 100 == 5
  {
    400 <= status < 600
  }

  /** The text returned instead of raising when the status is an error. */
  function FailureText(status: nat): string {
    FailurePrefix + NatToString(status)
  }

  /** The answer read from a response that arrived. A `null` content is
      returned as `None` in the source; both callers only test the answer's
      truth value, so it is the empty answer here. */
  function Answer(response: HttpResponse): (r: Outcome<string>)
    ensures !r.Hung?
    ensures IsHttpError(response.status) ==> r.Returned? && StartsWith(r.value, FailurePrefix)
    ensures !IsHttpError(response.status) ==> (r.Returned? <==> response.body.Content? || response.body.NullContent?)
    ensures !IsHttpError(response.status) && response.body.Content? ==> r.value == response.body.text
    ensures !IsHttpError(response.status) && response.body.NullContent? ==> r.value == ""
  {
    if IsHttpError(response.status) then Returned(FailureText(response.status))
    else
      match response.body
      case Content(text) => Returned(text)
      case NullContent => Returned("")
      case NotJson => Threw(Error("Expecting value: line 1 column 1 (char 0)"))
      case NoContent => Threw(Error("'answer'"))
  }

  /** The status code can be read back from the failure text, and the text
      is never empty, so callers that replace an empty answer keep it. */
  lemma FailureTextCarriesStatus(status: nat)
    ensures StartsWith(FailureText(status), FailurePrefix)
    ensures IsDigits(FailureText(status)[|FailurePrefix|..])
    ensures DigitsValue(FailureText(status)[|FailurePrefix|..]) == status
    ensures FailureText(status) != ""
  {
    assert FailureText(status)[|FailurePrefix|..] == NatToString(status);
    NatToStringValue(status);
  }

  /** `call_dxa_factory(question)`: one request; an exception from the
      transport propagates. */
  function Ask(question: string, script: Script): (r: Exchange<string>)
    ensures r.calls == [AskFactory(question)]
    ensures |r.rest| <= |script| && (script != [] ==> r.rest == script[1..])
    ensures script != [] && script[0].Err? ==> r.outcome == Threw(script[0].error)
    ensures script != [] && script[0].Ok? && script[0].value.Http? ==> r.outcome == Answer(script[0].value.response)
    ensures script == [] ==> r.outcome.Hung?
  {
    var outcome :=
      match AsHttp(NextReply(script))
      case Returned(response) => Answer(response)
      case Threw(e) => Threw(e)
      case Hung => Hung;
    Exchange(outcome, [AskFactory(question)], AfterCall(script))
  }
}
