/**
 * Chat transcripts, the three provider adapters, and the trimming of trailing
 * assistant turns done before a request is sent.
 */
module Transcripts {
  import opened Wrappers
  import opened Errors

  datatype Role = System | User | Assistant

  datatype Turn = Turn(role: Role, content: string)

  /** The concrete `ModelAPI` subclasses. */
  datatype Provider = OpenAI | Mistral | Anthropic

  /** `api_assistant == False`: the provider rejects a transcript that ends on an assistant turn. */
  predicate StrictTurn(p: Provider) {
    p != OpenAI
  }

  function Last(t: seq<Turn>): Turn
    requires t != []
  {
    t[|t| - 1]
  }

  predicate EndsWithAssistant(t: seq<Turn>) {
    t != [] && Last(t).role == Assistant
  }

  /** Drops a trailing empty assistant turn, the placeholder "continue here". */
  function TrimPlaceholder(chat: seq<Turn>): (t: seq<Turn>)
    ensures t <= chat && |chat| - 1 <= |t|
    ensures |t| < |chat| <==> chat != [] && Last(chat) == Turn(Assistant, "")
  {
    if chat != [] && Last(chat).role == Assistant && Last(chat).content == "" then chat[..|chat| - 1] else chat
  }

  /** Drops one trailing assistant turn, whatever its content, for a strict-turn provider. */
  function TrimAssistant(t: seq<Turn>): (u: seq<Turn>)
    ensures u <= t && |t| - 1 <= |u|
    ensures |u| < |t| <==> EndsWithAssistant(t)
  {
    if EndsWithAssistant(t) then t[..|t| - 1] else t
  }

  /**
   * `request_api` of each adapter. The network call itself is not modelled: if
   * the adapter gets that far, the provider's reply is `reply`. Mistral and
   * Anthropic index the last turn (an empty transcript raises `IndexError`) and
   * refuse an assistant-last transcript before any network call.
   */
  function Adapter(provider: Provider, transcript: seq<Turn>, reply: string): (r: Result<string, Error>)
    ensures r.Success? ==> r.value == reply
    ensures r.Failure? <==> StrictTurn(provider) && (transcript == [] || EndsWithAssistant(transcript))
    ensures r.Failure? ==> (r.error == IndexError <==> transcript == [])
    ensures r.Failure? && transcript != [] ==> r.error.ProtocolViolation?
  {
    match provider
    case OpenAI => Success(reply)
    case Mistral =>
      if transcript == [] then Failure(IndexError)
      else if Last(transcript).role == Assistant then
        Failure(ProtocolViolation("Assistant should not be the last role in the chat for Mistral."))
      else Success(reply)
    case Anthropic =>
      if transcript == [] then Failure(IndexError)
      else if Last(transcript).role == Assistant then
        Failure(ProtocolViolation("Assistant should not be the last role in the chat for Anthropic."))
      else Success(reply)
  }
}
