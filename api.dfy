/**
 * `ModelAPI` and its provider subclasses as one class whose methods change the
 * session fields in place, step by step as the Python does. Each method is
 * proved to agree with the corresponding function of module Consumption.
 */
module Api {
  import opened Wrappers
  import opened Text
  import opened Patterns
  import opened Errors
  import opened Transcripts
  import opened Consumption

  /** A Gen field: generate up to the stop pattern, if any. */
  datatype Gen = Gen(name: string, stop: Option<string>, saveStopText: bool,
                     temperature: real, topP: real, maxTokens: int)

  /** A Find field: search the next reply with a user regex. */
  datatype Find = Find(name: string, regex: UserRegex, temperature: real, topP: real)

  /** A Select field: choose one of the options. */
  datatype Select = Select(name: string, options: seq<string>)

  class ModelApi {
    const provider: Provider
    const modelName: string
    const seed: int
    /** `api_assistant`: false for the strict-turn providers. */
    const apiAssistant: bool := provider == OpenAI

    /** State inherited from the session: the transcript and the recorded variables. */
    var chat: seq<Turn>
    var variables: map<string, string>

    var textToConsume: string
    var prefixText: string
    var temperature: real
    var topP: real
    var maxTokens: int

    /** The calls of `request_api` that reached the network, oldest first. */
    ghost var sent: seq<Request>

    function Params(): Sampling
      reads this`temperature, this`topP, this`maxTokens
    {
      Sampling(temperature, topP, maxTokens)
    }

    constructor (provider: Provider, modelName: string, seed: int, chat: seq<Turn>)
      ensures this.provider == provider && this.modelName == modelName && this.seed == seed
      ensures apiAssistant == !StrictTurn(provider)
      ensures this.chat == chat && variables == map[]
      ensures temperature == 0.0 && topP == 1.0 && maxTokens == 1000
      ensures textToConsume == "" && prefixText == "" && sent == []
    {
      this.provider := provider;
      this.modelName := modelName;
      this.seed := seed;
      this.chat := chat;
      variables := map[];
      temperature, topP, maxTokens := 0.0, 1.0, 1000;
      textToConsume, prefixText := "", "";
      sent := [];
    }

    /** `request_api` of the session's provider; `reply` is what the network would return. */
    method RequestApi(transcript: seq<Turn>, reply: string) returns (r: Result<string, Error>)
      modifies this`sent
      ensures r == Adapter(provider, transcript, reply)
      ensures sent == old(sent) + if r.Success? then [Request(transcript, Params())] else []
    {
      if provider != OpenAI {
        if transcript == [] {
          return Failure(IndexError);
        }
        if transcript[|transcript| - 1].role == Assistant {
          var message := if provider == Mistral
            then "Assistant should not be the last role in the chat for Mistral."
            else "Assistant should not be the last role in the chat for Anthropic.";
          return Failure(ProtocolViolation(message));
        }
      }
      sent := sent + [Request(transcript, Params())];
      r := Success(reply);
    }

    /** The fetch step shared by `run` and `run_find`. */
    method Fetch(reply: string) returns (err: Option<Error>)
      requires textToConsume == ""
      modifies this`textToConsume, this`prefixText, this`sent
      ensures match FetchStep(provider, chat, Params(), old(prefixText), reply)
        case Failure(e) =>
          err == Some(e) && textToConsume == "" && prefixText == old(prefixText) && sent == old(sent)
        case Success(f) =>
          err == None && textToConsume == f.pending && prefixText == f.prefix && sent == old(sent) + [f.request]
    {
      if chat == [] {
        return Some(IndexError);
      }
      var tmpChat := if chat[|chat| - 1].role == Assistant && chat[|chat| - 1].content == ""
        then chat[..|chat| - 1] else chat;
      assert tmpChat == TrimPlaceholder(chat);
      if apiAssistant {
        // a direct-assistant adapter has no guard that can refuse the transcript
        var out := RequestApi(tmpChat, reply);
        textToConsume := out.value;
      } else {
        if tmpChat == [] {
          return Some(IndexError);
        }
        tmpChat := if tmpChat[|tmpChat| - 1].role == Assistant then tmpChat[..|tmpChat| - 1] else tmpChat;
        assert tmpChat == TrimAssistant(TrimPlaceholder(chat));
        var out := RequestApi(tmpChat, reply);
        if out.Failure? {
          return Some(out.error);
        }
        textToConsume := out.value;
        // strip the echoed prefix_text from the start of the reply
        if prefixText <= textToConsume {
          textToConsume := textToConsume[|prefixText|..];
          prefixText := "";
        }
      }
      err := None;
    }

    /** `_consume_assistant_text`. */
    method ConsumeAssistantText(value: string)
      modifies this`textToConsume, this`prefixText
      ensures Buffers(textToConsume, prefixText) == ConsumeSpec(old(textToConsume), old(prefixText), value)
    {
      prefixText := prefixText + value;
      var j := FirstOccurrence(value, textToConsume);
      if j.Some? {
        textToConsume := textToConsume[j.value + |value|..];
        prefixText := "";
      } else {
        textToConsume := "";
      }
    }

    /** `run`: fetch when nothing is pending, then match `p` against the pending text. */
    method Run(p: Pattern, isGen: bool, saveStopText: bool, reply: string) returns (r: Result<string, Error>)
      modifies this`textToConsume, this`prefixText, this`sent
      ensures var o := RunSpec(provider, chat, Params(), old(textToConsume), old(prefixText), p, isGen, saveStopText, reply);
        && r == o.result
        && textToConsume == o.pending
        && prefixText == o.prefix
        && sent == old(sent) + Log(o.sent)
    {
      if textToConsume == "" {
        ghost var fetched := FetchStep(provider, chat, Params(), prefixText, reply);
        var err := Fetch(reply);
        if err.Some? {
          return Failure(err.value);
        }
        StripEchoedTurn();
        ghost var text := textToConsume;
        assert text == EchoStrip(fetched.value.pending, Last(chat).content);
        assert prefixText == fetched.value.prefix && sent == old(sent) + [fetched.value.request];
        r := MatchPending(p, isGen, saveStopText);
        assert r == Settle(MatchStep(p, text, isGen, saveStopText), text, prefixText, None).result;
      } else {
        r := MatchPending(p, isGen, saveStopText);
      }
    }

    /** Removes an echoed copy of the last turn's stripped content from the pending text. */
    method StripEchoedTurn()
      requires chat != []
      modifies this`textToConsume
      ensures textToConsume == EchoStrip(old(textToConsume), Last(chat).content)
    {
      var last := Strip(chat[|chat| - 1].content);
      ghost var expected := EchoStrip(textToConsume, Last(chat).content);
      if last <= textToConsume {
        textToConsume := textToConsume[|last|..];
      }
      assert textToConsume == expected;
    }

    /** The match step of `run` on the pending text. */
    method MatchPending(p: Pattern, isGen: bool, saveStopText: bool) returns (r: Result<string, Error>)
      modifies this`textToConsume
      ensures var o := Settle(MatchStep(p, old(textToConsume), isGen, saveStopText), old(textToConsume), prefixText, None);
        r == o.result && textToConsume == o.pending
    {
      var found := Search(p, textToConsume);
      if found.Some? {
        var m := MatchPrefix(p, textToConsume);
        if m.Some? {
          if saveStopText {
            r := Success(m.value.whole);
            textToConsume := textToConsume[|m.value.whole|..];
          } else {
            r := Success(m.value.first);
            textToConsume := textToConsume[|m.value.first|..];
          }
        } else {
          textToConsume := "";
          r := Success(found.value.groups.first);
        }
      } else if isGen {
        r := Success(textToConsume);
        textToConsume := "";
      } else {
        r := Failure(CantFind(p, textToConsume));
      }
    }

    /** `run_find`: fetch when nothing is pending, then search with the user regex and record the match. */
    method RunFind(regex: UserRegex, name: string, reply: string) returns (r: Result<(string, string), Error>)
      requires WellFormed(regex)
      modifies this`textToConsume, this`prefixText, this`sent, this`variables
      ensures var o := RunFindSpec(provider, chat, Params(), old(textToConsume), old(prefixText), regex, reply);
        && r == o.result
        && textToConsume == o.pending
        && prefixText == o.prefix
        && sent == old(sent) + Log(o.sent)
      ensures variables == if r.Success? then old(variables)[name := r.value.0] else old(variables)
    {
      if textToConsume == "" {
        var err := Fetch(reply);
        if err.Some? {
          return Failure(err.value);
        }
      }
      var originalRes := textToConsume;
      var m := regex.firstMatch(textToConsume);
      if m.Some? {
        var res := textToConsume[m.value.start..m.value.end];
        variables := variables[name := res];
        r := Success((res, originalRes));
      } else {
        r := Failure(RegexNotFound(regex.source, textToConsume));
      }
    }

    /** `_get_gen`: adopt the field's sampling fields, then `run` its pattern. */
    method GetGen(g: Gen, reply: string) returns (r: Result<string, Error>)
      modifies this`temperature, this`topP, this`maxTokens, this`textToConsume, this`prefixText, this`sent
      ensures temperature == g.temperature && topP == g.topP && maxTokens == g.maxTokens
      ensures var o := RunSpec(provider, chat, Sampling(g.temperature, g.topP, g.maxTokens),
                               old(textToConsume), old(prefixText), GenPattern(g.stop), true, g.saveStopText, reply);
        && r == o.result
        && textToConsume == o.pending
        && prefixText == o.prefix
        && sent == old(sent) + Log(o.sent)
    {
      temperature := g.temperature;
      topP := g.topP;
      maxTokens := g.maxTokens;
      r := Run(GenPattern(g.stop), true, g.saveStopText, reply);
    }

    /** `_get_find`: adopt the field's temperature and top_p, keep max_tokens, then `run_find`. */
    method GetFind(f: Find, reply: string) returns (r: Result<(string, string), Error>)
      requires WellFormed(f.regex)
      modifies this`temperature, this`topP, this`textToConsume, this`prefixText, this`sent, this`variables
      ensures temperature == f.temperature && topP == f.topP && maxTokens == old(maxTokens)
      ensures var o := RunFindSpec(provider, chat, Sampling(f.temperature, f.topP, old(maxTokens)),
                                   old(textToConsume), old(prefixText), f.regex, reply);
        && r == o.result
        && textToConsume == o.pending
        && prefixText == o.prefix
        && sent == old(sent) + Log(o.sent)
      ensures variables == if r.Success? then old(variables)[f.name := r.value.0] else old(variables)
    {
      temperature := f.temperature;
      topP := f.topP;
      r := RunFind(f.regex, f.name, reply);
    }

    /** `_get_select`: the sampling fields are left as they are. */
    method GetSelect(s: Select, reply: string) returns (r: Result<string, Error>)
      modifies this`textToConsume, this`prefixText, this`sent
      ensures temperature == old(temperature) && topP == old(topP) && maxTokens == old(maxTokens)
      ensures var o := RunSpec(provider, chat, Params(), old(textToConsume), old(prefixText),
                               SelectPattern(s.options), false, false, reply);
        && r == o.result
        && textToConsume == o.pending
        && prefixText == o.prefix
        && sent == old(sent) + Log(o.sent)
    {
      r := Run(SelectPattern(s.options), false, false, reply);
    }
  }
}
