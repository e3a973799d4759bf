/**
 * The text-consumption state machine of `ModelAPI` as functions of its state:
 * the fetch step (trim the transcript, call the adapter, strip echoes), the
 * match step of `run`, the search of `run_find`, and `_consume_assistant_text`.
 * The class in module Api performs these steps in place and is proved to agree
 * with them; the lemmas here state what the steps promise.
 */
module Consumption {
  import opened Wrappers
  import opened Text
  import opened Patterns
  import opened Errors
  import opened Transcripts

  /** The sampling fields `temperature`, `top_p` and `max_tokens`. */
  datatype Sampling = Sampling(temperature: real, topP: real, maxTokens: int)

  /** One call of `request_api` that reached the network. */
  datatype Request = Request(transcript: seq<Turn>, sampling: Sampling)

  /** `text_to_consume` and `prefix_text`. */
  datatype Buffers = Buffers(pending: string, prefix: string)

  /** The state after a successful fetch, and the request that produced it. */
  datatype Fetched = Fetched(request: Request, pending: string, prefix: string)

  /** A value taken from the pending text and the pending text left after it. */
  datatype Step = Step(value: string, pending: string)

  /** What `run` or `run_find` returns or raises, the new buffers and the network call made, if any. */
  datatype Outcome<T> = Outcome(result: Result<T, Error>, pending: string, prefix: string, sent: Option<Request>)

  function Log(sent: Option<Request>): seq<Request> {
    if sent.Some? then [sent.value] else []
  }

  /**
   * Alignment of a strict-turn reply with the text already emitted: a reply
   * that starts with `prefix` loses exactly that prefix and `prefix_text` is
   * reset; any other reply and `prefix_text` are kept as they are.
   */
  function AlignPrefix(reply: string, prefix: string): (b: Buffers)
    ensures prefix <= reply ==> prefix + b.pending == reply && b.prefix == ""
    ensures !(prefix <= reply) ==> b == Buffers(reply, prefix)
  {
    if prefix <= reply then Buffers(reply[|prefix|..], "") else Buffers(reply, prefix)
  }

  /** A reply that echoes the emitted prefix before new text yields exactly the new text. */
  lemma EchoedPrefixRoundTrip(prefix: string, tail: string)
    ensures AlignPrefix(prefix + tail, prefix) == Buffers(tail, "")
  {
  }


  /** `run` removes the stripped content of the last turn when the reply starts with it. */
  function EchoStrip(pending: string, last: string): (r: string)
    ensures Strip(last) <= pending ==> Strip(last) + r == pending
    ensures !(Strip(last) <= pending) ==> r == pending
  {
    var p := Strip(last);
    if p <= pending then pending[|p|..] else pending
  }

  /**
   * The fetch step shared by `run` and `run_find`, taken when no text is
   * pending: trim the transcript, call the adapter and, on a strict-turn
   * session, align the reply with `prefix_text`.
   */
  function FetchStep(provider: Provider, chat: seq<Turn>, sampling: Sampling, prefix: string, reply: string)
    : (r: Result<Fetched, Error>)
    ensures chat == [] ==> r == Failure(IndexError)
    ensures r.Failure? ==> chat == [] || StrictTurn(provider)
    ensures r.Success? ==> chat != [] && r.value.request.sampling == sampling
    ensures r.Success? ==>
      && r.value.request.transcript <= chat
      && |chat| - (if StrictTurn(provider) then 2 else 1) <= |r.value.request.transcript|
    ensures r.Success? && StrictTurn(provider) ==>
      r.value.request.transcript != [] && !EndsWithAssistant(r.value.request.transcript)
    ensures r.Success? ==>
      r.value.request.transcript == (if StrictTurn(provider) then TrimAssistant(TrimPlaceholder(chat)) else TrimPlaceholder(chat))
    ensures r.Success? && !StrictTurn(provider) ==> r.value.pending == reply && r.value.prefix == prefix
    ensures r.Success? && StrictTurn(provider) ==> Buffers(r.value.pending, r.value.prefix) == AlignPrefix(reply, prefix)
  {
    if chat == [] then Failure(IndexError)
    else
      var t := TrimPlaceholder(chat);
      if !StrictTurn(provider) then
        match Adapter(provider, t, reply)
        case Failure(e) => Failure(e)
        case Success(text) => Success(Fetched(Request(t, sampling), text, prefix))
      else if t == [] then Failure(IndexError)
      else
        var u := TrimAssistant(t);
        match Adapter(provider, u, reply)
        case Failure(e) => Failure(e)
        case Success(text) =>
          var b := AlignPrefix(text, prefix);
          Success(Fetched(Request(u, sampling), b.pending, b.prefix))
  }

  /**
   * A strict-turn fetch fails exactly when, after both trims, the transcript is
   * empty or still ends on an assistant turn; the guard raises before any
   * network call.
   */
  lemma StrictFetchGuard(provider: Provider, chat: seq<Turn>, sampling: Sampling, prefix: string, reply: string)
    requires StrictTurn(provider) && chat != []
    ensures FetchStep(provider, chat, sampling, prefix, reply).Failure? <==>
      var u := TrimAssistant(TrimPlaceholder(chat));
      u == [] || EndsWithAssistant(u)
  {
  }


  /** A strict-turn transcript ending in two assistant turns, the last non-empty, is refused. */
  lemma TwoAssistantTurnsAreRefused(provider: Provider, chat: seq<Turn>, a: string, b: string,
                                    sampling: Sampling, prefix: string, reply: string)
    requires StrictTurn(provider) && b != ""
    ensures FetchStep(provider, chat + [Turn(Assistant, a), Turn(Assistant, b)], sampling, prefix, reply).Failure?
    ensures FetchStep(provider, chat + [Turn(Assistant, a), Turn(Assistant, b)], sampling, prefix, reply).error.ProtocolViolation?
  {
  }


  /** On a strict-turn session a reply `prefix_text + tail` leaves exactly `tail` pending. */
  lemma StrictFetchStripsEmittedPrefix(provider: Provider, chat: seq<Turn>, sampling: Sampling,
                                       prefix: string, tail: string)
    requires StrictTurn(provider)
    requires FetchStep(provider, chat, sampling, prefix, prefix + tail).Success?
    ensures FetchStep(provider, chat, sampling, prefix, prefix + tail).value.pending == tail
    ensures FetchStep(provider, chat, sampling, prefix, prefix + tail).value.prefix == ""
  {
  }


  /**
   * The match step of `run`. A match at the start takes the whole match
   * (`save_stop_text`) or its first group, and the pending text keeps what
   * follows; a match only further on yields its group and empties the pending
   * text; no match at all yields the whole pending text for a Gen and raises
   * for a Select.
   */
  function MatchStep(p: Pattern, pending: string, isGen: bool, saveStopText: bool): (r: Result<Step, Error>)
    ensures r.Failure? <==> !isGen && Search(p, pending).None?
    ensures r.Failure? ==> r.error == CantFind(p, pending)
    ensures MatchPrefix(p, pending).Some? ==> r.Success? && r.value.value + r.value.pending == pending
    ensures r.Success? && r.value.pending != "" ==> r.value.value + r.value.pending == pending
  {
    match Search(p, pending)
    case None => if isGen then Success(Step(pending, "")) else Failure(CantFind(p, pending))
    case Some(found) =>
      match MatchPrefix(p, pending)
      case Some(g) =>
        var v := if saveStopText then g.whole else g.first;
        Success(Step(v, pending[|v|..]))
      case None => Success(Step(found.groups.first, ""))
  }

  /** An anchored match returns the whole match with `save_stop_text`, otherwise group 1. */
  lemma AnchoredValue(p: Pattern, pending: string, isGen: bool, saveStopText: bool)
    requires MatchPrefix(p, pending).Some?
    ensures MatchStep(p, pending, isGen, saveStopText).Success?
    ensures MatchStep(p, pending, isGen, saveStopText).value.value ==
      if saveStopText then MatchPrefix(p, pending).value.whole else MatchPrefix(p, pending).value.first
  {
  }


  /** A Gen field never raises and never loses text: value and new pending text make up the old. */
  lemma GenNeverLosesText(stop: Option<string>, pending: string, saveStopText: bool)
    ensures MatchStep(GenPattern(stop), pending, true, saveStopText).Success?
    ensures var st := MatchStep(GenPattern(stop), pending, true, saveStopText).value;
      st.value + st.pending == pending
  {
    if Search(GenPattern(stop), pending).Some? {
      GenPatternAnchors(stop, pending);
    }
  }

  /** A Gen without a stop pattern returns "" and consumes nothing. */
  lemma UnstoppedGenTakesNothing(pending: string, saveStopText: bool)
    ensures MatchStep(GenPattern(None), pending, true, saveStopText) == Success(Step("", pending))
  {
  }


  /**
   * A Gen without `save_stop_text` returns the text before the first stop and
   * leaves the stop at the front of the pending text.
   */
  lemma GenKeepsTerminator(stop: string, pending: string, i: nat)
    requires OccursAt(stop, pending, i)
    ensures var r := MatchStep(LazyAnyThenStop(stop), pending, true, false);
      && r.Success?
      && r.value.value + r.value.pending == pending
      && stop <= r.value.pending
      && forall j :: 0 <= j < |r.value.value| ==> !OccursAt(stop, pending, j)
  {
  }


  /** A Gen with `save_stop_text` returns the text up to and including the first stop. */
  lemma GenTakesTerminator(stop: string, pending: string, i: nat)
    requires OccursAt(stop, pending, i)
    ensures var r := MatchStep(LazyAnyThenStop(stop), pending, true, true);
      && r.Success?
      && r.value.value + r.value.pending == pending
      && |stop| <= |r.value.value|
      && r.value.value[|r.value.value| - |stop|..] == stop
      && forall j :: 0 <= j < |r.value.value| - |stop| ==> !OccursAt(stop, pending, j)
  {
  }


  /** Without `save_stop_text` a second identical Gen finds the stop at once: it returns "" and stalls. */
  lemma RepeatedGenStalls(stop: string, pending: string, i: nat)
    requires OccursAt(stop, pending, i)
    ensures var rest := MatchStep(LazyAnyThenStop(stop), pending, true, false).value.pending;
      MatchStep(LazyAnyThenStop(stop), rest, true, false) == Success(Step("", rest))
  {
  }


  /** A Gen whose stop occurs nowhere takes all pending text. */
  lemma GenFallsThrough(stop: string, pending: string, saveStopText: bool)
    requires forall j :: !OccursAt(stop, pending, j)
    ensures MatchStep(LazyAnyThenStop(stop), pending, true, saveStopText) == Success(Step(pending, ""))
  {
    StopMatchIsFirstOccurrence(stop, pending);
    if Search(LazyAnyThenStop(stop), pending).Some? {
      GenPatternAnchors(Some(stop), pending);
      assert false;
    }
  }

  /** A Select whose pattern occurs only after the start takes that match and empties the pending text. */
  lemma SelectFoundLater(options: seq<string>, pending: string)
    requires MatchPrefix(SelectPattern(options), pending).None?
    requires Search(SelectPattern(options), pending).Some?
    ensures MatchStep(SelectPattern(options), pending, false, false) ==
      Success(Step(Search(SelectPattern(options), pending).value.groups.first, ""))
  {
  }


  /** A Select over non-numeric options returns one of the options, never other text. */
  lemma SelectReturnsListedOption(options: seq<string>, pending: string)
    requires SelectPattern(options).Alt?
    requires MatchStep(SelectPattern(options), pending, false, false).Success?
    ensures MatchStep(SelectPattern(options), pending, false, false).value.value in options
  {
  }


  /**
   * A Select over numeric options returns a non-empty run of digits; when the
   * text starts with a digit it is the whole leading run of digits.
   */
  lemma NumericSelectReturnsDigits(options: seq<string>, pending: string)
    requires SelectPattern(options) == Digits
    requires MatchStep(Digits, pending, false, false).Success?
    ensures var v := MatchStep(Digits, pending, false, false).value.value;
      |v| > 0 && forall k :: 0 <= k < |v| ==> IsDigit(v[k])
    ensures pending != [] && IsDigit(pending[0]) ==>
      var v := MatchStep(Digits, pending, false, false).value.value;
      v <= pending && (|v| < |pending| ==> !IsDigit(pending[|v|]))
  {
  }


  /** Numeric options read the leading number: "42 is the answer" gives "42". */
  lemma NumericSelectScenario(options: seq<string>)
    requires forall k :: 0 <= k < |options| ==> CanBeInt(options[k])
    ensures MatchStep(SelectPattern(options), "42 is the answer", false, false) ==
      Success(Step("42", " is the answer"))
  {
    var s := "42 is the answer";
    assert DigitRun(s) == 2 by {
      assert s[1..][1..] == s[2..] && s[2..][0] == ' ';
    }
    assert s[..2] == "42" && s[2..] == " is the answer";
    AnchoredValue(Digits, s, false, false);
  }

  /** Options ["yes", "no"] on "no, definitely" give "no" and advance past "no" only. */
  lemma YesNoSelectScenario()
    ensures MatchStep(SelectPattern(["yes", "no"]), "no, definitely", false, false) ==
      Success(Step("no", ", definitely"))
  {
    var s := "no, definitely";
    assert !CanBeInt("yes");
    assert !("yes" <= s);
    assert FirstPrefixOption(["yes", "no"], s) == Some(1) by {
      assert ["yes", "no"][1..] == ["no"];
    }
    AnchoredValue(Alt(["yes", "no"]), s, false, false);
  }

  /** Signed numeric options lose their sign: "-1" with options ["-1", "2"] gives "1". */
  lemma SignedOptionLosesSign()
    ensures MatchStep(SelectPattern(["-1", "2"]), "-1", false, false) == Success(Step("1", ""))
  {
    var s := "-1";
    assert CanBeInt("-1") && CanBeInt("2");
    assert MatchPrefix(Digits, s).None?;
    assert s[1..] == "1" && DigitRun("1") == 1 && "1"[..1] == "1";
    assert MatchPrefix(Digits, s[1..]) == Some(Groups("1", "1"));
    assert Search(Digits, s) == Some(Found(1, Groups("1", "1")));
  }

  /** Turns a match step into the outcome of `run`: a raise keeps the pending text. */
  function Settle(step: Result<Step, Error>, pending: string, prefix: string, sent: Option<Request>): Outcome<string> {
    match step
    case Success(st) => Outcome(Success(st.value), st.pending, prefix, sent)
    case Failure(e) => Outcome(Failure(e), pending, prefix, sent)
  }

  /** `run`: fetch when nothing is pending, then the match step. */
  function RunSpec(provider: Provider, chat: seq<Turn>, sampling: Sampling, pending: string, prefix: string,
                   p: Pattern, isGen: bool, saveStopText: bool, reply: string): (o: Outcome<string>)
    ensures o.sent.Some? ==> pending == ""
    ensures pending != "" ==> o.prefix == prefix
    ensures o.result.Failure? && o.result.error.CantFind? ==> !isGen
  {
    if pending != "" then Settle(MatchStep(p, pending, isGen, saveStopText), pending, prefix, None)
    else match FetchStep(provider, chat, sampling, prefix, reply)
      case Failure(e) => Outcome(Failure(e), pending, prefix, None)
      case Success(f) =>
        var text := EchoStrip(f.pending, Last(chat).content);
        Settle(MatchStep(p, text, isGen, saveStopText), text, f.prefix, Some(f.request))
  }

  /**
   * With text pending, a Gen `run` never raises, makes no request and splits
   * the pending text into the value and the new pending text.
   */
  lemma PendingGenRunKeepsText(provider: Provider, chat: seq<Turn>, sampling: Sampling, pending: string, prefix: string,
                               stop: Option<string>, saveStopText: bool, reply: string)
    ensures var o := RunSpec(provider, chat, sampling, pending, prefix, GenPattern(stop), true, saveStopText, reply);
      pending != "" ==>
        && o.result.Success?
        && o.result.value + o.pending == pending
        && o.sent.None?
        && o.prefix == prefix
  {
    GenNeverLosesText(stop, pending, saveStopText);
  }

  /**
   * With text pending, a Select `run` makes no request and raises exactly when
   * its pattern occurs nowhere in the pending text, which then stays pending.
   */
  lemma PendingSelectRunRaisesIffNoMatch(provider: Provider, chat: seq<Turn>, sampling: Sampling, pending: string,
                                         prefix: string, options: seq<string>, reply: string)
    ensures var o := RunSpec(provider, chat, sampling, pending, prefix, SelectPattern(options), false, false, reply);
      pending != "" ==>
        && o.sent.None?
        && (o.result.Failure? <==> Search(SelectPattern(options), pending).None?)
        && (o.result.Failure? ==> o.result.error == CantFind(SelectPattern(options), pending) && o.pending == pending)
  {
  }

  /**
   * The transcript `run` sends is `chat` less at most one trailing turn (two on
   * a strict-turn session), with the current sampling fields; on a strict-turn
   * session it never ends on an assistant turn.
   */
  lemma RunSendsTrimmedChat(provider: Provider, chat: seq<Turn>, sampling: Sampling, pending: string, prefix: string,
                            p: Pattern, isGen: bool, saveStopText: bool, reply: string)
    ensures var o := RunSpec(provider, chat, sampling, pending, prefix, p, isGen, saveStopText, reply);
      o.sent.Some? ==>
        && pending == ""
        && o.sent.value.transcript <= chat
        && |chat| - (if StrictTurn(provider) then 2 else 1) <= |o.sent.value.transcript|
        && o.sent.value.sampling == sampling
        && (StrictTurn(provider) ==> o.sent.value.transcript != [] && !EndsWithAssistant(o.sent.value.transcript))
        && o.sent.value.transcript == (if StrictTurn(provider) then TrimAssistant(TrimPlaceholder(chat)) else TrimPlaceholder(chat))
  {
  }

  /** A stop "\n" without `save_stop_text` on "4\nExtra" gives "4" and leaves "\nExtra" pending. */
  lemma GenStopMatchScenario()
    ensures MatchStep(GenPattern(Some("\n")), "4\nExtra", true, false) == Success(Step("4", "\nExtra"))
  {
    var s := "4\nExtra";
    assert FirstOccurrence("\n", s) == Some(1) by {
      assert s[0..] == s && s[0] == '4';
      assert !("\n" <= s);
      assert OccursAt("\n", s, 1);
    }
    assert s[..1] == "4" && s[1..] == "\nExtra";
    AnchoredValue(LazyAnyThenStop("\n"), s, true, false);
  }

  /** The prompt "2+2=" is not echoed at the start of the reply "4\nExtra", so the echo strip keeps it whole. */
  lemma PromptNotEchoed()
    ensures EchoStrip("4\nExtra", "2+2=") == "4\nExtra"
  {
  }


  /**
   * A whole `run` on the transcript [user "2+2="]: the reply "4\nExtra" is
   * fetched once, "4" is returned and "\nExtra" stays pending.
   */
  lemma GenStopScenario(sampling: Sampling, prefix: string)
    ensures RunSpec(OpenAI, [Turn(User, "2+2=")], sampling, "", prefix, GenPattern(Some("\n")), true, false, "4\nExtra")
         == Outcome(Success("4"), "\nExtra", prefix, Some(Request([Turn(User, "2+2=")], sampling)))
  {
    var chat := [Turn(User, "2+2=")];
    var reply := "4\nExtra";
    var f := Fetched(Request(chat, sampling), reply, prefix);
    assert FetchStep(OpenAI, chat, sampling, prefix, reply) == Success(f) by {
      assert TrimPlaceholder(chat) == chat;
    }
    assert Last(chat).content == "2+2=";
    PromptNotEchoed();
    GenStopMatchScenario();
    assert Settle(MatchStep(GenPattern(Some("\n")), reply, true, false), reply, prefix, Some(f.request))
        == Outcome(Success("4"), "\nExtra", prefix, Some(Request(chat, sampling)));
  }

  /** The search of `run_find` on text already fetched: pending text is never consumed. */
  function FindIn(regex: UserRegex, text: string, prefix: string, sent: Option<Request>): (o: Outcome<(string, string)>)
    requires WellFormed(regex)
    ensures o.pending == text && o.prefix == prefix && o.sent == sent
    ensures o.result.Success? <==> regex.firstMatch(text).Some?
    ensures o.result.Success? ==>
      var sp := regex.firstMatch(text).value;
      o.result.value == (text[sp.start..sp.end], text)
    ensures o.result.Failure? ==> o.result.error == RegexNotFound(regex.source, text)
  {
    match regex.firstMatch(text)
    case None => Outcome(Failure(RegexNotFound(regex.source, text)), text, prefix, sent)
    case Some(span) => Outcome(Success((text[span.start..span.end], text)), text, prefix, sent)
  }

  /** `run_find`: fetch (without the echo strip of `run`) when nothing is pending, then search. */
  function RunFindSpec(provider: Provider, chat: seq<Turn>, sampling: Sampling, pending: string, prefix: string,
                       regex: UserRegex, reply: string): (o: Outcome<(string, string)>)
    requires WellFormed(regex)
    ensures o.sent.Some? ==> pending == ""
    ensures pending != "" ==> o.pending == pending && o.prefix == prefix
    ensures o.result.Success? ==>
      && o.result.value.1 == o.pending
      && regex.firstMatch(o.pending).Some?
      && var sp := regex.firstMatch(o.pending).value;
         o.result.value.0 == o.pending[sp.start..sp.end]
    ensures o.result.Failure? && o.result.error.RegexNotFound? ==> regex.firstMatch(o.pending).None?
    ensures (pending != "" || o.sent.Some?) ==> (o.result.Success? <==> regex.firstMatch(o.pending).Some?)
    ensures o.result.Failure? && !o.result.error.RegexNotFound? ==> pending == "" && o.sent.None?
  {
    if pending != "" then FindIn(regex, pending, prefix, None)
    else match FetchStep(provider, chat, sampling, prefix, reply)
      case Failure(e) => Outcome(Failure(e), pending, prefix, None)
      case Success(f) => FindIn(regex, f.pending, f.prefix, Some(f.request))
  }

  /**
   * With nothing pending, a fetch that passes the guard is always made: both
   * `run` and `run_find` log exactly the request of the fetch step, and
   * `run_find` keeps the fetched text as it is.
   */
  lemma IdleRunsFetch(provider: Provider, chat: seq<Turn>, sampling: Sampling, prefix: string,
                      p: Pattern, isGen: bool, saveStopText: bool, regex: UserRegex, reply: string)
    requires WellFormed(regex)
    ensures var f := FetchStep(provider, chat, sampling, prefix, reply);
      f.Success? ==>
        && RunSpec(provider, chat, sampling, "", prefix, p, isGen, saveStopText, reply).sent == Some(f.value.request)
        && RunFindSpec(provider, chat, sampling, "", prefix, regex, reply).sent == Some(f.value.request)
        && RunFindSpec(provider, chat, sampling, "", prefix, regex, reply).pending == f.value.pending
        && RunFindSpec(provider, chat, sampling, "", prefix, regex, reply).prefix == f.value.prefix
  {
  }

  /**
   * After a fetch, `run` keeps the prefix the fetch step left, logs its
   * request, and matches the fetched text less any echo of the last turn:
   * it raises only for a non-Gen field whose pattern occurs nowhere in that
   * text, and an anchored match splits that text into value and rest.
   */
  lemma FetchedRunMatchesEchoStripped(provider: Provider, chat: seq<Turn>, sampling: Sampling, prefix: string,
                                      p: Pattern, isGen: bool, saveStopText: bool, reply: string)
    ensures var f := FetchStep(provider, chat, sampling, prefix, reply);
      f.Success? ==>
        var text := EchoStrip(f.value.pending, Last(chat).content);
        var o := RunSpec(provider, chat, sampling, "", prefix, p, isGen, saveStopText, reply);
        && o.prefix == f.value.prefix
        && o.sent == Some(f.value.request)
        && (o.result.Failure? <==> !isGen && Search(p, text).None?)
        && (MatchPrefix(p, text).Some? ==> o.result.Success? && o.result.value + o.pending == text)
  {
  }

  /**
   * On a fetched text that starts with the stripped last turn, `run` matches
   * only what follows the echo, while `run_find` searches the whole text.
   */
  lemma OnlyRunStripsEcho(provider: Provider, chat: seq<Turn>, sampling: Sampling, prefix: string,
                          p: Pattern, isGen: bool, saveStopText: bool, regex: UserRegex, reply: string, tail: string)
    requires WellFormed(regex)
    ensures var f := FetchStep(provider, chat, sampling, prefix, reply);
      f.Success? && f.value.pending == Strip(Last(chat).content) + tail ==>
        && RunSpec(provider, chat, sampling, "", prefix, p, isGen, saveStopText, reply)
             == Settle(MatchStep(p, tail, isGen, saveStopText), tail, f.value.prefix, Some(f.value.request))
        && RunFindSpec(provider, chat, sampling, "", prefix, regex, reply)
             == FindIn(regex, Strip(Last(chat).content) + tail, f.value.prefix, Some(f.value.request))
  {
    var f := FetchStep(provider, chat, sampling, prefix, reply);
    if f.Success? && f.value.pending == Strip(Last(chat).content) + tail {
      var e := Strip(Last(chat).content);
      assert (e + tail)[|e|..] == tail;
    }
  }

  /**
   * Consecutive Finds on non-empty pending text search the same text and
   * neither fetch nor advance it.
   */
  lemma FindsShareText(provider: Provider, chat: seq<Turn>, sampling: Sampling, pending: string, prefix: string,
                       r1: UserRegex, r2: UserRegex, reply1: string, reply2: string)
    requires WellFormed(r1) && WellFormed(r2) && pending != ""
    ensures var o1 := RunFindSpec(provider, chat, sampling, pending, prefix, r1, reply1);
      var o2 := RunFindSpec(provider, chat, sampling, o1.pending, o1.prefix, r2, reply2);
      o1.sent.None? && o2.sent.None? && o2.pending == pending && o2.prefix == prefix
  {
  }


  /**
   * `_consume_assistant_text`: `value` is appended to `prefix_text`; if it
   * occurs in the pending text, the pending text advances just past its first
   * occurrence and `prefix_text` is reset, otherwise the pending text is
   * dropped and the accumulated `prefix_text` kept.
   */
  function ConsumeSpec(pending: string, prefix: string, value: string): (b: Buffers)
    ensures |b.pending| <= |pending|
    ensures (exists j :: OccursAt(value, pending, j)) ==>
      && b.prefix == ""
      && var cut := |pending| - |b.pending|;
         && |value| <= cut
         && pending == pending[..cut - |value|] + value + b.pending
         && forall j :: 0 <= j < cut - |value| ==> !OccursAt(value, pending, j)
    ensures (forall j :: !OccursAt(value, pending, j)) ==> b == Buffers("", prefix + value)
  {
    var acc := prefix + value;
    match FirstOccurrence(value, pending)
    case Some(j) =>
      assert pending == pending[..j] + value + pending[j + |value|..];
      Buffers(pending[j + |value|..], "")
    case None => Buffers("", acc)
  }

  /** Text consumed while nothing is pending is remembered for the next strict-turn reply. */
  lemma ConsumeAccumulatesPrefix(prefix: string, a: string, b: string)
    requires a != "" && b != ""
    ensures var s1 := ConsumeSpec("", prefix, a);
      ConsumeSpec(s1.pending, s1.prefix, b) == Buffers("", prefix + a + b)
  {
  }

}
