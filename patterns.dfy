/**
 * The pattern compiler of `ModelAPI`: the regular expressions built for Gen and
 * Select fields, and a concrete matcher for exactly those shapes. Stop patterns
 * are read as literal strings and `\d` as ASCII digits. Find's user regex is an
 * oracle (`UserRegex`) that reports the span of its first match.
 */
module Patterns {
  import opened Wrappers
  import opened Text

  datatype Pattern =
    | LazyAny                        // (.*?)
    | LazyAnyThenStop(stop: string)  // (.*?)(stop)
    | Alt(options: seq<string>)      // (o1|o2|...) with every option escaped
    | Digits                         // (\d+)

  /** `match.group()` and `match.group(1)` of a successful match. */
  datatype Groups = Groups(whole: string, first: string)

  /** A match found by a search, with the index where it starts. */
  datatype Found = Found(start: nat, groups: Groups)

  /** The half-open span `[start, end)` of a match. */
  datatype Span = Span(start: nat, end: nat)

  /** A user regex of a Find field: its source text and its first-match search. */
  datatype UserRegex = UserRegex(source: string, firstMatch: string -> Option<Span>)

  /** The regex engine reports spans that lie inside the searched text. */
  ghost predicate WellFormed(r: UserRegex) {
    forall s :: r.firstMatch(s).Some? ==> r.firstMatch(s).value.start <= r.firstMatch(s).value.end <= |s|
  }

  predicate IsSign(c: char) {
    c == '+' || c == '-'
  }

  /** `can_be_int`: an optional sign followed by one or more ASCII digits. */
  function CanBeInt(s: string): (r: bool)
    ensures r <==> && |s| > 0
                   && (IsDigit(s[0]) || IsSign(s[0]))
                   && IsDigit(s[|s| - 1])
                   && forall k :: 1 <= k < |s| ==> IsDigit(s[k])
  {
    var digits := if |s| > 0 && IsSign(s[0]) then s[1..] else s;
    assert forall k :: 0 <= k < |digits| ==> digits[k] == s[k + |s| - |digits|];
    |digits| > 0 && forall k :: 0 <= k < |digits| ==> IsDigit(digits[k])
  }

  /**
   * Decimal rendering of a natural number, as Python's `str` writes it. The
   * library never renders integers; this rendering exists only to check
   * `CanBeInt` against the strings Python's `str(int)` produces.
   */
  function NatString(n: nat): (r: string)
    ensures |r| > 0 && forall k :: 0 <= k < |r| ==> IsDigit(r[k])
  {
    var d := ['0' + (n % 10) as char];
    if n < 10 then d else NatString(n / 10) + d
  }

  /** Decimal rendering of an integer, as Python's `str` writes it. */
  function IntString(n: int): string {
    if n < 0 then "-" + NatString(-n) else NatString(n)
  }

  /** A sanity check of `CanBeInt`: every integer Python renders is one `can_be_int` accepts. */
  lemma RenderedIntegersCanBeInt(n: int)
    ensures CanBeInt(IntString(n))
  {
  }


  /**
   * The pattern of a Gen field: `(.*?)` without a stop, `(.*?)(stop)` with one;
   * never one of the shapes a Select compiles to.
   */
  function GenPattern(stop: Option<string>): (p: Pattern)
    ensures !p.Alt? && p != Digits
    ensures p == LazyAny <==> stop.None?
    ensures stop.Some? ==> p == LazyAnyThenStop(stop.value)
  {
    match stop
    case None => LazyAny
    case Some(s) => LazyAnyThenStop(s)
  }

  /**
   * What a Gen pattern matches at the start of `t`: without a stop, the empty
   * string; with one, everything before the first occurrence of the stop (as
   * group 1) and the stop after it, and nothing when the stop never occurs.
   */
  lemma GenPatternMatch(stop: Option<string>, t: string)
    ensures stop.None? ==> MatchPrefix(GenPattern(stop), t) == Some(Groups("", ""))
    ensures stop.Some? ==> (MatchPrefix(GenPattern(stop), t).Some? <==> FirstOccurrence(stop.value, t).Some?)
    ensures stop.Some? && FirstOccurrence(stop.value, t).Some? ==>
      var j := FirstOccurrence(stop.value, t).value;
      var g := MatchPrefix(GenPattern(stop), t).value;
      g.first == t[..j] && g.whole == t[..j] + stop.value
  {
    if stop.Some? && FirstOccurrence(stop.value, t).Some? {
      var j := FirstOccurrence(stop.value, t).value;
      assert t[j..j + |stop.value|] == stop.value;
      assert t[..j + |stop.value|] == t[..j] + t[j..j + |stop.value|];
    }
  }

  /** The pattern of a Select field. */
  function SelectPattern(options: seq<string>): (p: Pattern)
    ensures p == Digits <==> forall k :: 0 <= k < |options| ==> CanBeInt(options[k])
    ensures p != Digits ==> p == Alt(options) && |options| > 0
  {
    if forall k :: 0 <= k < |options| ==> CanBeInt(options[k]) then Digits else Alt(options)
  }

  /** Index of the first listed option that is a prefix of `t`. */
  function FirstPrefixOption(options: seq<string>, t: string): (r: Option<nat>)
    ensures r.Some? ==> r.value < |options| && options[r.value] <= t
    ensures r.Some? ==> forall j :: 0 <= j < r.value ==> !(options[j] <= t)
    ensures r.None? ==> forall j :: 0 <= j < |options| ==> !(options[j] <= t)
  {
    if options == [] then None
    else if options[0] <= t then Some(0)
    else match FirstPrefixOption(options[1..], t)
      case None => None
      case Some(k) => Some(k + 1)
  }

  /** Length of the run of digits at the start of `t`. */
  function DigitRun(t: string): (n: nat)
    ensures n <= |t|
    ensures forall k :: 0 <= k < n ==> IsDigit(t[k])
    ensures n < |t| ==> !IsDigit(t[n])
  {
    if t != [] && IsDigit(t[0]) then 1 + DigitRun(t[1..]) else 0
  }

  /**
   * `regex.match(p, t, regex.DOTALL)`: the match of `p` anchored at the start
   * of `t`, if there is one.
   */
  function MatchPrefix(p: Pattern, t: string): (r: Option<Groups>)
    ensures r.Some? ==> r.value.first <= r.value.whole <= t
  {
    match p
    case LazyAny => Some(Groups("", ""))
    case LazyAnyThenStop(stop) =>
      (match FirstOccurrence(stop, t)
       case None => None
       case Some(j) => Some(Groups(t[..j + |stop|], t[..j])))
    case Alt(options) =>
      (match FirstPrefixOption(options, t)
       case None => None
       case Some(k) => Some(Groups(options[k], options[k])))
    case Digits =>
      var n := DigitRun(t);
      if n == 0 then None else Some(Groups(t[..n], t[..n]))
  }

  /** The leftmost position at or after `from` where the anchored matcher `m` succeeds. */
  function SearchFrom(m: string -> Option<Groups>, s: string, from: nat): (r: Option<Found>)
    requires from <= |s|
    ensures r.Some? ==> from <= r.value.start <= |s|
    ensures r.Some? ==> m(s[r.value.start..]) == Some(r.value.groups)
    ensures r.Some? ==> forall j :: from <= j < r.value.start ==> m(s[j..]).None?
    ensures r.None? ==> forall j :: from <= j <= |s| ==> m(s[j..]).None?
    decreases |s| - from
  {
    var here := m(s[from..]);
    if here.Some? then Some(Found(from, here.value))
    else if from == |s| then None
    else SearchFrom(m, s, from + 1)
  }

  /** `regex.search(p, s)`, which is also the first element of `regex.findall(p, s)`. */
  function Search(p: Pattern, s: string): (r: Option<Found>)
    ensures r.Some? ==> r.value.start <= |s| && MatchPrefix(p, s[r.value.start..]) == Some(r.value.groups)
    ensures r.Some? ==> forall j :: 0 <= j < r.value.start ==> MatchPrefix(p, s[j..]).None?
    ensures r.None? ==> forall j :: 0 <= j <= |s| ==> MatchPrefix(p, s[j..]).None?
  {
    SearchFrom(t => MatchPrefix(p, t), s, 0)
  }

  /** When the pattern matches at the start, the search reports that very match. */
  lemma AnchoredMatchIsFirstFound(p: Pattern, s: string)
    requires MatchPrefix(p, s).Some?
    ensures Search(p, s) == Some(Found(0, MatchPrefix(p, s).value))
  {
  }


  /**
   * A Gen pattern matches at the start of every text it matches anywhere in,
   * so the "found later" branch of `run` is never taken for a Gen field.
   */
  lemma GenPatternAnchors(stop: Option<string>, s: string)
    requires Search(GenPattern(stop), s).Some?
    ensures MatchPrefix(GenPattern(stop), s).Some?
  {
    if stop.Some? {
      var f := Search(GenPattern(stop), s).value;
      var t := s[f.start..];
      var j := FirstOccurrence(stop.value, t).value;
      assert t[j..] == s[f.start + j..];
      assert OccursAt(stop.value, s, f.start + j);
    }
  }

  /** A stop pattern matches up to and including the first occurrence of the stop. */
  lemma StopMatchIsFirstOccurrence(stop: string, t: string)
    ensures MatchPrefix(LazyAnyThenStop(stop), t).None? <==> forall j :: !OccursAt(stop, t, j)
    ensures MatchPrefix(LazyAnyThenStop(stop), t).Some? ==>
      var g := MatchPrefix(LazyAnyThenStop(stop), t).value;
      && g.whole == g.first + stop
      && OccursAt(stop, t, |g.first|)
      && forall j :: 0 <= j < |g.first| ==> !OccursAt(stop, t, j)
  {
  }


  /**
   * Of the options that are a prefix of the text, the earliest listed is the
   * one an alternation matches.
   */
  lemma AltEarliestListedWins(options: seq<string>, t: string, k: nat)
    requires k < |options| && options[k] <= t
    requires forall j :: 0 <= j < k ==> !(options[j] <= t)
    ensures MatchPrefix(Alt(options), t) == Some(Groups(options[k], options[k]))
  {
  }


  /** An alternation matches only when some option is a prefix of the text. */
  lemma AltMatchesSomeOption(options: seq<string>, t: string)
    ensures MatchPrefix(Alt(options), t).Some? <==> exists k :: 0 <= k < |options| && options[k] <= t
  {
  }


  /**
   * A search with an alternation takes the leftmost position at which any
   * option occurs: listing order breaks ties only at one position.
   */
  lemma AltLeftmostPositionWins(options: seq<string>, s: string)
    requires Search(Alt(options), s).Some?
    ensures forall j, k :: 0 <= j < Search(Alt(options), s).value.start && 0 <= k < |options| ==>
      !(options[k] <= s[j..])
  {
  }


  /** The digit pattern matches the maximal non-empty run of leading digits. */
  lemma DigitsMatchIsMaximalRun(t: string)
    ensures MatchPrefix(Digits, t).None? <==> (t == [] || !IsDigit(t[0]))
    ensures MatchPrefix(Digits, t).Some? ==>
      var w := MatchPrefix(Digits, t).value.whole;
      && |w| > 0
      && (forall k :: 0 <= k < |w| ==> IsDigit(w[k]))
      && (|w| < |t| ==> !IsDigit(t[|w|]))
      && MatchPrefix(Digits, t).value.first == w
  {
  }

}
