/** Problem descriptors and the errors the engine classifies. */
module Problems {
  import opened Proto
  import opened Runcontext

  /** One recognisable failure signature. `matches` is the compiled regular
      expression's unanchored match against an error message; `suggestion`
      derives the remedies from the run context; `description` renders the
      message shown for a matched error. */
  datatype Problem = Problem(
    matches: string -> bool,
    errCode: StatusCode,
    suggestion: RunContext -> Suggestions,
    description: string -> string)

  /** An error as the engine sees it, after unwrapping:
      - `SkaffoldErr`: a value that already carries its status code and suggestions;
      - `ProblemErr`: a known problem bound to the message of the error it matched;
      - `Raw`: any other error, known only by its message. */
  datatype Err =
    | SkaffoldErr(code: StatusCode, suggestions: Suggestions, text: string)
    | ProblemErr(problem: Problem, cause: string)
    | Raw(text: string)

  /** The error's message, as `err.Error()` returns it. */
  function Message(e: Err): string {
    match e
    case SkaffoldErr(_, _, text) => text
    case ProblemErr(p, cause) => p.description(cause)
    case Raw(text) => text
  }

  /** Whether the error already carries a classification. */
  predicate Classified(e: Err) {
    !e.Raw?
  }

  /** `ps[i]` is the first descriptor of `ps` whose pattern matches `msg`. */
  ghost predicate IsFirstMatch(ps: seq<Problem>, msg: string, i: int) {
    && 0 <= i < |ps|
    && ps[i].matches(msg)
    && forall j :: 0 <= j < i ==> !ps[j].matches(msg)
  }

  /** No descriptor of `ps` matches `msg`. */
  ghost predicate NoMatch(ps: seq<Problem>, msg: string) {
    forall j :: 0 <= j < |ps| ==> !ps[j].matches(msg)
  }

  /** The scan over a descriptor list in declaration order, stopping at the
      first descriptor whose pattern matches the message: its index, if any. */
  function FirstMatch(ps: seq<Problem>, msg: string): (r: Wrappers.Option<nat>)
    ensures r.Some? ==> IsFirstMatch(ps, msg, r.value)
    ensures r.None? ==> NoMatch(ps, msg)
  {
    if |ps| == 0 then Wrappers.None
    else if ps[0].matches(msg) then Wrappers.Some(0)
    else match FirstMatch(ps[1..], msg)
      case None => Wrappers.None
      case Some(i) => Wrappers.Some(i + 1)
  }

  /** An earlier match always wins: no descriptor after a matching one is chosen. */
  lemma EarlierMatchWins(ps: seq<Problem>, msg: string, i: int)
    requires 0 <= i < |ps| && ps[i].matches(msg)
    ensures FirstMatch(ps, msg).Some?
    ensures FirstMatch(ps, msg).value <= i
  {
  }

  /** The first match in `a + b` lies in `a` when `a` has one, otherwise it is
      `b`'s first match, shifted by `|a|`. */
  lemma FirstMatchOfConcat(a: seq<Problem>, b: seq<Problem>, msg: string)
    ensures forall i :: IsFirstMatch(a, msg, i) ==> IsFirstMatch(a + b, msg, i)
    ensures NoMatch(a, msg) ==>
      forall i :: IsFirstMatch(b, msg, i) ==> IsFirstMatch(a + b, msg, |a| + i)
    ensures NoMatch(a, msg) && NoMatch(b, msg) ==> NoMatch(a + b, msg)
  {
  }
}
