/** The side-effect-free decisions of the main block: argument validation
    (konadl_cli.py:219-234) and engine dispatch (konadl_cli.py:236-248). */
module Modes {
  import opened Arguments

  /** The branch of the dispatch chain that runs; NoEngineCall when none matches. */
  datatype RunMode =
    | Resume
    | Update
    | CrawlPages(n: int)
    | CrawlAll
    | CrawlPage(page: int)
    | NoEngineCall

  /** The verdict of the two validation checks. Only NoRating ends the
      program; NoScope prints guidance and carries on. */
  datatype Verdict = NoRating | NoScope | Accepted

  /** The position of a mode in the dispatch priority; NoEngineCall comes last. */
  function Rank(m: RunMode): nat
  {
    match m
    case Resume => 0
    case Update => 1
    case CrawlPages(_) => 2
    case CrawlAll => 3
    case CrawlPage(_) => 4
    case NoEngineCall => 5
  }

  /** The five intents the dispatch looks at, highest priority first. */
  function Intents(a: Args, load: bool): seq<bool>
  {
    [load, a.update, Truthy(a.pages), a.all, Truthy(a.page)]
  }

  /** The index of the first set flag, or |flags| when none is set. */
  function FirstSet(flags: seq<bool>): (i: nat)
    ensures i <= |flags|
    ensures forall j :: 0 <= j < i ==> !flags[j]
    ensures i < |flags| ==> flags[i]
  {
    if flags == [] then 0
    else if flags[0] then 0
    else 1 + FirstSet(flags[1..])
  }

  /** The two checks of lines 219 and 227, the first that fails deciding. */
  function Validate(a: Args, load: bool): (v: Verdict)
    ensures v == NoRating <==> !AnyRating(a) && !load && !a.update
    ensures v == NoScope <==> AnyRating(a) && !HasScope(a) && !load && !a.update
    ensures (load || a.update) ==> v == Accepted
  {
    if !a.safe && !a.questionable && !a.explicit && !load && !a.update then NoRating
    else if !Truthy(a.pages) && !a.all && !Truthy(a.page) && !load && !a.update then NoScope
    else Accepted
  }

  /** The if/elif chain of lines 236-248, with Python truthiness for -n and -p. */
  function SelectMode(a: Args, load: bool): (m: RunMode)
    ensures m.CrawlPages? ==> Truthy(a.pages) && m.n == a.pages.value
    ensures m.CrawlPage? ==> Truthy(a.page) && m.page == a.page.value
    ensures m == NoEngineCall <==> !load && !a.update && !HasScope(a)
  {
    if load then Resume
    else if a.update then Update
    else if Truthy(a.pages) then CrawlPages(a.pages.value)
    else if a.all then CrawlAll
    else if Truthy(a.page) then CrawlPage(a.page.value)
    else NoEngineCall
  }

  /** The dispatch takes the first intent that is set, in the priority
      resume > update > pages > all > page; every lower intent is ignored. */
  lemma DispatchPicksFirstIntent(a: Args, load: bool)
    ensures Rank(SelectMode(a, load)) == FirstSet(Intents(a, load))
  {
    var flags, m := Intents(a, load), SelectMode(a, load);
    var i, k := FirstSet(flags), Rank(m);
    // the selected mode's own intent is set and every earlier one is clear
    assert k < 5 ==> flags[k];
    assert forall j :: 0 <= j < k ==> !flags[j];
  }

  /** -n 0 and -p 0 behave exactly as if the option had not been given. */
  lemma ZeroMeansAbsent(a: Args, load: bool)
    ensures SelectMode(a.(pages := Some(0)), load) == SelectMode(a.(pages := None), load)
    ensures SelectMode(a.(page := Some(0)), load) == SelectMode(a.(page := None), load)
    ensures Validate(a.(pages := Some(0)), load) == Validate(a.(pages := None), load)
    ensures Validate(a.(page := Some(0)), load) == Validate(a.(page := None), load)
  {
  }

  /** In resume or update mode the rating flags play no part: validation
      accepts and the dispatch is the same whatever ratings are set. */
  lemma RatingsIgnoredWhenResumingOrUpdating(a: Args, load: bool, s: bool, q: bool, e: bool)
    requires load || a.update
    ensures var b := a.(safe := s, questionable := q, explicit := e);
      Validate(b, load) == Accepted && SelectMode(b, load) == SelectMode(a, load)
  {
  }

  /** The validation verdicts and the dispatch agree: an accepted run always
      reaches an engine call, a run without scope never does, and a run
      without ratings (which exits before dispatch) is always a fresh crawl. */
  lemma VerdictMatchesDispatch(a: Args, load: bool)
    ensures Validate(a, load) == Accepted ==> SelectMode(a, load) != NoEngineCall
    ensures Validate(a, load) == NoScope ==> SelectMode(a, load) == NoEngineCall
    ensures Validate(a, load) == NoRating ==> SelectMode(a, load) !in {Resume, Update}
  {
  }

  /** No branch of the dispatch is dead: every engine call the chain can make
      is made for some command line that validation accepts. */
  lemma EveryModeReachable(m: RunMode)
    requires m != NoEngineCall
    requires m.CrawlPages? ==> m.n != 0
    requires m.CrawlPage? ==> m.page != 0
    ensures exists a: Args, load: bool :: Validate(a, load) == Accepted && SelectMode(a, load) == m
  {
    var d := Defaults().(safe := true);
    match m
    case Resume =>
      assert Validate(d, true) == Accepted && SelectMode(d, true) == m;
    case Update =>
      var a := d.(update := true);
      assert Validate(a, false) == Accepted && SelectMode(a, false) == m;
    case CrawlPages(n) =>
      var a := d.(pages := Some(n));
      assert Validate(a, false) == Accepted && SelectMode(a, false) == m;
    case CrawlAll =>
      var a := d.(all := true);
      assert Validate(a, false) == Accepted && SelectMode(a, false) == m;
    case CrawlPage(p) =>
      var a := d.(page := Some(p));
      assert Validate(a, false) == Accepted && SelectMode(a, false) == m;
  }
}
