/** Ranking of observation policies, and the coverage of changed points by a delivered region. Scores are exact
    reals, and policies are identifiers in the order their names compare. */
module PolicyRanking {
  import opened Arithmetic
  import opened Basics
  import opened Governor

  // ---------------------------------------------------------------- scoring

  datatype ScoreInput = ScoreInput(
    policy: Id, actions: real, guardsPassed: real, perceptual: real, delivered: real, retained: real,
    fullBytes: real, deliveredBytes: real, transient: bool)

  datatype RankingError =
    | NoInputs
    | Duplicate(policy: Id) | Negative(policy: Id) | NotInteger(policy: Id) | Inconsistent(policy: Id)

  datatype Card = Card(input: ScoreInput, byteEfficiency: real, guardReliability: real, perceptualCoverage: real,
                       exactRetention: real, transientRetention: real, score: real, paretoOptimal: bool)

  function BoundedRatio(numerator: real, denominator: real): real {
    if denominator <= 0.0 then 0.0
    else
      var q := numerator / denominator;
      if q < 0.0 then 0.0 else if q > 1.0 then 1.0 else q
  }

  predicate Whole(x: real) { x.Floor as real == x }

  /** The first check an input fails, given the policies before it. */
  function Check(input: ScoreInput, seen: set<Id>): Option<RankingError> {
    if input.policy in seen then Some(Duplicate(input.policy))
    else if input.actions < 0.0 || input.guardsPassed < 0.0 || input.perceptual < 0.0 || input.delivered < 0.0
      || input.retained < 0.0 || input.fullBytes < 0.0 || input.deliveredBytes < 0.0 then Some(Negative(input.policy))
    else if !Whole(input.actions) || !Whole(input.guardsPassed) || !Whole(input.perceptual) || !Whole(input.delivered)
      || !Whole(input.retained) then Some(NotInteger(input.policy))
    else if input.guardsPassed > input.actions || input.retained > input.actions || input.delivered > input.perceptual
      then Some(Inconsistent(input.policy))
    else None
  }

  function CardOf(input: ScoreInput): Card {
    var byteEfficiency := if input.fullBytes > 0.0 then 1.0 - BoundedRatio(input.deliveredBytes, input.fullBytes)
                          else 0.0;
    var guardReliability := BoundedRatio(input.guardsPassed, input.actions);
    var perceptualCoverage := BoundedRatio(input.delivered, input.perceptual);
    var exactRetention := BoundedRatio(input.retained, input.actions);
    var transientRetention := if input.transient then 1.0 else 0.0;
    Card(input, byteEfficiency, guardReliability, perceptualCoverage, exactRetention, transientRetention,
         byteEfficiency * 0.25 + perceptualCoverage * 0.25 + exactRetention * 0.25 + transientRetention * 0.1
         + guardReliability * 0.15,
         false)
  }

  predicate AtLeast(a: Card, b: Card) {
    && a.byteEfficiency >= b.byteEfficiency && a.perceptualCoverage >= b.perceptualCoverage
    && a.exactRetention >= b.exactRetention
    && a.transientRetention >= b.transientRetention && a.guardReliability >= b.guardReliability
  }

  predicate Dominates(a: Card, b: Card) {
    && a.input.policy != b.input.policy && AtLeast(a, b)
    && (a.byteEfficiency > b.byteEfficiency || a.perceptualCoverage > b.perceptualCoverage
        || a.exactRetention > b.exactRetention
        || a.transientRetention > b.transientRetention || a.guardReliability > b.guardReliability)
  }

  predicate Dominated(cards: seq<Card>, c: Card) { exists other :: other in cards && Dominates(other, c) }

  /** How `sort` compares: the higher score first, then the policy. */
  predicate Precedes(a: Card, b: Card) {
    a.score > b.score || (a.score == b.score && a.input.policy <= b.input.policy)
  }

  function Insert(c: Card, sorted: seq<Card>): (r: seq<Card>)
    ensures multiset(r) == multiset(sorted) + multiset{c}
  {
    if sorted == [] || Precedes(c, sorted[0]) then [c] + sorted
    else
      assert sorted == [sorted[0]] + sorted[1..];
      [sorted[0]] + Insert(c, sorted[1..])
  }

  function SortCards(cards: seq<Card>): (r: seq<Card>)
    ensures multiset(r) == multiset(cards)
  {
    if cards == [] then []
    else
      assert cards == [cards[0]] + cards[1..];
      Insert(cards[0], SortCards(cards[1..]))
  }

  ghost predicate IsSorted(cards: seq<Card>) {
    forall i, j :: 0 <= i < j < |cards| ==> Precedes(cards[i], cards[j])
  }

  lemma MembersOf(a: seq<Card>, b: seq<Card>, c: Card)
    requires multiset(a) == multiset(b)
    ensures c in a <==> c in b
  {
    assert c in multiset(a) <==> c in multiset(b);
  }

  lemma {:induction false} InsertKeepsSorted(c: Card, sorted: seq<Card>)
    requires IsSorted(sorted)
    ensures IsSorted(Insert(c, sorted))
  {
    if sorted != [] && !Precedes(c, sorted[0]) {
      InsertKeepsSorted(c, sorted[1..]);
      var rest := Insert(c, sorted[1..]);
      forall x | x in rest ensures Precedes(sorted[0], x) {
        assert x in multiset(rest);
        if x != c { assert x in sorted[1..]; }
      }
    }
  }

  lemma {:induction false} SortSorts(cards: seq<Card>)
    ensures IsSorted(SortCards(cards))
  {
    if cards != [] {
      SortSorts(cards[1..]);
      InsertKeepsSorted(cards[0], SortCards(cards[1..]));
    }
  }

  // ---------------------------------------------------------------- the ranking

  function Policies(inputs: seq<ScoreInput>, n: nat): set<Id>
    requires n <= |inputs|
  {
    set k | 0 <= k < n :: inputs[k].policy
  }

  /** The first failure in the order the inputs come. */
  function FirstError(inputs: seq<ScoreInput>, n: nat): Option<RankingError>
    requires n <= |inputs|
  {
    if n == 0 then None
    else if FirstError(inputs, n - 1).Some? then FirstError(inputs, n - 1)
    else Check(inputs[n - 1], Policies(inputs, n - 1))
  }

  function Marked(cards: seq<Card>): seq<Card> {
    seq(|cards|, i requires 0 <= i < |cards| => cards[i].(paretoOptimal := !Dominated(cards, cards[i])))
  }

  function Cards(inputs: seq<ScoreInput>): seq<Card> {
    seq(|inputs|, i requires 0 <= i < |inputs| => CardOf(inputs[i]))
  }

  datatype Ranking = Ranking(cards: seq<Card>, recommended: Id)

  function RankingOf(inputs: seq<ScoreInput>): Result<Ranking, RankingError> {
    if inputs == [] then Err(NoInputs)
    else if FirstError(inputs, |inputs|).Some? then Err(FirstError(inputs, |inputs|).value)
    else
      var cards := SortCards(Marked(Cards(inputs)));
      assert |multiset(cards)| == |cards|;
      Ok(Ranking(cards, cards[0].input.policy))
  }

  lemma MarkingKeepsTheMeasures(a: Card, b: Card, x: bool, y: bool)
    ensures Dominates(a.(paretoOptimal := x), b.(paretoOptimal := y)) == Dominates(a, b)
  {
  }

  method IsDominated(cards: array<Card>, c: Card) returns (found: bool)
    ensures found == Dominated(cards[..], c)
  {
    for k := 0 to cards.Length
      invariant forall j :: 0 <= j < k ==> !Dominates(cards[j], c)
    {
      if Dominates(cards[k], c) { return true; }
    }
    found := false;
  }

  /** The in-place marking: the flags written so far do not disturb the comparisons still to come. */
  method MarkPareto(cards: array<Card>)
    modifies cards
    ensures cards[..] == Marked(old(cards[..]))
  {
    ghost var was := cards[..];
    for k := 0 to cards.Length
      invariant forall j :: 0 <= j < k ==> cards[j] == Marked(was)[j]
      invariant forall j :: k <= j < cards.Length ==> cards[j] == was[j]
    {
      assert Dominated(cards[..], cards[k]) == Dominated(was, was[k]) by {
        forall j | 0 <= j < cards.Length
          ensures Dominates(cards[j], cards[k]) == Dominates(was[j], was[k])
        {
          MarkingKeepsTheMeasures(was[j], was[k], cards[j].paretoOptimal, was[k].paretoOptimal);
        }
        DominatedByIndex(cards[..], cards[k]);
        DominatedByIndex(was, was[k]);
      }
      var dominated := IsDominated(cards, cards[k]);
      cards[k] := cards[k].(paretoOptimal := !dominated);
    }
  }

  lemma DominatedByIndex(cards: seq<Card>, c: Card)
    ensures Dominated(cards, c) <==> exists j :: 0 <= j < |cards| && Dominates(cards[j], c)
  {
    if Dominated(cards, c) {
      var other :| other in cards && Dominates(other, c);
      var j :| 0 <= j < |cards| && cards[j] == other;
    }
  }

  method RankObservationPolicies(inputs: seq<ScoreInput>) returns (r: Result<Ranking, RankingError>)
    ensures r == RankingOf(inputs)
  {
    hide CardOf, Check;
    if inputs == [] { return Err(NoInputs); }
    var seen: set<Id> := {};
    var cards := new Card[|inputs|](i requires 0 <= i < |inputs| => CardOf(inputs[i]));
    for k := 0 to |inputs|
      invariant seen == Policies(inputs, k) && FirstError(inputs, k) == None
    {
      var error := Check(inputs[k], seen);
      if error.Some? {
        FirstErrorStays(inputs, k + 1, |inputs|);
        return Err(error.value);
      }
      seen := seen + {inputs[k].policy};
    }
    assert cards[..] == Cards(inputs);
    MarkPareto(cards);
    var sorted := SortCards(cards[..]);
    assert |multiset(sorted)| == |sorted|;
    r := Ok(Ranking(sorted, sorted[0].input.policy));
  }

  lemma {:induction false} FirstErrorStays(inputs: seq<ScoreInput>, k: nat, n: nat)
    requires k <= n <= |inputs| && FirstError(inputs, k).Some?
    ensures FirstError(inputs, n) == FirstError(inputs, k)
  {
    if k < n { FirstErrorStays(inputs, k, n - 1); }
  }

  // ---------------------------------------------------------------- what the ranking means

  lemma RatioInUnit(numerator: real, denominator: real)
    ensures 0.0 <= BoundedRatio(numerator, denominator) <= 1.0
  {
  }

  lemma MeasuresInUnit(input: ScoreInput)
    ensures var c := CardOf(input);
            && 0.0 <= c.byteEfficiency <= 1.0 && 0.0 <= c.guardReliability <= 1.0 && 0.0 <= c.perceptualCoverage <= 1.0
            && 0.0 <= c.exactRetention <= 1.0 && 0.0 <= c.transientRetention <= 1.0 && 0.0 <= c.score <= 1.0
  {
    hide BoundedRatio;
    RatioInUnit(input.deliveredBytes, input.fullBytes);
    RatioInUnit(input.guardsPassed, input.actions);
    RatioInUnit(input.delivered, input.perceptual);
    RatioInUnit(input.retained, input.actions);
  }

  /** `x` is the share `part` has of `whole`, and 0 of an empty whole. */
  predicate Share(x: real, part: real, whole: real) { if whole == 0.0 then x == 0.0 else x * whole == part }

  lemma RatioIsShare(numerator: real, denominator: real)
    requires 0.0 <= numerator && 0.0 <= denominator
    ensures Share(BoundedRatio(numerator, denominator), if numerator <= denominator then numerator else denominator,
                  denominator)
  {
    if denominator > 0.0 { QuotientAtMostIff(numerator, denominator, 1.0); }
  }

  /** What each measure of a card says about the input it was made from, and how they add up in hundredths. */
  predicate Measured(c: Card) {
    var i := c.input;
    && Share(c.byteEfficiency, if i.deliveredBytes < i.fullBytes then i.fullBytes - i.deliveredBytes
             else 0.0, i.fullBytes)
    && Share(c.guardReliability, i.guardsPassed, i.actions) && Share(c.exactRetention, i.retained, i.actions)
    && Share(c.perceptualCoverage, i.delivered, i.perceptual)
    && c.transientRetention == (if i.transient then 1.0 else 0.0)
    && c.score * 100.0 == (c.byteEfficiency + c.perceptualCoverage + c.exactRetention) * 25.0
                          + c.transientRetention * 10.0 + c.guardReliability * 15.0
  }

  lemma CardIsMeasured(input: ScoreInput)
    requires Plausible(input)
    ensures CardOf(input).input == input && Measured(CardOf(input))
  {
    hide BoundedRatio, Whole;
    RatioIsShare(input.guardsPassed, input.actions);
    RatioIsShare(input.retained, input.actions);
    RatioIsShare(input.delivered, input.perceptual);
    RatioIsShare(input.deliveredBytes, input.fullBytes);
    Complement(BoundedRatio(input.deliveredBytes, input.fullBytes), input.fullBytes);
  }

  lemma Complement(x: real, whole: real)
    ensures (1.0 - x) * whole == whole - x * whole
  {
  }

  ghost predicate Scored(c: Card) {
    c.score == c.byteEfficiency * 0.25 + c.perceptualCoverage * 0.25 + c.exactRetention * 0.25
             + c.transientRetention * 0.1 + c.guardReliability * 0.15
  }

  lemma DominanceRaisesScore(a: Card, b: Card)
    requires Scored(a) && Scored(b)
    ensures Dominates(a, b) ==> a.score > b.score
  {
  }

  lemma DominanceIsTransitive(a: Card, b: Card, c: Card)
    requires Dominates(a, b) && Dominates(b, c) && a.input.policy != c.input.policy
    ensures Dominates(a, c)
  {
  }

  ghost predicate Distinct(cards: seq<Card>) {
    forall a, b :: a in cards && b in cards && a.input.policy == b.input.policy ==> a == b
  }

  /** Among the cards that dominate `c`, one is dominated by none. */
  lemma {:induction false} TopDominator(cards: seq<Card>, c: Card, d: Card, bound: set<Card>) returns (top: Card)
    requires (forall x :: x in cards ==> Scored(x)) && Distinct(cards) && c in cards
    requires d in cards && Dominates(d, c) && bound == (set x | x in cards && x.score > d.score)
    ensures top in cards && Dominates(top, c) && !Dominated(cards, top)
    decreases bound
  {
    top := d;
    if Dominated(cards, d) {
      var e :| e in cards && Dominates(e, d);
      DominanceRaisesScore(e, d);
      DominanceRaisesScore(d, c);
      assert e.input.policy != c.input.policy;
      DominanceIsTransitive(e, d, c);
      var smaller := set x | x in cards && x.score > e.score;
      assert e in bound && e !in smaller && smaller <= bound;
      top := TopDominator(cards, c, e, smaller);
    }
  }

  /** Whole, non-negative counts that fit each other. */
  predicate Plausible(i: ScoreInput) {
    && 0.0 <= i.guardsPassed <= i.actions && 0.0 <= i.retained <= i.actions && 0.0 <= i.delivered <= i.perceptual
    && 0.0 <= i.fullBytes && 0.0 <= i.deliveredBytes
    && Whole(i.actions) && Whole(i.guardsPassed) && Whole(i.perceptual) && Whole(i.delivered) && Whole(i.retained)
  }

  lemma {:induction false} NoErrorIff(inputs: seq<ScoreInput>, n: nat)
    requires n <= |inputs|
    ensures FirstError(inputs, n).None?
      <==> (forall i :: 0 <= i < n ==> Plausible(inputs[i]))
           && (forall i, j :: 0 <= i < j < n ==> inputs[i].policy != inputs[j].policy)
  {
    hide Whole;
    if n > 0 { NoErrorIff(inputs, n - 1); }
  }

  /** A ranking exists exactly for distinct policies with plausible metrics. */
  lemma RankedIff(inputs: seq<ScoreInput>)
    ensures RankingOf(inputs).Ok?
      <==> inputs != [] && (forall i :: 0 <= i < |inputs| ==> Plausible(inputs[i]))
           && (forall i, j :: 0 <= i < j < |inputs| ==> inputs[i].policy != inputs[j].policy)
  {
    hide Plausible, FirstError;
    NoErrorIff(inputs, |inputs|);
  }

  function Inputs(cards: seq<Card>): seq<ScoreInput> { seq(|cards|, i requires 0 <= i < |cards| => cards[i].input) }

  lemma InputsOfParts(a: seq<Card>, b: seq<Card>)
    ensures Inputs(a + b) == Inputs(a) + Inputs(b)
  {
  }

  lemma {:induction false} InsertKeepsInputs(c: Card, sorted: seq<Card>)
    ensures multiset(Inputs(Insert(c, sorted))) == multiset(Inputs(sorted)) + multiset{c.input}
  {
    if sorted == [] || Precedes(c, sorted[0]) {
      InputsOfParts([c], sorted);
    } else {
      InsertKeepsInputs(c, sorted[1..]);
      InputsOfParts([sorted[0]], Insert(c, sorted[1..]));
      InputsOfParts([sorted[0]], sorted[1..]);
      assert sorted == [sorted[0]] + sorted[1..];
    }
  }

  lemma {:induction false} SortKeepsInputs(cards: seq<Card>)
    ensures multiset(Inputs(SortCards(cards))) == multiset(Inputs(cards))
  {
    if cards == [] {
      assert SortCards(cards) == cards;
    } else {
      SortKeepsInputs(cards[1..]);
      InsertKeepsInputs(cards[0], SortCards(cards[1..]));
      OneInputMore(cards);
    }
  }

  lemma OneInputMore(cards: seq<Card>)
    requires cards != []
    ensures multiset(Inputs(cards)) == multiset(Inputs(cards[1..])) + multiset{cards[0].input}
  {
    assert Inputs(cards) == [cards[0].input] + Inputs(cards[1..]);
  }

  lemma MarkedDominance(cards: seq<Card>, i: nat)
    requires i < |cards|
    ensures Dominated(Marked(cards), Marked(cards)[i]) == Dominated(cards, cards[i])
  {
    var marked := Marked(cards);
    DominatedByIndex(cards, cards[i]);
    DominatedByIndex(marked, marked[i]);
    forall j | 0 <= j < |cards|
      ensures Dominates(marked[j], marked[i]) == Dominates(cards[j], cards[i])
    {
      MarkingKeepsTheMeasures(cards[j], cards[i], marked[j].paretoOptimal, marked[i].paretoOptimal);
    }
  }

  /** Scores lie in [0, 1], and the flag says exactly whether another card dominates. */
  ghost predicate Fair(cards: seq<Card>) {
    && Distinct(cards)
    && (forall c :: c in cards ==> Scored(c) && 0.0 <= c.score <= 1.0 && (c.paretoOptimal <==> !Dominated(cards, c)))
  }

  lemma MarkedIsFair(inputs: seq<ScoreInput>)
    requires forall i, j :: 0 <= i < j < |inputs| ==> inputs[i].policy != inputs[j].policy
    ensures Fair(Marked(Cards(inputs)))
  {
    hide CardOf, Dominated;
    var marked := Marked(Cards(inputs));
    forall c | c in marked
      ensures Scored(c) && 0.0 <= c.score <= 1.0 && (c.paretoOptimal <==> !Dominated(marked, c))
    {
      var i :| 0 <= i < |marked| && marked[i] == c;
      CardMeans(inputs[i]);
      MarkedDominance(Cards(inputs), i);
    }
    forall a, b | a in marked && b in marked && a.input.policy == b.input.policy
      ensures a == b
    {
      var i :| 0 <= i < |marked| && marked[i] == a;
      var j :| 0 <= j < |marked| && marked[j] == b;
      CardMeans(inputs[i]);
      CardMeans(inputs[j]);
    }
  }

  lemma CardMeans(input: ScoreInput)
    ensures var c := CardOf(input); c.input == input && Scored(c) && 0.0 <= c.score <= 1.0
  {
    hide BoundedRatio;
    MeasuresInUnit(input);
  }

  lemma FairInAnyOrder(a: seq<Card>, b: seq<Card>)
    requires multiset(a) == multiset(b) && Fair(a)
    ensures Fair(b)
  {
    forall c ensures c in a <==> c in b { MembersOf(a, b, c); }
    forall c ensures Dominated(a, c) <==> Dominated(b, c) { }
  }

  /** The ranking: a permutation of the inputs in falling score, cards that measure their inputs, scores in [0, 1], a
      recommended card that is Pareto-optimal, and for every card that is not, an optimal one that dominates it. */
  ghost predicate SoundRanking(r: Ranking, inputs: seq<ScoreInput>) {
    && multiset(Inputs(r.cards)) == multiset(inputs) && IsSorted(r.cards)
    && (forall c :: c in r.cards ==> Measured(c) && 0.0 <= c.score <= 1.0)
    && (forall c :: c in r.cards ==> (c.paretoOptimal <==> !Dominated(r.cards, c)))
    && |r.cards| > 0 && r.recommended == r.cards[0].input.policy && r.cards[0].paretoOptimal
    && (forall c :: c in r.cards && !c.paretoOptimal ==> exists d :: d in r.cards && d.paretoOptimal && Dominates(d, c))
  }

  /** Every ranking is sound. */
  lemma RankingIsSound(inputs: seq<ScoreInput>)
    ensures RankingOf(inputs).Ok? ==> SoundRanking(RankingOf(inputs).value, inputs)
  {
    hide CardOf, Dominates, Scored, FirstError, SortCards, Measured, Plausible;
    if RankingOf(inputs).Ok? {
      NoErrorIff(inputs, |inputs|);
      AllMeasured(inputs);
      var marked := Marked(Cards(inputs));
      var cards := SortCards(marked);
      SortSorts(marked);
      SortKeepsInputs(marked);
      assert Inputs(marked) == inputs by {
        forall i | 0 <= i < |inputs| ensures marked[i].input == inputs[i] { CardMeans(inputs[i]); }
      }
      MarkedIsFair(inputs);
      FairInAnyOrder(marked, cards);
      assert |multiset(cards)| == |cards|;
      assert cards[0] in cards;
      FirstIsOptimal(cards);
      forall c | c in cards && !c.paretoOptimal
        ensures exists d :: d in cards && d.paretoOptimal && Dominates(d, c)
      {
        var d :| d in cards && Dominates(d, c);
        var top := TopDominator(cards, c, d, set x | x in cards && x.score > d.score);
      }
    }
  }

  lemma MarkIsNoMeasure(c: Card, marked: Card)
    requires Measured(c) && marked == c.(paretoOptimal := marked.paretoOptimal)
    ensures Measured(marked)
  {
    hide Share;
  }

  lemma AllMeasured(inputs: seq<ScoreInput>)
    requires forall i :: 0 <= i < |inputs| ==> Plausible(inputs[i])
    ensures forall c :: c in SortCards(Marked(Cards(inputs))) ==> Measured(c)
  {
    hide CardOf, Plausible, Dominated, Measured, Share, SortCards;
    var marked := Marked(Cards(inputs));
    forall c | c in SortCards(marked) ensures Measured(c) {
      MembersOf(SortCards(marked), marked, c);
      var i :| 0 <= i < |marked| && marked[i] == c;
      CardIsMeasured(inputs[i]);
      MarkIsNoMeasure(CardOf(inputs[i]), c);
    }
  }

  /** Two inputs alike but for the policy and the bytes they deliver. */
  predicate AlikeButForBytes(a: ScoreInput, b: ScoreInput) {
    a == b.(policy := a.policy, deliveredBytes := a.deliveredBytes)
  }

  /** Of two such inputs the lighter comes first, unless it saves nothing either: then the policy decides. */
  lemma LighterIsFirstIff(inputs: seq<ScoreInput>, i: nat, j: nat)
    requires RankingOf(inputs).Ok? && i < |RankingOf(inputs).value.cards| && j < |RankingOf(inputs).value.cards|
    ensures var a, b := RankingOf(inputs).value.cards[i].input, RankingOf(inputs).value.cards[j].input;
            AlikeButForBytes(a, b) && a.deliveredBytes < b.deliveredBytes ==>
              (i < j <==> a.deliveredBytes < a.fullBytes || a.policy < b.policy)
  {
    hide RankingOf, Plausible, Dominated, Dominates, FirstError, SortCards, Inputs;
    RankingIsSound(inputs);
    RankedDistinct(inputs, i, j);
    var cards := RankingOf(inputs).value.cards;
    var a, b := cards[i], cards[j];
    assert a in cards && b in cards;
    if AlikeButForBytes(a.input, b.input) && a.input.deliveredBytes < b.input.deliveredBytes {
      LighterScoresMore(a, b);
      assert i < j ==> Precedes(a, b);
      assert j < i ==> Precedes(b, a);
    }
  }

  lemma RankedDistinct(inputs: seq<ScoreInput>, i: nat, j: nat)
    requires RankingOf(inputs).Ok? && i < |RankingOf(inputs).value.cards| && j < |RankingOf(inputs).value.cards|
    ensures var cards := RankingOf(inputs).value.cards;
            && cards[i].input in inputs && cards[j].input in inputs && Plausible(cards[i].input)
            && Plausible(cards[j].input)
            && (cards[i].input.policy == cards[j].input.policy ==> cards[i].input == cards[j].input)
  {
    hide Dominated, Dominates, SortCards, Measured, Plausible, FirstError;
    RankedIff(inputs);
    RankingIsSound(inputs);
    var cards := RankingOf(inputs).value.cards;
    assert Inputs(cards)[i] in multiset(inputs) && Inputs(cards)[j] in multiset(inputs);
  }

  lemma LighterScoresMore(a: Card, b: Card)
    requires Measured(a) && Measured(b) && Plausible(a.input) && Plausible(b.input)
    requires AlikeButForBytes(a.input, b.input) && a.input.deliveredBytes < b.input.deliveredBytes
    ensures if a.input.deliveredBytes < a.input.fullBytes then a.score > b.score else a.score == b.score
  {
    hide Whole, Share;
    var i, k := a.input, b.input;
    SameShare(a.guardReliability, b.guardReliability, i.guardsPassed, i.actions);
    SameShare(a.exactRetention, b.exactRetention, i.retained, i.actions);
    SameShare(a.perceptualCoverage, b.perceptualCoverage, i.delivered, i.perceptual);
    var x := if i.deliveredBytes < i.fullBytes then i.fullBytes - i.deliveredBytes else 0.0;
    var y := if k.deliveredBytes < k.fullBytes then k.fullBytes - k.deliveredBytes else 0.0;
    LargerShare(a.byteEfficiency, b.byteEfficiency, x, y, i.fullBytes);
  }

  lemma SameShare(x: real, y: real, part: real, whole: real)
    requires Share(x, part, whole) && Share(y, part, whole) && whole >= 0.0
    ensures x == y
  {
    LargerShare(x, y, part, part, whole);
  }

  lemma LargerShare(x: real, y: real, part: real, less: real, whole: real)
    requires Share(x, part, whole) && Share(y, less, whole) && whole >= 0.0
    ensures part > less && whole > 0.0 ==> x > y
    ensures part == less ==> x == y
  {
    if whole > 0.0 {
      if x < y { ScaleRealStrictly(x, y, whole); }
      if y < x { ScaleRealStrictly(y, x, whole); }
    }
  }

  /** What the error of a refused list names: the first input that does not fit, and the first thing wrong with it. */
  predicate Names(inputs: seq<ScoreInput>, i: nat, e: RankingError)
    requires i < |inputs|
  {
    var input := inputs[i];
    if exists k :: 0 <= k < i && inputs[k].policy == input.policy then e == Duplicate(input.policy)
    else if input.actions < 0.0 || input.guardsPassed < 0.0 || input.perceptual < 0.0 || input.delivered < 0.0
            || input.retained < 0.0 || input.fullBytes < 0.0 || input.deliveredBytes < 0.0
    then e == Negative(input.policy)
    else if !(Whole(input.actions) && Whole(input.guardsPassed) && Whole(input.perceptual) && Whole(input.delivered)
              && Whole(input.retained))
    then e == NotInteger(input.policy)
    else e == Inconsistent(input.policy)
  }

  /** Integers are whole, and nothing between two of them is. */
  lemma WholeNumbers(n: int, x: real)
    ensures x == n as real ==> Whole(x)
    ensures Whole(x) && n as real < x ==> (n + 1) as real <= x
  {
    if Whole(x) && n as real < x { assert n + 1 <= x.Floor; }
  }

  lemma {:induction false} FirstErrorNames(inputs: seq<ScoreInput>, n: nat) returns (i: nat)
    requires n <= |inputs| && FirstError(inputs, n).Some?
    ensures i < n && FirstError(inputs, i).None? && Names(inputs, i, FirstError(inputs, n).value)
  {
    hide Whole;
    if FirstError(inputs, n - 1).Some? { i := FirstErrorNames(inputs, n - 1); } else { i := n - 1; }
  }

  /** A refused list is empty, or its error names the first input that does not fit those before it. */
  lemma RefusalNamesTheFirst(inputs: seq<ScoreInput>)
    ensures RankingOf(inputs).Err? ==>
              if inputs == [] then RankingOf(inputs).error == NoInputs
              else exists i :: 0 <= i < |inputs| && Names(inputs, i, RankingOf(inputs).error)
                               && (i > 0 ==> RankingOf(inputs[..i]).Ok?)
  {
    hide FirstError, Names;
    if RankingOf(inputs).Err? && inputs != [] {
      var i := FirstErrorNames(inputs, |inputs|);
      SamePrefix(inputs, inputs[..i], i);
    }
  }

  lemma {:induction false} SamePrefix(a: seq<ScoreInput>, b: seq<ScoreInput>, n: nat)
    requires n <= |a| && n <= |b| && a[..n] == b[..n]
    ensures FirstError(a, n) == FirstError(b, n)
  {
    hide Check;
    if n > 0 {
      assert a[..n - 1] == a[..n][..n - 1] == b[..n - 1];
      SamePrefix(a, b, n - 1);
      assert a[n - 1] == a[..n][n - 1] && b[n - 1] == b[..n][n - 1];
      forall k | 0 <= k < n - 1 ensures a[k] == b[k] { assert a[k] == a[..n][k]; }
      assert Policies(a, n - 1) == Policies(b, n - 1);
    }
  }

  lemma FirstIsOptimal(cards: seq<Card>)
    requires |cards| > 0 && Fair(cards) && IsSorted(cards)
    ensures cards[0].paretoOptimal
  {
    assert cards[0] in cards;
    forall d | d in cards
      ensures !Dominates(d, cards[0])
    {
      var k :| 0 <= k < |cards| && cards[k] == d;
      DominanceRaisesScore(d, cards[0]);
    }
  }

  // ---------------------------------------------------------------- coverage of changed points

  function Centre(cell: nat, grid: nat, size: nat): real
    requires grid > 0
  {
    ((2 * cell + 1) * size) as real / (2 * grid) as real
  }

  function CentreOf(v: View, block: nat): Point
    requires v.signature.width > 0 && v.signature.height > 0
  {
    Point(Centre(block % v.signature.width, v.signature.width, v.width),
          Centre(block / v.signature.width, v.signature.height, v.height))
  }

  /** The centres of the first `n` blocks, only of those that changed when there is a comparable previous frame. */
  function ChangedPointsTo(previous: Option<Signature>, v: View, threshold: real, n: nat): seq<Point>
    requires n <= Blocks(v.signature)
  {
    if n == 0 then []
    else
      RowOfBlock(v.signature, n - 1);
      var before := ChangedPointsTo(previous, v, threshold, n - 1);
      if Comparable(previous, v) && !Changed(previous.value, v.signature, threshold, n - 1) then before
      else before + [CentreOf(v, n - 1)]
  }

  predicate Comparable(previous: Option<Signature>, v: View) {
    previous.Some? && previous.value.width == v.signature.width && previous.value.height == v.signature.height
  }

  method ChangedPoints(previous: Option<Signature>, v: View, threshold: real) returns (points: seq<Point>)
    ensures points == ChangedPointsTo(previous, v, threshold, Blocks(v.signature))
  {
    hide Changed, CentreOf, Blocks;
    points := [];
    var n := Blocks(v.signature);
    if !Comparable(previous, v) {
      for block := 0 to n
        invariant points == ChangedPointsTo(previous, v, threshold, block)
      {
        RowOfBlock(v.signature, block);
        points := points + [CentreOf(v, block)];
      }
      return;
    }
    for block := 0 to n
      invariant points == ChangedPointsTo(previous, v, threshold, block)
    {
      if !Changed(previous.value, v.signature, threshold, block) { continue; }
      RowOfBlock(v.signature, block);
      points := points + [CentreOf(v, block)];
    }
  }

  predicate Inside(p: Point, c: Crop) {
    c.x as real <= p.x <= (c.x + c.width) as real && c.y as real <= p.y <= (c.y + c.height) as real
  }

  function CropCoverage(points: seq<Point>, crop: Option<Crop>): real {
    if points == [] then 0.0
    else if crop.None? then 1.0
    else |Filter((p: Point) => Inside(p, crop.value), points)| as real / |points| as real
  }

  lemma {:induction false} FilterLength<T>(p: T -> bool, s: seq<T>)
    ensures |Filter(p, s)| <= |s|
    ensures |Filter(p, s)| == |s| <==> forall x :: x in s ==> p(x)
  {
    if s != [] { FilterLength(p, s[1..]); }
  }

  lemma BelowOne(x: real, d: real, q: real)
    requires d > 0.0 && q * d == x && x < d
    ensures q < 1.0
  {
    ScaleReal(1.0, q, d);
  }

  lemma ShareIsWhole(part: nat, all: nat)
    requires 0 < all && part <= all
    ensures 0.0 <= part as real / all as real <= 1.0
    ensures part as real / all as real == 1.0 <==> part == all
  {
    var q := part as real / all as real;
    if part < all { BelowOne(part as real, all as real, q); }
  }

  /** Coverage is a share, and it is whole exactly when the region holds every changed point. */
  lemma CoverageIsFullIff(points: seq<Point>, crop: Option<Crop>)
    ensures 0.0 <= CropCoverage(points, crop) <= 1.0
    ensures CropCoverage(points, crop) == 1.0
       <==> points != [] && (crop.Some? ==> forall p :: p in points ==> Inside(p, crop.value))
  {
    if points != [] && crop.Some? {
      var p := (p: Point) => Inside(p, crop.value);
      FilterLength(p, points);
      ShareIsWhole(|Filter(p, points)|, |points|);
    }
  }

  /** The points the region holds, by position: two blocks may share a centre only in an empty frame. */
  function HeldBy(points: seq<Point>, c: Crop): set<int> {
    set i | 0 <= i < |points| && Holds(c, points[i].x, points[i].y)
  }

  predicate Holds(c: Crop, x: real, y: real) {
    !(x < c.x as real || x > c.x as real + c.width as real || y < c.y as real || y > c.y as real + c.height as real)
  }

  lemma InsideIsHeld(p: Point, c: Crop)
    ensures Inside(p, c) <==> Holds(c, p.x, p.y)
  {
  }

  lemma {:induction false} HeldAreCounted(points: seq<Point>, c: Crop)
    ensures |Filter((p: Point) => Inside(p, c), points)| == |HeldBy(points, c)|
  {
    hide Inside, Holds;
    if points != [] {
      var n, keep := |points| - 1, (p: Point) => Inside(p, c);
      var init := points[..n];
      HeldAreCounted(init, c);
      assert points == init + [points[n]];
      FilterConcat(keep, init, [points[n]]);
      InsideIsHeld(points[n], c);
      assert HeldBy(points, c) == HeldBy(init, c) + if Inside(points[n], c) then {n} else {};
    }
  }

  /** Without a region all points count as covered; with one, coverage is the share of them that it holds. */
  lemma CoverageCounts(points: seq<Point>, crop: Option<Crop>)
    ensures var held := if crop.None? then |points| else |HeldBy(points, crop.value)|;
            Share(CropCoverage(points, crop), held as real, |points| as real)
  {
    if crop.Some? { HeldAreCounted(points, crop.value); }
  }

  /** The points are the centres of the blocks that changed, or of all blocks without a comparable frame before. */
  lemma {:induction false} PointsAreCentresIff(previous: Option<Signature>, v: View, threshold: real, n: nat, p: Point)
    requires n <= Blocks(v.signature)
    ensures p in ChangedPointsTo(previous, v, threshold, n) <==>
              exists b: nat ::
                b < n && IsCentre(p, v, b)
                && (Comparable(previous, v) ==> Changed(previous.value, v.signature, threshold, b))
  {
    hide Changed, IsCentre, CentreOf;
    if n > 0 {
      RowOfBlock(v.signature, n - 1);
      PointsAreCentresIff(previous, v, threshold, n - 1, p);
      CentreIsUnique(p, v, n - 1);
    }
  }

  /** In a frame cut into the grid of the signature, `p` is the middle of the cell of this block. */
  predicate IsCentre(p: Point, v: View, block: nat)
    requires v.signature.width > 0
  {
    var cols, rows, col, row := v.signature.width, v.signature.height, block % v.signature.width,
      block / v.signature.width;
    && 2.0 * p.x * cols as real == (2 * col + 1) as real * v.width as real
    && 2.0 * p.y * rows as real == (2 * row + 1) as real * v.height as real
  }

  lemma CentreIsUnique(p: Point, v: View, block: nat)
    requires v.signature.width > 0 && v.signature.height > 0
    ensures IsCentre(p, v, block) <==> p == CentreOf(v, block)
  {
    CentreIs(p.x, block % v.signature.width, v.signature.width, v.width);
    CentreIs(p.y, block / v.signature.width, v.signature.height, v.height);
  }

  lemma CentreIs(x: real, cell: nat, grid: nat, size: nat)
    requires grid > 0
    ensures 2.0 * x * grid as real == (2 * cell + 1) as real * size as real <==> x == Centre(cell, grid, size)
  {
    var m, d := ((2 * cell + 1) * size) as real, (2 * grid) as real;
    assert m == (2 * cell + 1) as real * size as real;
    assert d == 2.0 * grid as real;
    assert 2.0 * x * grid as real == x * d;
    SameQuotient(x, m, d);
  }

  lemma SameQuotient(x: real, m: real, d: real)
    requires d > 0.0
    ensures x * d == m <==> x == m / d
  {
    assert m / d * d == m;
    assert (x - m / d) * d == x * d - m / d * d;
  }

  lemma CentreBetween(lo: int, hi: int, cell: nat, grid: nat, size: nat)
    requires grid > 0 && CentreWithin(lo, hi, cell, grid, size)
    ensures lo as real <= Centre(cell, grid, size) <= hi as real
  {
    var m, d := (2 * cell + 1) * size, 2 * grid;
    QuotientAtMostIff(m as real, d as real, hi as real);
    QuotientAtLeastReal(lo as real, m as real, d as real);
  }

  lemma QuotientAtLeastReal(q: real, x: real, d: real)
    requires d > 0.0 && q * d <= x
    ensures q <= x / d
  {
    assert (-q) * d == -(q * d);
    QuotientAtMostIff(-x, d, -q);
    assert (-x) / d == -(x / d);
  }

  lemma {:induction false} ShownPointsAreInside(previous: Signature, v: View, s: Settings, c: Crop, before: View,
                                                n: nat)
    requires n <= Blocks(v.signature) && before.signature == previous && Comparable(Some(previous), v)
             && ShowsChanges(c, before, v, s)
    ensures forall p :: p in ChangedPointsTo(Some(previous), v, s.block, n) ==> Inside(p, c)
  {
    hide Changed, CentreWithin, Centre, SampledAt;
    if n > 0 {
      ShownPointsAreInside(previous, v, s, c, before, n - 1);
      RowOfBlock(v.signature, n - 1);
      if Changed(previous, v.signature, s.block, n - 1) {
        assert Shows(c, v, n - 1);
        CentreBetween(c.x, c.x + c.width, (n - 1) % v.signature.width, v.signature.width, v.width);
        CentreBetween(c.y, c.y + c.height, (n - 1) / v.signature.width, v.signature.height, v.height);
      }
    }
  }

  /** The region covers all points that changed since the frame before. */
  ghost predicate CoversFully(before: View, v: View, s: Settings, crop: Option<Crop>) {
    CropCoverage(ChangedPointsTo(Some(before.signature), v, s.block, Blocks(v.signature)), crop) == 1.0
  }

  /** A region the governor delivers covers all points that changed since the frame before. */
  lemma GovernedRegionsCoverFully(g: GovernorState, s: Settings, v: View, cropRenders: bool)
    requires Checked(s) && Captured(v)
    ensures var o := Observed(g, s, v, cropRenders).1;
            o.Some? && o.value.disposition == Roi ==>
              g.previous.Some? && CoversFully(g.previous.value, v, s, o.value.crop)
  {
    hide DifferenceOf, CropOf, Exceeds, ShowsChanges, Changed, CropCoverage, InsideFrame;
    var o := Observed(g, s, v, cropRenders).1;
    if o.Some? && o.value.disposition == Roi {
      RegionShowsEveryChange(g, s, v, cropRenders);
      var p := g.previous.value;
      ShownPointsAreInside(p.signature, v, s, o.value.crop.value, p, Blocks(v.signature));
      CoverageIsFullIff(ChangedPointsTo(Some(p.signature), v, s.block, Blocks(v.signature)), o.value.crop);
      SomethingChanged(p.signature, v, s.block, Blocks(v.signature));
      assert DifferenceOf(p.signature, v.signature, s.block).bounds.Some?;
      BoundsMeanChange(p.signature, v, s.block);
    }
  }

  lemma BoundsMeanChange(p: Signature, v: View, threshold: real)
    ensures DifferenceOf(p, v.signature, threshold).bounds.Some?
            <==> ScanBlocks(p, v.signature, threshold, Blocks(v.signature)).changedBlocks > 0
  {
  }

  lemma {:induction false} SomethingChanged(p: Signature, v: View, threshold: real, n: nat)
    requires n <= Blocks(v.signature)
    ensures ScanBlocks(p, v.signature, threshold, n).changedBlocks > 0 ==>
            ChangedPointsTo(Some(p), v, threshold, n) != []
  {
    hide Changed, BlockDistance, CentreOf;
    if n > 0 { SomethingChanged(p, v, threshold, n - 1); }
  }
}
