/**
 * Tabu Search over polygon chromosomes. Every iteration perturbs the best
 * solution, retrying while the perturbed chromosome is in the tabu list, then
 * mutates it, scores it, records it in a bounded FIFO tabu list and keeps it
 * when its score is not larger. The score function is any deterministic
 * function of the chromosome. The random generator is an explicit stream of
 * unit variates.
 */
module TabuSearch {
  import opened Genes

  const TabuListLength: nat := 200
  const PolSize: nat := 3
  const PolCount: nat := 200
  /** Genes of one polygon: two coordinates per vertex, three colours and alpha. */
  const Chunk: nat := PolSize * 2 + 4
  /** The first CoordGenes genes of a polygon are vertex coordinates; the other four are colour and alpha. */
  const CoordGenes: nat := PolSize * 2
  const NumOfParams: nat := PolCount * Chunk
  const BoundsLow: real := 0.0
  const BoundsHigh: real := 1.0
  /** After more than this many non-improving iterations in a row, `exploration` is passed as true. */
  const StagnationLimit: nat := 10000
  /** Draws consumed by one perturbation attempt: one per coordinate gene, then one per colour gene. */
  const AttemptDraws: nat := PolCount * CoordGenes + PolCount * 4

  // ---------------------------------------------------------------------------
  // Gene indexing
  // ---------------------------------------------------------------------------

  /** Gene j of polygon i, as the nested loops address it. */
  function GeneIndex(i: nat, j: nat): nat {
    i * Chunk + j
  }

  /**
   * The nested loops' index i * Chunk + j, for i below PolCount and j below
   * Chunk, meets every gene of a chromosome exactly once: it is in range and
   * determines (i, j), and every gene index arises from one such pair.
   */
  lemma GeneIndexBijective(i: nat, j: nat, k: nat)
    ensures i < PolCount && j < Chunk ==>
      GeneIndex(i, j) < NumOfParams && GeneIndex(i, j) / Chunk == i && GeneIndex(i, j) % Chunk == j
    ensures k < NumOfParams ==> k / Chunk < PolCount && GeneIndex(k / Chunk, k % Chunk) == k
  {
  }

  // ---------------------------------------------------------------------------
  // perturbation: one attempt
  // ---------------------------------------------------------------------------

  /** The draw that shifts coordinate gene j of polygon i (the first pair of loops). */
  function CoordDraw(i: nat, j: nat): nat {
    i * CoordGenes + j
  }

  /** The draw that shifts colour gene c of polygon i (the second pair of loops). */
  function ColourDraw(i: nat, c: nat): nat {
    PolCount * CoordGenes + i * 4 + c
  }

  /** Coordinate gene k shifted by up to 0.005, not clamped. */
  function CoordShifted(elem: seq<real>, rs: seq<real>, k: nat): real
    requires k < NumOfParams && k < |elem| && AttemptDraws <= |rs| && k % Chunk < CoordGenes
  {
    elem[k] + Uniform(-0.005, 0.005, rs[CoordDraw(k / Chunk, k % Chunk)])
  }

  /** Colour gene k shifted by up to 0.05 and clamped to [0, 1]. */
  function ColourShifted(elem: seq<real>, rs: seq<real>, k: nat): real
    requires k < NumOfParams && k < |elem| && AttemptDraws <= |rs| && CoordGenes <= k % Chunk
  {
    Clamp01(elem[k] + Uniform(-0.05, 0.05, rs[ColourDraw(k / Chunk, k % Chunk - CoordGenes)]))
  }

  /** Gene k after one attempt: genes past NumOfParams are never touched. */
  function PerturbedGene(elem: seq<real>, rs: seq<real>, k: nat): real
    requires k < |elem| && AttemptDraws <= |rs|
  {
    if NumOfParams <= k then elem[k]
    else if k % Chunk < CoordGenes then CoordShifted(elem, rs, k)
    else ColourShifted(elem, rs, k)
  }

  /** What one pass of the two pairs of loops in `perturbation` computes. */
  function PerturbAttempt(elem: seq<real>, rs: seq<real>): (r: seq<real>)
    requires AttemptDraws <= |rs|
  {
    seq(|elem|, k requires 0 <= k < |elem| => PerturbedGene(elem, rs, k))
  }

  /** Gene k is reached by a loop over polygons and genes once the loop is at (i, j). */
  predicate Reached(i: nat, j: nat, k: nat) {
    k / Chunk < i || (k / Chunk == i && k % Chunk < j)
  }

  /** Gene k once the coordinate loops have reached polygon i, gene j. */
  function AfterCoordinates(elem: seq<real>, rs: seq<real>, i: nat, j: nat, k: nat): real
    requires k < |elem| && AttemptDraws <= |rs|
  {
    if k < NumOfParams && k % Chunk < CoordGenes && Reached(i, j, k) then CoordShifted(elem, rs, k) else elem[k]
  }

  /** Gene k once the coordinate loops are done and the colour loops have reached polygon i, gene j. */
  function AfterColours(elem: seq<real>, rs: seq<real>, i: nat, j: nat, k: nat): real
    requires k < |elem| && AttemptDraws <= |rs|
  {
    if k < NumOfParams && CoordGenes <= k % Chunk && Reached(i, j, k) then ColourShifted(elem, rs, k)
    else AfterCoordinates(elem, rs, PolCount, 0, k)
  }

  /**
   * One attempt of `perturbation`: copy the chromosome, shift every
   * coordinate gene polygon by polygon, then shift and clamp every colour
   * gene polygon by polygon, each shift taking the next draw of the stream.
   */
  method PerturbOnce(elem: seq<real>, rs: seq<real>) returns (perturbed: seq<real>)
    requires NumOfParams <= |elem| && AttemptDraws <= |rs|
    ensures perturbed == PerturbAttempt(elem, rs)
  {
    perturbed := elem;
    var pos := 0;
    for i := 0 to PolCount
      invariant |perturbed| == |elem| && pos == i * CoordGenes
      invariant forall k :: 0 <= k < |elem| ==> perturbed[k] == AfterCoordinates(elem, rs, i, 0, k)
    {
      for j := 0 to CoordGenes
        invariant |perturbed| == |elem| && pos == i * CoordGenes + j
        invariant forall k :: 0 <= k < |elem| ==> perturbed[k] == AfterCoordinates(elem, rs, i, j, k)
      {
        var g := i * Chunk + j;
        GeneIndexBijective(i, j, g);
        perturbed := perturbed[g := perturbed[g] + Uniform(-0.005, 0.005, rs[pos])];
        pos := pos + 1;
      }
    }
    for i := 0 to PolCount
      invariant |perturbed| == |elem| && pos == PolCount * CoordGenes + i * 4
      invariant forall k :: 0 <= k < |elem| ==> perturbed[k] == AfterColours(elem, rs, i, 0, k)
    {
      for j := CoordGenes to Chunk
        invariant |perturbed| == |elem| && pos == PolCount * CoordGenes + i * 4 + (j - CoordGenes)
        invariant forall k :: 0 <= k < |elem| ==> perturbed[k] == AfterColours(elem, rs, i, j, k)
      {
        var g := i * Chunk + j;
        GeneIndexBijective(i, j, g);
        perturbed := perturbed[g := perturbed[g] + Uniform(-0.05, 0.05, rs[pos])];
        if perturbed[g] < 0.0 {
          perturbed := perturbed[g := 0.0];
        } else if perturbed[g] > 1.0 {
          perturbed := perturbed[g := 1.0];
        }
        pos := pos + 1;
      }
    }
  }

  /** In one attempt every colour gene lands in [0, 1], whatever the chromosome and the draws. */
  lemma ColourGenesInUnit(elem: seq<real>, rs: seq<real>, k: nat)
    requires AttemptDraws <= |rs| && k < |elem| && k < NumOfParams && CoordGenes <= k % Chunk
    ensures 0.0 <= PerturbAttempt(elem, rs)[k] <= 1.0
  {
  }

  /**
   * Coordinate genes are not clamped: an all-zero chromosome, itself in
   * [0, 1], perturbed with all-zero draws has a first gene of -0.005.
   */
  lemma CoordGenesMayLeaveUnit()
    ensures var elem := seq(NumOfParams, k => 0.0);
      var rs := seq(AttemptDraws, k => 0.0);
      InUnit(elem) && PerturbAttempt(elem, rs)[0] == -0.005 && !InUnit(PerturbAttempt(elem, rs))
  {
    var elem := seq(NumOfParams, k => 0.0);
    var rs := seq(AttemptDraws, k => 0.0);
    var p := PerturbAttempt(elem, rs);
    assert p[0] == CoordShifted(elem, rs, 0);
  }

  // ---------------------------------------------------------------------------
  // perturbation: retry while tabu
  // ---------------------------------------------------------------------------

  /** The outcome of `perturbation`: a chromosome and the draws left after it, or a stream used up by retries. */
  datatype Attempt = Found(candidate: seq<real>, rest: seq<real>) | Exhausted

  /**
   * What `perturbation` returns: the first attempt, each on the next
   * AttemptDraws draws, whose result is not in the tabu list. Python retries
   * without bound; here the finite stream bounds the retries. Whatever is
   * found is not tabu and leaves a proper suffix of the stream.
   */
  function Perturb(elem: seq<real>, tabuList: seq<seq<real>>, exploration: bool, rs: seq<real>): (r: Attempt)
    ensures r.Found? ==> r.candidate !in tabuList
    ensures r.Found? ==> |r.candidate| == |elem| && |r.rest| + AttemptDraws <= |rs| && r.rest == rs[|rs| - |r.rest|..]
    decreases |rs|
  {
    if |rs| < AttemptDraws then Exhausted
    else
      var perturbed := PerturbAttempt(elem, rs);
      if perturbed in tabuList then Perturb(elem, tabuList, exploration, rs[AttemptDraws..])
      else Found(perturbed, rs[AttemptDraws..])
  }

  /** The `exploration` flag is only passed on to the retry: it never changes the outcome. */
  lemma {:induction false} ExplorationInert(elem: seq<real>, tabuList: seq<seq<real>>, rs: seq<real>)
    ensures Perturb(elem, tabuList, true, rs) == Perturb(elem, tabuList, false, rs)
    decreases |rs|
  {
    if AttemptDraws <= |rs| && PerturbAttempt(elem, rs) in tabuList {
      ExplorationInert(elem, tabuList, rs[AttemptDraws..]);
    }
  }

  /**
   * `perturbation`: perturb once; when the result is in the tabu list, call
   * itself again with the same arguments on fresh draws.
   */
  method Perturbation(elem: seq<real>, tabuList: seq<seq<real>>, exploration: bool, rs: seq<real>) returns (r: Attempt)
    requires NumOfParams <= |elem|
    ensures r == Perturb(elem, tabuList, exploration, rs)
    decreases |rs|
  {
    if |rs| < AttemptDraws {
      return Exhausted;
    }
    var perturbed := PerturbOnce(elem, rs);
    if perturbed in tabuList {
      r := Perturbation(elem, tabuList, exploration, rs[AttemptDraws..]);
    } else {
      r := Found(perturbed, rs[AttemptDraws..]);
    }
  }

  // ---------------------------------------------------------------------------
  // mutation
  // ---------------------------------------------------------------------------

  /** What `mutation` computes: gene k shifted by up to 0.002 with draw k and clamped. */
  function Mutated(elem: seq<real>, rs: seq<real>): (r: seq<real>)
    requires NumOfParams <= |rs|
    ensures |r| == |elem|
    ensures forall k :: 0 <= k < |r| && k < NumOfParams ==> 0.0 <= r[k] <= 1.0
  {
    seq(|elem|, k requires 0 <= k < |elem| =>
      if k < NumOfParams then Clamp01(elem[k] + Uniform(-0.002, 0.002, rs[k])) else elem[k])
  }

  /**
   * `mutation`: shift every gene by the next draw and clamp it in place.
   * The genes it covers land in [0, 1] whatever the input; for a chromosome
   * of NumOfParams genes that is all of it.
   */
  method Mutation(elem: seq<real>, rs: seq<real>) returns (mutated: seq<real>)
    requires NumOfParams <= |elem| && NumOfParams <= |rs|
    ensures mutated == Mutated(elem, rs)
    ensures forall k :: 0 <= k < NumOfParams ==> 0.0 <= mutated[k] <= 1.0
    ensures |elem| == NumOfParams ==> InUnit(mutated)
  {
    mutated := elem;
    for i := 0 to NumOfParams
      invariant |mutated| == |elem|
      invariant forall k :: 0 <= k < |elem| ==>
        mutated[k] == if k < i then Clamp01(elem[k] + Uniform(-0.002, 0.002, rs[k])) else elem[k]
    {
      mutated := mutated[i := mutated[i] + Uniform(-0.002, 0.002, rs[i])];
      if mutated[i] < 0.0 {
        mutated := mutated[i := 0.0];
      } else if mutated[i] > 1.0 {
        mutated := mutated[i := 1.0];
      }
    }
  }

  // ---------------------------------------------------------------------------
  // The tabu list
  // ---------------------------------------------------------------------------

  /**
   * Append the candidate and, when the list is then longer than
   * TabuListLength, drop the oldest entry.
   */
  function TabuPush<T>(tabuList: seq<T>, candidate: T): (r: seq<T>)
    ensures |tabuList| <= TabuListLength ==> |r| <= TabuListLength
    ensures 0 < |r| && r[|r| - 1] == candidate
    ensures |tabuList| < TabuListLength ==> r == tabuList + [candidate]
    ensures |tabuList| == TabuListLength ==> r == tabuList[1..] + [candidate]
  {
    var appended := tabuList + [candidate];
    if |appended| > TabuListLength then appended[1..] else appended
  }

  /** The last TabuListLength entries of a history, or all of it when shorter. */
  function Window<T>(history: seq<T>): (r: seq<T>)
    ensures |r| <= TabuListLength
  {
    if |history| <= TabuListLength then history else history[|history| - TabuListLength..]
  }

  /** Pushing candidates one by one, as the iterations do. */
  function TabuPushAll<T>(tabuList: seq<T>, candidates: seq<T>): seq<T>
    decreases |candidates|
  {
    if |candidates| == 0 then tabuList
    else TabuPushAll(TabuPush(tabuList, candidates[0]), candidates[1..])
  }

  lemma WindowAppend<T>(history: seq<T>, more: seq<T>)
    ensures Window(Window(history) + more) == Window(history + more)
  {
    if TabuListLength < |history| {
      var a := |history| - TabuListLength;
      var whole := history + more;
      assert Window(history) + more == whole[a..];
      if more != [] {
        assert Window(whole[a..]) == whole[a..][|more|..];
        assert whole[a..][|more|..] == whole[a + |more|..];
      }
    }
  }

  /**
   * Starting from a list within the bound, the tabu list is always the last
   * TabuListLength chromosomes pushed (FIFO eviction): the newest is last and
   * the oldest ones are the ones dropped.
   */
  lemma {:induction false} TabuPushAllWindow<T>(tabuList: seq<T>, candidates: seq<T>)
    requires |tabuList| <= TabuListLength
    ensures TabuPushAll(tabuList, candidates) == Window(tabuList + candidates)
    decreases |candidates|
  {
    if |candidates| > 0 {
      var first := candidates[0];
      var rest := candidates[1..];
      var pushed := TabuPush(tabuList, first);
      PushIsWindow(tabuList, first);
      TabuPushAllWindow(pushed, rest);
      WindowAppend(tabuList + [first], rest);
      SplitFirst(tabuList, candidates);
    }
  }

  /** Appending the first candidate and then the rest appends them all. */
  lemma SplitFirst<T>(prefix: seq<T>, candidates: seq<T>)
    requires 0 < |candidates|
    ensures prefix + [candidates[0]] + candidates[1..] == prefix + candidates
  {
    assert [candidates[0]] + candidates[1..] == candidates;
  }

  /** One push on a list within the bound keeps the last TabuListLength entries. */
  lemma PushIsWindow<T>(tabuList: seq<T>, candidate: T)
    requires |tabuList| <= TabuListLength
    ensures TabuPush(tabuList, candidate) == Window(tabuList + [candidate])
  {
    var appended := tabuList + [candidate];
    if |tabuList| == TabuListLength {
      assert Window(appended) == appended[1..];
    }
  }

  // ---------------------------------------------------------------------------
  // tabu_search
  // ---------------------------------------------------------------------------

  /** The search state: best solution, its score, the stagnation counter and the tabu list. */
  datatype TabuState = TabuState(
    best: seq<real>,
    bestEvaluation: real,
    noImprovement: nat,
    tabuList: seq<seq<real>>)

  /** One iteration: the perturbed chromosome, the mutated candidate, its score and the new state. */
  datatype Step =
    | Stepped(next: TabuState, perturbed: seq<real>, candidate: seq<real>, candidateEvaluation: real, rest: seq<real>)
    | StepExhausted

  /**
   * The flag passed to `perturbation`: more than StagnationLimit non-improving
   * iterations in a row. It is never set while the counter is reset.
   */
  function Exploration(s: TabuState): (r: bool)
    ensures r ==> 0 < s.noImprovement
  {
    s.noImprovement > StagnationLimit
  }

  /**
   * One iteration of `tabu_search`. The candidate comes from a perturbed
   * chromosome that was not tabu, is mutated into [0, 1], and is pushed on the
   * tabu list whether or not it is accepted. It becomes the best solution iff
   * its score is not larger, resetting the stagnation counter; otherwise the
   * counter grows by one. The best score never increases.
   */
  function TabuStep(s: TabuState, fitness: seq<real> -> real, rs: seq<real>): (r: Step)
    requires |s.best| == NumOfParams
    ensures r.Stepped? ==>
      && r.perturbed !in s.tabuList
      && |r.candidate| == NumOfParams && InUnit(r.candidate)
      && r.candidateEvaluation == fitness(r.candidate)
      && r.next.tabuList == TabuPush(s.tabuList, r.candidate)
      && |r.next.best| == NumOfParams
      && r.next.bestEvaluation <= s.bestEvaluation
      && (r.candidateEvaluation <= s.bestEvaluation ==>
            r.next.best == r.candidate && r.next.bestEvaluation == r.candidateEvaluation && r.next.noImprovement == 0)
      && (s.bestEvaluation < r.candidateEvaluation ==>
            r.next.best == s.best && r.next.bestEvaluation == s.bestEvaluation
            && r.next.noImprovement == s.noImprovement + 1)
      && |r.rest| < |rs|
  {
    match Perturb(s.best, s.tabuList, Exploration(s), rs)
    case Exhausted => StepExhausted
    case Found(p, rest) =>
      if |rest| < NumOfParams then StepExhausted
      else
        var candidate := Mutated(p, rest);
        var e := fitness(candidate);
        var tabuList := TabuPush(s.tabuList, candidate);
        var next :=
          if e <= s.bestEvaluation then TabuState(candidate, e, 0, tabuList)
          else TabuState(s.best, s.bestEvaluation, s.noImprovement + 1, tabuList);
        Stepped(next, p, candidate, e, rest[NumOfParams..])
  }

  /**
   * The search from state `s` for `iterations` more iterations, or None when
   * the draws run out. The best score never increases, the best solution keeps
   * its length, the recorded score stays the best solution's score, and the
   * tabu list stays within TabuListLength.
   */
  function TabuRun(s: TabuState, fitness: seq<real> -> real, iterations: nat, rs: seq<real>): (r: Option<TabuState>)
    requires |s.best| == NumOfParams
    ensures r.Some? ==> r.value.bestEvaluation <= s.bestEvaluation && |r.value.best| == NumOfParams
    ensures r.Some? && s.bestEvaluation == fitness(s.best) ==> r.value.bestEvaluation == fitness(r.value.best)
    ensures r.Some? && |s.tabuList| <= TabuListLength ==> |r.value.tabuList| <= TabuListLength
    decreases iterations
  {
    if iterations == 0 then Some(s)
    else
      match TabuStep(s, fitness, rs)
      case StepExhausted => None
      case Stepped(next, _, _, _, rest) => TabuRun(next, fitness, iterations - 1, rest)
  }

  /**
   * A search whose best solution and tabu entries lie in [0, 1] keeps them
   * there: every chromosome that is scored and stored was clamped by
   * mutation, though perturbation left its coordinates unclamped.
   */
  lemma {:induction false} TabuRunInUnit(s: TabuState, fitness: seq<real> -> real, iterations: nat, rs: seq<real>)
    requires |s.best| == NumOfParams
    requires InUnit(s.best) && TabuInUnit(s.tabuList)
    ensures var r := TabuRun(s, fitness, iterations, rs);
      r.Some? ==> InUnit(r.value.best) && TabuInUnit(r.value.tabuList)
    decreases iterations
  {
    if iterations > 0 {
      match TabuStep(s, fitness, rs)
      case StepExhausted =>
      case Stepped(next, _, _, _, rest) =>
        StepInUnit(s, fitness, rs);
        TabuRunInUnit(next, fitness, iterations - 1, rest);
    }
  }

  /** Every chromosome of the tabu list lies in [0, 1]. */
  predicate TabuInUnit(tabuList: seq<seq<real>>) {
    forall t :: t in tabuList ==> InUnit(t)
  }

  /** One iteration keeps the best solution and the tabu entries in [0, 1]. */
  lemma StepInUnit(s: TabuState, fitness: seq<real> -> real, rs: seq<real>)
    requires |s.best| == NumOfParams
    ensures var step := TabuStep(s, fitness, rs);
      step.Stepped? && InUnit(s.best) && TabuInUnit(s.tabuList) ==>
        InUnit(step.next.best) && TabuInUnit(step.next.tabuList)
  {
    var step := TabuStep(s, fitness, rs);
    if step.Stepped? && TabuInUnit(s.tabuList) {
      PushInUnit(s.tabuList, step.candidate);
    }
  }

  /** Pushing a chromosome in [0, 1] on a tabu list in [0, 1] keeps every entry in [0, 1]. */
  lemma PushInUnit(tabuList: seq<seq<real>>, candidate: seq<real>)
    requires TabuInUnit(tabuList) && InUnit(candidate)
    ensures TabuInUnit(TabuPush(tabuList, candidate))
  {
    var pushed := tabuList + [candidate];
    forall t | t in TabuPush(tabuList, candidate) ensures InUnit(t) {
      assert t in pushed;
    }
  }

  /**
   * How one iteration moves the exploration flag: an accepted candidate
   * clears it, and a rejected one sets it exactly when the counter passes
   * StagnationLimit.
   */
  lemma ExplorationAfterStep(s: TabuState, fitness: seq<real> -> real, rs: seq<real>)
    requires |s.best| == NumOfParams
    ensures var step := TabuStep(s, fitness, rs);
      step.Stepped? ==>
        && (step.candidateEvaluation <= s.bestEvaluation ==> !Exploration(step.next))
        && (s.bestEvaluation < step.candidateEvaluation ==>
              (Exploration(step.next) <==> StagnationLimit <= s.noImprovement))
  {
  }

  /** The state `tabu_search` starts from: the drawn start point and an empty tabu list. */
  function StartState(fitness: seq<real> -> real, rs: seq<real>): (s: TabuState)
    requires NumOfParams <= |rs|
    ensures |s.best| == NumOfParams && s.bestEvaluation == fitness(s.best)
    ensures UnitDraws(rs) ==> InUnit(s.best)
  {
    var start := RandomFloat(NumOfParams, BoundsLow, BoundsHigh, rs);
    TabuState(start, fitness(start), 0, [])
  }

  /** One more iteration of the search is one TabuStep followed by the rest of the search. */
  lemma TabuRunUnfold(s: TabuState, fitness: seq<real> -> real, iterations: nat, rs: seq<real>)
    requires |s.best| == NumOfParams && 0 < iterations
    ensures var step := TabuStep(s, fitness, rs);
      step.StepExhausted? ==> TabuRun(s, fitness, iterations, rs) == None
    ensures var step := TabuStep(s, fitness, rs);
      step.Stepped? ==> TabuRun(s, fitness, iterations, rs) == TabuRun(step.next, fitness, iterations - 1, step.rest)
  {
  }

  /**
   * The search from the start point ends, when the draws suffice, with a
   * solution scoring no worse than the start point, in [0, 1] when the draws
   * are unit variates, and the start point itself after zero iterations.
   */
  lemma TabuOutcome(fitness: seq<real> -> real, iterations: nat, rs: seq<real>)
    requires NumOfParams <= |rs|
    ensures var start := StartState(fitness, rs);
      var outcome := TabuRun(start, fitness, iterations, rs[NumOfParams..]);
      && (outcome.Some? ==> fitness(outcome.value.best) <= fitness(start.best))
      && (outcome.Some? && UnitDraws(rs) ==> InUnit(outcome.value.best))
      && (iterations == 0 ==> outcome == Some(start))
  {
    if UnitDraws(rs) {
      TabuRunInUnit(StartState(fitness, rs), fitness, iterations, rs[NumOfParams..]);
    }
  }

  /** TabuStep from the attempt of `perturbation` and the mutated candidate, piece by piece. */
  lemma StepParts(s: TabuState, fitness: seq<real> -> real, rs: seq<real>, attempt: Attempt)
    requires |s.best| == NumOfParams
    requires attempt == Perturb(s.best, s.tabuList, Exploration(s), rs)
    ensures attempt.Exhausted? || |attempt.rest| < NumOfParams ==> TabuStep(s, fitness, rs) == StepExhausted
    ensures attempt.Found? && NumOfParams <= |attempt.rest| ==>
      var candidate := Mutated(attempt.candidate, attempt.rest);
      var e := fitness(candidate);
      var step := TabuStep(s, fitness, rs);
      && step.Stepped?
      && step.rest == attempt.rest[NumOfParams..]
      && step.next.tabuList == TabuPush(s.tabuList, candidate)
      && (e <= s.bestEvaluation ==> step.next.best == candidate && step.next.bestEvaluation == e && step.next.noImprovement == 0)
      && (s.bestEvaluation < e ==>
            step.next.best == s.best && step.next.bestEvaluation == s.bestEvaluation
            && step.next.noImprovement == s.noImprovement + 1)
  {
  }

  /**
   * `tabu_search`: from a drawn start point, repeat perturbation (with the
   * exploration flag), mutation, scoring, the tabu-list update and the
   * acceptance rule. The result is the best solution of the search, None when
   * the draws run out; it scores no worse than the start
   * point, is the start point after zero iterations, and lies in [0, 1].
   */
  method TabuSearch(iterations: nat, fitness: seq<real> -> real, rs: seq<real>) returns (result: Option<seq<real>>)
    requires NumOfParams <= |rs|
    ensures var outcome := TabuRun(StartState(fitness, rs), fitness, iterations, rs[NumOfParams..]);
      result == if outcome.Some? then Some(outcome.value.best) else None
    ensures result.Some? ==> fitness(result.value) <= fitness(StartState(fitness, rs).best)
    ensures iterations == 0 ==> result == Some(StartState(fitness, rs).best)
    ensures result.Some? && UnitDraws(rs) ==> InUnit(result.value)
  {
    var startPt := RandomFloat(NumOfParams, BoundsLow, BoundsHigh, rs);
    var bestSolution := startPt;
    var bestEvaluation := fitness(startPt);
    var tabuList: seq<seq<real>> := [];
    var consecutiveNoImprovement: nat := 0;
    var stream := rs[NumOfParams..];
    ghost var state := TabuState(bestSolution, bestEvaluation, consecutiveNoImprovement, tabuList);
    ghost var outcome := TabuRun(state, fitness, iterations, stream);
    ghost var remaining: nat := iterations;
    for i := 0 to iterations
      invariant remaining == iterations - i
      invariant state == TabuState(bestSolution, bestEvaluation, consecutiveNoImprovement, tabuList)
      invariant |state.best| == NumOfParams
      invariant outcome == TabuRun(state, fitness, remaining, stream)
    {
      TabuRunUnfold(state, fitness, remaining, stream);
      var attempt := Perturbation(bestSolution, tabuList, consecutiveNoImprovement > StagnationLimit, stream);
      StepParts(state, fitness, stream, attempt);
      ghost var step := TabuStep(state, fitness, stream);
      if attempt.Exhausted? {
        return None;
      }
      stream := attempt.rest;
      if |stream| < NumOfParams {
        return None;
      }
      var candidate := Mutation(attempt.candidate, stream);
      stream := stream[NumOfParams..];
      var candidateEval := fitness(candidate);
      tabuList := tabuList + [candidate];
      if |tabuList| > TabuListLength {
        tabuList := tabuList[1..];
      }
      if candidateEval <= bestEvaluation {
        bestSolution := candidate;
        bestEvaluation := candidateEval;
        consecutiveNoImprovement := 0;
      } else {
        consecutiveNoImprovement := consecutiveNoImprovement + 1;
      }
      state := step.next;
      remaining := remaining - 1;
    }
    assert StartState(fitness, rs) == TabuState(startPt, fitness(startPt), 0, []);
    TabuOutcome(fitness, iterations, rs);
    result := Some(bestSolution);
  }
}
