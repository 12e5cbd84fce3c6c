/**
 * Iterated Local Search over polygon chromosomes. The search perturbs the
 * current solution gene by gene and greedily keeps a candidate whose score is
 * not worse. The score function is any deterministic function of the
 * chromosome. The random generator is an explicit stream of unit variates.
 */
module Ils {
  import opened Genes

  const PolSize: nat := 3
  const PolCount: nat := 110
  /** Genes of a chromosome: two coordinates per vertex, three colours and alpha per polygon. */
  const NumOfParams: nat := PolCount * (PolSize * 2 + 4)
  const BoundsLow: real := 0.0
  const BoundsHigh: real := 1.0
  /** A gene is replaced when `randint(1, PickRange)` gives 1. */
  const PickRange: int := 128
  /** Each gene consumes two draws: the offset, then the randint. */
  const DrawsPerGene: nat := 2

  /**
   * One gene of `perturbation`: with its offset draw `uOffset` and its pick draw
   * `uPick`, the gene becomes clamp(gene + offset) when the pick is 1 and stays
   * as it is otherwise.
   */
  function PerturbGene(item: real, uOffset: real, uPick: real): real {
    var offset := item + Uniform(-0.1, 0.1, uOffset);
    if RandInt(1, PickRange, uPick) == 1 then Clamp01(offset) else item
  }

  /** What `perturbation` computes: gene k is decided by draws 2k and 2k+1 of the stream. */
  function Perturbed(element: seq<real>, rs: seq<real>): (r: seq<real>)
    requires DrawsPerGene * |element| <= |rs|
  {
    seq(|element|, k requires 0 <= k < |element| => PerturbGene(element[k], rs[2 * k], rs[2 * k + 1]))
  }

  /**
   * `perturbation`: walk the genes, appending to a new list either the clamped
   * shifted gene or the gene itself. The offset is drawn for every gene, used
   * or not, so gene k always consumes draws 2k and 2k+1.
   */
  method Perturbation(element: seq<real>, rs: seq<real>) returns (perturbed: seq<real>)
    requires DrawsPerGene * |element| <= |rs|
    ensures |perturbed| == |element|
    ensures perturbed == Perturbed(element, rs)
  {
    var temp: seq<real> := [];
    var pos := 0;
    while |temp| < |element|
      invariant |temp| <= |element| && pos == DrawsPerGene * |temp|
      invariant forall k :: 0 <= k < |temp| ==> temp[k] == PerturbGene(element[k], rs[2 * k], rs[2 * k + 1])
    {
      var item := element[|temp|];
      var offset := item + Uniform(-0.1, 0.1, rs[pos]);
      var randomValue := RandInt(1, PickRange, rs[pos + 1]);
      if randomValue == 1 {
        if offset < 0.0 {
          offset := 0.0;
        }
        if offset > 1.0 {
          offset := 1.0;
        }
        temp := temp + [offset];
      } else {
        temp := temp + [item];
      }
      pos := pos + DrawsPerGene;
    }
    perturbed := temp;
  }

  /** The pick draw hits, that is randint(1, 128) is 1, exactly when it is below 1/128. */
  lemma PickHits(u: real)
    requires 0.0 <= u < 1.0
    ensures RandInt(1, PickRange, u) == 1 <==> u < 1.0 / PickRange as real
  {
    var x := PickRange as real * u;
    if u < 1.0 / PickRange as real {
      assert x < 1.0;
    } else {
      assert 1.0 <= x;
    }
  }

  /**
   * A perturbed gene differs from the original only if its pick draw hit,
   * that is lies below 1/128, and then it is the clamped shifted gene.
   */
  lemma PerturbedGenes(element: seq<real>, rs: seq<real>)
    requires DrawsPerGene * |element| <= |rs| && UnitDraws(rs)
    ensures var p := Perturbed(element, rs);
      && |p| == |element|
      && forall k :: 0 <= k < |element| ==>
           if rs[2 * k + 1] < 1.0 / PickRange as real
           then p[k] == Clamp01(element[k] + Uniform(-0.1, 0.1, rs[2 * k]))
           else p[k] == element[k]
  {
    var p := Perturbed(element, rs);
    forall k | 0 <= k < |element|
      ensures if rs[2 * k + 1] < 1.0 / PickRange as real
              then p[k] == Clamp01(element[k] + Uniform(-0.1, 0.1, rs[2 * k]))
              else p[k] == element[k]
    {
      PickHits(rs[2 * k + 1]);
    }
  }

  /** Perturbing a chromosome in [0, 1] keeps it in [0, 1], whatever the draws. */
  lemma PerturbedInUnit(element: seq<real>, rs: seq<real>)
    requires DrawsPerGene * |element| <= |rs|
    ensures InUnit(element) ==> InUnit(Perturbed(element, rs))
  {
  }

  /** The search state: the current solution and its score. */
  datatype Search = Search(solution: seq<real>, evaluation: real)

  /** The acceptance rule: the candidate replaces the solution iff its score is not larger. */
  function Accept(s: Search, candidate: seq<real>, candidateEvaluation: real): (r: Search)
    ensures r.evaluation <= s.evaluation
    ensures candidateEvaluation <= s.evaluation ==> r == Search(candidate, candidateEvaluation)
    ensures s.evaluation < candidateEvaluation ==> r == s
  {
    if candidateEvaluation <= s.evaluation then Search(candidate, candidateEvaluation) else s
  }

  /** Draws consumed by one iteration: two per gene. */
  const DrawsPerIteration: nat := DrawsPerGene * NumOfParams

  /**
   * The search from state `s` for `iterations` more iterations, iteration j
   * perturbing with the j-th block of DrawsPerIteration draws. The score never
   * increases, the solution keeps its length, and the recorded score stays the
   * score of the solution.
   */
  function IlsFrom(s: Search, fitness: seq<real> -> real, iterations: nat, rs: seq<real>): (r: Search)
    requires |s.solution| == NumOfParams
    requires iterations * DrawsPerIteration <= |rs|
    ensures r.evaluation <= s.evaluation
    ensures |r.solution| == NumOfParams
    ensures s.evaluation == fitness(s.solution) ==> r.evaluation == fitness(r.solution)
    decreases iterations
  {
    if iterations == 0 then s
    else
      var candidate := Perturbed(s.solution, rs);
      IlsFrom(Accept(s, candidate, fitness(candidate)), fitness, iterations - 1, rs[DrawsPerIteration..])
  }

  /** A search that starts in [0, 1] stays in [0, 1]. */
  lemma {:induction false} IlsFromInUnit(s: Search, fitness: seq<real> -> real, iterations: nat, rs: seq<real>)
    requires |s.solution| == NumOfParams
    requires iterations * DrawsPerIteration <= |rs|
    requires InUnit(s.solution)
    ensures InUnit(IlsFrom(s, fitness, iterations, rs).solution)
    decreases iterations
  {
    if iterations > 0 {
      var candidate := Perturbed(s.solution, rs);
      PerturbedInUnit(s.solution, rs);
      IlsFromInUnit(Accept(s, candidate, fitness(candidate)), fitness, iterations - 1, rs[DrawsPerIteration..]);
    }
  }

  /**
   * Running i iterations and then j more is running i + j iterations; so the
   * score after more iterations is never larger than after fewer.
   */
  lemma {:induction false} IlsFromSplit(s: Search, fitness: seq<real> -> real, i: nat, j: nat, rs: seq<real>)
    requires |s.solution| == NumOfParams
    requires (i + j) * DrawsPerIteration <= |rs|
    ensures var mid := IlsFrom(s, fitness, i, rs);
      && IlsFrom(s, fitness, i + j, rs) == IlsFrom(mid, fitness, j, rs[i * DrawsPerIteration..])
      && IlsFrom(s, fitness, i + j, rs).evaluation <= mid.evaluation
    decreases i
  {
    if i > 0 {
      var candidate := Perturbed(s.solution, rs);
      var next := Accept(s, candidate, fitness(candidate));
      var rest := rs[DrawsPerIteration..];
      IlsFromStep(s, fitness, i, i - 1, rs);
      IlsFromStep(s, fitness, i + j, i - 1 + j, rs);
      IlsFromSplit(next, fitness, i - 1, j, rest);
      SliceShift(rs, DrawsPerIteration, i);
    }
  }

  /** One iteration of IlsFrom, unfolded with the remaining count m = n - 1 given by name. */
  lemma IlsFromStep(s: Search, fitness: seq<real> -> real, n: nat, m: nat, rs: seq<real>)
    requires |s.solution| == NumOfParams
    requires n * DrawsPerIteration <= |rs| && n == m + 1
    ensures m * DrawsPerIteration <= |rs| - DrawsPerIteration
    ensures var candidate := Perturbed(s.solution, rs);
      IlsFrom(s, fitness, n, rs)
        == IlsFrom(Accept(s, candidate, fitness(candidate)), fitness, m, rs[DrawsPerIteration..])
  {
    assert n * DrawsPerIteration == m * DrawsPerIteration + DrawsPerIteration;
  }

  /** Dropping one block of d draws and then i - 1 more blocks drops i blocks. */
  lemma SliceShift(rs: seq<real>, d: nat, i: nat)
    requires 0 < i && i * d <= |rs|
    ensures d <= |rs| && (i - 1) * d <= |rs| - d
    ensures rs[d..][(i - 1) * d..] == rs[i * d..]
  {
    assert i * d == (i - 1) * d + d;
  }

  /**
   * `ils`: draw a start point, then for each iteration perturb the solution,
   * score the candidate and keep it when its score is not larger. The result
   * is the search from the start point, scores no worse than the start point,
   * is the start point itself after zero iterations, and lies in [0, 1].
   */
  method Ils(iterations: nat, fitness: seq<real> -> real, rs: seq<real>) returns (solution: seq<real>)
    requires NumOfParams + iterations * DrawsPerIteration <= |rs|
    ensures var start := RandomFloat(NumOfParams, BoundsLow, BoundsHigh, rs);
      && solution == IlsFrom(Search(start, fitness(start)), fitness, iterations, rs[NumOfParams..]).solution
      && fitness(solution) <= fitness(start)
      && (iterations == 0 ==> solution == start)
    ensures |solution| == NumOfParams
    ensures UnitDraws(rs) ==> InUnit(solution)
  {
    var startPoint := RandomFloat(NumOfParams, BoundsLow, BoundsHigh, rs);
    solution := startPoint;
    var solutionEvaluation := fitness(startPoint);
    var stream := rs[NumOfParams..];
    ghost var outcome := IlsFrom(Search(startPoint, solutionEvaluation), fitness, iterations, stream);
    assert UnitDraws(rs) ==> InUnit(startPoint);
    ghost var remaining: nat := iterations;
    for i := 0 to iterations
      invariant remaining == iterations - i
      invariant |solution| == NumOfParams
      invariant solutionEvaluation == fitness(solution)
      invariant remaining * DrawsPerIteration <= |stream|
      invariant stream == rs[NumOfParams + i * DrawsPerIteration..]
      invariant outcome == IlsFrom(Search(solution, solutionEvaluation), fitness, remaining, stream)
    {
      var candidate := Perturbation(solution, stream);
      var candidateEvaluation := fitness(candidate);
      if candidateEvaluation <= solutionEvaluation {
        solution, solutionEvaluation := candidate, candidateEvaluation;
      }
      stream := stream[DrawsPerIteration..];
      remaining := remaining - 1;
    }
    if UnitDraws(rs) {
      IlsFromInUnit(Search(startPoint, fitness(startPoint)), fitness, iterations, rs[NumOfParams..]);
    }
  }
}
