/**
 * The steady-state coevolution loop of evolve_fighter.py (`FighterEvolver`)
 * over two populations of fighter genomes. Only the bookkeeping is modelled:
 * the physics engine's final car positions, the shuffle, the child produced by
 * crossover and the slot chosen by weak-genome replacement are all inputs, and
 * the trueskill functions are the evolver's uninterpreted `rate` and `quality`.
 */
module FighterEvolution {
  import opened MatchSpec

  /**
   * A fighter genome's competitive record. Its body and wheels (the rest of
   * `FighterGenome`) are not part of this model.
   */
  class Fighter {
    var wins: nat
    var losses: nat
    var draws: nat
    var rating: Rating
    var lastResults: seq<real>
    var steps: int

    function Snapshot(): Record
      reads this
    {
      Record(wins, losses, draws, rating, lastResults, steps)
    }
  }

  /** The records of the genomes of `pop`, in population order. */
  function Records(pop: seq<Fighter>): (rs: seq<Record>)
    reads set g | g in pop
    ensures |rs| == |pop| && forall j :: 0 <= j < |pop| ==> rs[j] == pop[j].Snapshot()
  {
    seq(|pop|, j requires 0 <= j < |pop| reads set g | g in pop => pop[j].Snapshot())
  }

  /** The record of every genome of `pop`, looked up by genome. */
  ghost function RecordMap(pop: seq<Fighter>): (m: map<Fighter, Record>)
    reads set g | g in pop
    ensures m.Keys == set g | g in pop
    ensures forall g :: g in pop ==> m[g] == g.Snapshot()
  {
    map g | g in pop :: g.Snapshot()
  }

  ghost predicate Disjoint(a: seq<Fighter>, b: seq<Fighter>)
  {
    forall g :: g in a ==> g !in b
  }

  class FighterEvolver {
    /** Physics steps per match; the simulation itself is not modelled. */
    const evaluationSteps: nat
    /** trueskill's default `Rating()`. */
    const prior: Rating
    /** trueskill's `rate_1vs1`. */
    const rate: RateFn
    /** trueskill's `quality_1vs1`. */
    const quality: QualityFn

    var populationLeft: seq<Fighter>
    var populationRight: seq<Fighter>
    /** Number of children evolved so far. */
    var steps: nat

    ghost function Genomes(): set<Fighter>
      reads this
    {
      (set g | g in populationLeft) + (set g | g in populationRight)
    }

    /** Every genome object sits in exactly one slot of one population. */
    ghost predicate Valid()
      reads this
    {
      Distinct(populationLeft) && Distinct(populationRight) && Disjoint(populationLeft, populationRight)
    }

    /**
     * `FighterEvolver.__init__` over the two given populations: every genome
     * record is initialised with the step counter at 0.
     */
    constructor (evaluationSteps: nat, prior: Rating, rate: RateFn, quality: QualityFn,
                 left: seq<Fighter>, right: seq<Fighter>)
      requires Distinct(left) && Distinct(right) && Disjoint(left, right)
      modifies set g | g in left, set g | g in right
      ensures Valid()
      ensures populationLeft == left && populationRight == right && steps == 0
      ensures this.evaluationSteps == evaluationSteps && this.prior == prior
      ensures this.rate == rate && this.quality == quality
      ensures forall g :: g in left || g in right ==> g.Snapshot() == FreshRecord(prior, 0)
    {
      this.evaluationSteps := evaluationSteps;
      this.prior := prior;
      this.rate := rate;
      this.quality := quality;
      populationLeft := left;
      populationRight := right;
      steps := 0;
      new;
      for i := 0 to |left|
        invariant populationLeft == left && populationRight == right && steps == 0
        invariant forall j :: 0 <= j < i ==> left[j].Snapshot() == FreshRecord(prior, 0)
      {
        InitGenome(left[i]);
      }
      for i := 0 to |right|
        invariant populationLeft == left && populationRight == right && steps == 0
        invariant forall g :: g in left ==> g.Snapshot() == FreshRecord(prior, 0)
        invariant forall j :: 0 <= j < i ==> right[j].Snapshot() == FreshRecord(prior, 0)
      {
        InitGenome(right[i]);
      }
    }

    /** `_init_genome`: an empty window, the prior rating, the current step stamp and no games. */
    method InitGenome(g: Fighter)
      modifies g
      ensures g.Snapshot() == FreshRecord(prior, steps)
    {
      g.lastResults := [];
      g.rating := prior;
      g.steps := steps;
      g.wins := 0;
      g.losses := 0;
      g.draws := 0;
    }

    /**
     * The post-simulation part of `evaluate_matchup`: each genome pushes its
     * score into its window, the outcome is classified, one `rate_1vs1` call
     * updates both ratings and the counters are incremented.
     */
    method EvaluateMatchup(left: Fighter, right: Fighter, f: Finals)
      requires left != right
      modifies left, right
      ensures (left.Snapshot(), right.Snapshot()) == MatchRecords(rate, old(left.Snapshot()), old(right.Snapshot()), f)
    {
      var fitnessLeft := f.rightX;
      var fitnessRight := -f.leftX;
      left.lastResults := Recent(left.lastResults + [fitnessLeft]);
      right.lastResults := Recent(right.lastResults + [fitnessRight]);

      var leftWon := f.leftX > 0.0;
      var rightWon := f.rightX < 0.0;
      var draw := leftWon == rightWon;
      if draw {
        var rs := rate(left.rating, right.rating, true);
        left.rating, right.rating := rs.0, rs.1;
        left.draws := left.draws + 1;
        right.draws := right.draws + 1;
      } else if leftWon {
        var rs := rate(left.rating, right.rating, false);
        left.rating, right.rating := rs.0, rs.1;
        left.wins := left.wins + 1;
        right.losses := right.losses + 1;
      } else if rightWon {
        var rs := rate(right.rating, left.rating, false);
        right.rating, left.rating := rs.0, rs.1;
        left.losses := left.losses + 1;
        right.wins := right.wins + 1;
      }
    }

    /**
     * One iteration of the evaluation loop of `evolve_new_genome_left/right`:
     * the child plays the current fair opponent from `pop`, the other
     * population, seated on its own side. `opponent` is whom it played.
     */
    method PlayFairMatch(child: Fighter, side: Side, pop: seq<Fighter>, f: Finals) returns (opponent: Fighter)
      requires child !in pop && |pop| > 0 && Distinct(pop)
      modifies {child} + set g | g in pop
      ensures opponent == pop[FairOpponent(quality, old(child.rating), Ratings(old(Records(pop)))).value]
      ensures (child.Snapshot(), Records(pop)) == FairStep(rate, quality, side, old((child.Snapshot(), Records(pop))), f)
    {
      ghost var c, ps := child.Snapshot(), Records(pop);
      var k := FairOpponent(quality, child.rating, Ratings(Records(pop))).value;
      opponent := pop[k];
      if side == Left {
        EvaluateMatchup(child, opponent, f);
      } else {
        EvaluateMatchup(opponent, child, f);
      }
      ghost var next := Seated(rate, side, c, ps[k], f);
      assert child.Snapshot() == next.0 && opponent.Snapshot() == next.1;
      forall j | 0 <= j < |pop| && j != k
        ensures pop[j].Snapshot() == ps[j]
      {
        assert pop[j] != opponent;
      }
      assert Records(pop) == ps[k := next.1];
    }

    /**
     * The evaluation loop shared by `evolve_new_genome_left/right`: the child
     * plays one match against `pop` per entry of `finals`, each time against
     * its fair opponent of the moment.
     */
    method PlayFairMatches(child: Fighter, side: Side, pop: seq<Fighter>, numEvaluations: nat, finals: seq<Finals>)
      requires child !in pop && |pop| > 0 && Distinct(pop)
      requires |finals| == numEvaluations
      modifies {child} + set g | g in pop
      ensures (child.Snapshot(), Records(pop))
           == FairSeries(rate, quality, side, old(child.Snapshot()), old(Records(pop)), finals, numEvaluations)
    {
      ghost var c0, p0 := child.Snapshot(), Records(pop);
      for i := 0 to numEvaluations
        invariant (child.Snapshot(), Records(pop)) == FairSeries(rate, quality, side, c0, p0, finals, i)
      {
        var _ := PlayFairMatch(child, side, pop, finals[i]);
      }
    }

    /**
     * The evaluation part of `evolve_new_genome_left/right` for a child whose
     * record has just been initialised: its `numEvaluations` fair matches
     * against `pop`, seated on `side`, and what they add up to.
     */
    method EvaluateChild(child: Fighter, side: Side, pop: seq<Fighter>, numEvaluations: nat, finals: seq<Finals>,
                         ghost stamp: int, ghost opponents: seq<Record>)
      requires child !in pop && |pop| > 0 && Distinct(pop)
      requires |finals| == numEvaluations
      requires child.Snapshot() == FreshRecord(prior, stamp) && Records(pop) == opponents
      modifies {child} + set g | g in pop
      ensures (child.Snapshot(), Records(pop))
           == FairSeries(rate, quality, side, FreshRecord(prior, stamp), opponents, finals, numEvaluations)
      ensures child.wins == CountOutcome(finals, WinFor(side))
      ensures child.losses == CountOutcome(finals, WinFor(Other(side)))
      ensures child.draws == CountOutcome(finals, Draw)
      ensures child.Snapshot().Played() == numEvaluations
      ensures child.lastResults == Recent(Scores(finals, side))
      ensures child.steps == stamp
      ensures Total(Records(pop), Won) == Total(opponents, Won) + child.losses
      ensures Total(Records(pop), Lost) == Total(opponents, Lost) + child.wins
      ensures Total(Records(pop), Drew) == Total(opponents, Drew) + child.draws
      ensures forall j :: 0 <= j < |pop| ==> pop[j].steps == opponents[j].steps
    {
      PlayFairMatches(child, side, pop, numEvaluations, finals);
      FreshChildEvaluation(rate, quality, side, prior, stamp, opponents, finals);
    }

    /**
     * `evolve_new_genome_left`: the crossover child (given) gets a fresh
     * record, replaces the weak genome in `slot` of the left population, plays
     * `numEvaluations` matches as the left car against its fair right
     * opponents, and the step counter advances.  The counter is advanced
     * before the matches here but every match is stamped with its old value,
     * so the result is the same as advancing it after the loop.
     */
    method EvolveNewGenomeLeft(child: Fighter, slot: nat, numEvaluations: nat, finals: seq<Finals>)
      requires Valid()
      requires child !in populationLeft && child !in populationRight
      requires slot < |populationLeft| && |populationRight| > 0
      requires |finals| == numEvaluations
      modifies this, Genomes(), child
      ensures Valid()
      ensures steps == old(steps) + 1
      ensures populationLeft == old(populationLeft)[slot := child]
      ensures populationRight == old(populationRight)
      ensures (child.Snapshot(), Records(populationRight))
           == FairSeries(rate, quality, Left, FreshRecord(prior, old(steps)), old(Records(populationRight)), finals, numEvaluations)
      ensures child.wins == CountOutcome(finals, LeftWon)
      ensures child.losses == CountOutcome(finals, RightWon)
      ensures child.draws == CountOutcome(finals, Draw)
      ensures child.Snapshot().Played() == numEvaluations
      ensures child.lastResults == Recent(Scores(finals, Left))
      ensures child.steps == old(steps)
      ensures Total(Records(populationRight), Won) == old(Total(Records(populationRight), Won)) + child.losses
      ensures Total(Records(populationRight), Lost) == old(Total(Records(populationRight), Lost)) + child.wins
      ensures Total(Records(populationRight), Drew) == old(Total(Records(populationRight), Drew)) + child.draws
      ensures forall j :: 0 <= j < |populationRight| ==> populationRight[j].steps == old(populationRight[j].steps)
      ensures forall g :: g in old(populationLeft) && g != child ==> g.Snapshot() == old(g.Snapshot())
    {
      ghost var opponents := Records(populationRight);
      InitGenome(child);
      assert Records(populationRight) == opponents;
      DistinctReplace(populationLeft, slot, child);
      populationLeft := populationLeft[slot := child];
      assert Valid();
      steps := steps + 1;
      EvaluateChild(child, Left, populationRight, numEvaluations, finals, old(steps), opponents);
    }

    /**
     * `evolve_new_genome_right`: as on the left, with the child seated as the
     * right car (second argument of every match) against its fair left
     * opponents.
     */
    method EvolveNewGenomeRight(child: Fighter, slot: nat, numEvaluations: nat, finals: seq<Finals>)
      requires Valid()
      requires child !in populationLeft && child !in populationRight
      requires slot < |populationRight| && |populationLeft| > 0
      requires |finals| == numEvaluations
      modifies this, Genomes(), child
      ensures Valid()
      ensures steps == old(steps) + 1
      ensures populationRight == old(populationRight)[slot := child]
      ensures populationLeft == old(populationLeft)
      ensures (child.Snapshot(), Records(populationLeft))
           == FairSeries(rate, quality, Right, FreshRecord(prior, old(steps)), old(Records(populationLeft)), finals, numEvaluations)
      ensures child.wins == CountOutcome(finals, RightWon)
      ensures child.losses == CountOutcome(finals, LeftWon)
      ensures child.draws == CountOutcome(finals, Draw)
      ensures child.Snapshot().Played() == numEvaluations
      ensures child.lastResults == Recent(Scores(finals, Right))
      ensures child.steps == old(steps)
      ensures Total(Records(populationLeft), Won) == old(Total(Records(populationLeft), Won)) + child.losses
      ensures Total(Records(populationLeft), Lost) == old(Total(Records(populationLeft), Lost)) + child.wins
      ensures Total(Records(populationLeft), Drew) == old(Total(Records(populationLeft), Drew)) + child.draws
      ensures forall j :: 0 <= j < |populationLeft| ==> populationLeft[j].steps == old(populationLeft[j].steps)
      ensures forall g :: g in old(populationRight) && g != child ==> g.Snapshot() == old(g.Snapshot())
    {
      ghost var opponents := Records(populationLeft);
      InitGenome(child);
      assert Records(populationLeft) == opponents;
      DistinctReplace(populationRight, slot, child);
      populationRight := populationRight[slot := child];
      assert Valid();
      steps := steps + 1;
      EvaluateChild(child, Right, populationLeft, numEvaluations, finals, old(steps), opponents);
    }

    /** One match of the inner loop, seen from the right population's record map. */
    method PlayMatchup(genome: Fighter, pop: seq<Fighter>, opponent: Fighter, f: Finals)
      requires genome !in pop && opponent in pop
      modifies genome, opponent
      ensures (genome.Snapshot(), opponent.Snapshot())
           == MatchRecords(rate, old(genome.Snapshot()), old(opponent.Snapshot()), f)
      ensures RecordMap(pop) == old(RecordMap(pop))[opponent := opponent.Snapshot()]
    {
      EvaluateMatchup(genome, opponent, f);
      forall g | g in pop && g != opponent
        ensures g.Snapshot() == old(g.Snapshot())
      {
      }
    }

    /**
     * The inner loop of `evaluate_all_vs_n`: `genome` plays, as the left car,
     * every opponent of `matchups` in order; `pop` is the right population
     * the opponents come from.
     */
    method PlayMatchups(genome: Fighter, pop: seq<Fighter>, matchups: seq<Fighter>, finals: seq<Finals>)
      requires genome !in pop && forall g :: g in matchups ==> g in pop
      requires |finals| == |matchups|
      modifies {genome} + set g | g in pop
      ensures (genome.Snapshot(), RecordMap(pop))
           == Series(rate, old(genome.Snapshot()), old(RecordMap(pop)), matchups, finals, |finals|)
    {
      ghost var g0, m0 := genome.Snapshot(), RecordMap(pop);
      ghost var played := (g0, m0);
      for j := 0 to |matchups|
        invariant played == Series(rate, g0, m0, matchups, finals, j)
        invariant (genome.Snapshot(), RecordMap(pop)) == played
      {
        PlayMatchup(genome, pop, matchups[j], finals[j]);
        played := SeriesMatch(rate, played, matchups[j], finals[j]);
      }
    }

    /**
     * One pass of the outer loop of `evaluate_all_vs_n`: left genome `i` plays
     * its slice of the shuffled, repeated right population; no other left
     * genome changes.
     */
    method PlayLeftGenome(n: nat, shuffled: seq<Fighter>, i: nat, finals: seq<Finals>)
      requires Valid()
      requires multiset(shuffled) == multiset(Repeat(populationRight, n))
      requires i < |populationLeft|
      requires |finals| == |Matchups(shuffled, n, i)|
      modifies Genomes()
      ensures (MatchupsFrom(populationRight, n, shuffled, i);
               var s := Series(rate, old(populationLeft[i].Snapshot()), old(RecordMap(populationRight)),
                               Matchups(shuffled, n, i), finals, |finals|);
               Records(populationLeft) == old(Records(populationLeft))[i := s.0]
               && RecordMap(populationRight) == s.1)
    {
      ghost var left, right := populationLeft, populationRight;
      ghost var ls := Records(left);
      var genome := populationLeft[i];
      var matchups := Matchups(shuffled, n, i);
      MatchupsFrom(right, n, shuffled, i);
      assert genome !in right by {
        assert Disjoint(left, right);
      }
      PlayMatchups(genome, populationRight, matchups, finals);
      forall j | 0 <= j < |left| && j != i
        ensures left[j].Snapshot() == ls[j]
      {
        assert Distinct(left) && Disjoint(left, right);
        assert left[j] != genome && left[j] !in right;
      }
    }

    /**
     * The outer loop of `evaluate_all_vs_n`: every left genome `i`, in order,
     * plays its slice of `shuffled`, with the final positions `finals[i]`.
     */
    method PlayAllLeftGenomes(n: nat, shuffled: seq<Fighter>, finals: seq<seq<Finals>>)
      requires Valid()
      requires multiset(shuffled) == multiset(Repeat(populationRight, n))
      requires |finals| == |populationLeft|
      requires forall i :: 0 <= i < |finals| ==> |finals[i]| == |Matchups(shuffled, n, i)|
      modifies Genomes()
      ensures (ShuffledFrom(populationRight, n, shuffled);
               (Records(populationLeft), RecordMap(populationRight))
               == AllVsN(rate, old(Records(populationLeft)), old(RecordMap(populationRight)), shuffled, n, finals,
                         |populationLeft|))
    {
      ghost var ls, rs := Records(populationLeft), RecordMap(populationRight);
      ShuffledFrom(populationRight, n, shuffled);
      for i := 0 to |populationLeft|
        invariant (Records(populationLeft), RecordMap(populationRight))
               == AllVsN(rate, ls, rs, shuffled, n, finals, i)
      {
        PlayLeftGenome(n, shuffled, i, finals[i]);
      }
    }

    /**
     * `evaluate_all_vs_n`: the right population repeated `n` times and
     * shuffled (the given `shuffled`), and left genome `i` playing, as the left
     * car, the opponents in the slice `[i*n, i*n+n)` of that list. `finals[i]`
     * holds the final positions of left genome `i`'s matches, in order.
     */
    method EvaluateAllVsN(n: nat, shuffled: seq<Fighter>, finals: seq<seq<Finals>>)
      requires Valid()
      requires multiset(shuffled) == multiset(Repeat(populationRight, n))
      requires |finals| == |populationLeft|
      requires forall i :: 0 <= i < |finals| ==> |finals[i]| == |Matchups(shuffled, n, i)|
      modifies Genomes()
      ensures (ShuffledFrom(populationRight, n, shuffled);
               (Records(populationLeft), RecordMap(populationRight))
               == AllVsN(rate, old(Records(populationLeft)), old(RecordMap(populationRight)), shuffled, n, finals,
                         |populationLeft|))
      ensures AllVsNTallied(old(Records(populationLeft)), old(RecordMap(populationRight)),
                            (Records(populationLeft), RecordMap(populationRight)), shuffled, n, finals)
    {
      ghost var ls, rs := Records(populationLeft), RecordMap(populationRight);
      ShuffledFrom(populationRight, n, shuffled);
      PlayAllLeftGenomes(n, shuffled, finals);
      AllVsNOutcome(rate, ls, rs, shuffled, n, finals);
    }
  }
}
