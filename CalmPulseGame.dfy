/**
 * The breathing game: five cycles of inhale (3 s), hold (1 s) and exhale
 * (4 s). While the Space key is held the score rises by 2 per tick during
 * inhale and falls by 1 (never below zero) during exhale. The phase timers
 * and the 100 ms score interval are discrete events here.
 */
module CalmPulseGame {

  const CycleDuration: nat := 8000
  const InhaleDuration: nat := 3000
  const HoldDuration: nat := 1000
  const ExhaleDuration: nat := 4000
  const TotalCycles: nat := 5

  datatype GameState = Idle | Playing | Results
  datatype Phase = Inhale | Hold | Exhale

  /** A keyboard event: its `code` and whether it is an auto-repeat. */
  datatype KeyEvent = KeyEvent(code: string, repeat: bool)

  /** The three phases fill a cycle exactly. */
  lemma PhasesFillCycle()
    ensures InhaleDuration + HoldDuration + ExhaleDuration == CycleDuration
  {
  }

  /**
   * One tick of the score interval: the score rises exactly when the key is
   * held during inhale, by 2; it falls exactly when the key is held during
   * exhale and the score is positive, by 1; otherwise it stays.
   */
  function TickScore(score: nat, holding: bool, phase: Phase): (r: nat)
    ensures r > score <==> holding && phase == Inhale
    ensures r < score <==> holding && phase == Exhale && score > 0
    ensures score - 1 <= r <= score + 2
    ensures r > score ==> r == score + 2
  {
    if holding && phase == Inhale then score + 2
    else if holding && phase == Exhale then (if score - 1 > 0 then score - 1 else 0)
    else score
  }

  /** `Math.round` on a non-negative real: halves round up. */
  function Round(x: real): int
    requires x >= 0.0
  {
    (x + 0.5).Floor
  }

  /** The percentage on the results screen, `min(100, round(score / 300 * 100))`, in integers. */
  function FinalScore(score: nat): (r: nat)
    ensures r <= 100
  {
    var rounded := (2 * score + 3) / 6;
    if rounded < 100 then rounded else 100
  }

  /** The integer formula is the source's real-valued one: a third of the score, rounded half up, capped at 100. */
  lemma FinalScoreIsRoundedPercentage(score: nat)
    ensures FinalScore(score) == (var p := Round(score as real / 300.0 * 100.0); if p < 100 then p else 100)
  {
    var x := score as real / 300.0 * 100.0;
    assert x == score as real / 3.0;
    var n := (2 * score + 3) / 6;
    assert n * 6 <= 2 * score + 3 < n * 6 + 6;
    assert n as real <= x + 0.5 < n as real + 1.0 by {
      assert x + 0.5 == (2 * score + 3) as real / 6.0;
    }
    assert Round(x) == n;
  }

  /** The praise message shows for a final score above 75, which takes a raw score of at least 227. */
  lemma PraiseThreshold(score: nat)
    ensures FinalScore(score) > 75 <==> score >= 227
  {
  }

  class CalmPulse {
    var gameState: GameState
    var cycle: nat
    var phase: Phase
    var score: nat
    var isHolding: bool

    /** A game in play has cycles left; a finished game has run all of them. */
    ghost predicate Valid()
      reads this
    {
      && cycle <= TotalCycles
      && (gameState == Playing ==> cycle < TotalCycles)
      && (gameState == Results ==> cycle == TotalCycles)
    }

    constructor ()
      ensures Valid()
      ensures gameState == Idle && cycle == 0 && phase == Inhale && score == 0 && !isHolding
    {
      gameState := Idle;
      cycle := 0;
      phase := Inhale;
      score := 0;
      isHolding := false;
    }

    /** The cycle effect, run when the state or the cycle changes: a new cycle starts with inhale, or the game ends after the fifth. */
    method CycleEffect()
      requires cycle <= TotalCycles
      requires gameState == Results ==> cycle == TotalCycles
      modifies this
      ensures Valid()
      ensures old(gameState) == Playing && cycle < TotalCycles ==> phase == Inhale && gameState == Playing
      ensures old(gameState) == Playing && cycle == TotalCycles ==> phase == old(phase) && gameState == Results
      ensures old(gameState) != Playing ==> phase == old(phase) && gameState == old(gameState)
      ensures cycle == old(cycle) && score == old(score) && isHolding == old(isHolding)
    {
      if gameState != Playing {
        return;
      }
      if cycle < TotalCycles {
        phase := Inhale;
      } else {
        gameState := Results;
      }
    }

    /**
     * The next phase timer of the running cycle: inhale gives way to hold,
     * hold to exhale, and the end of exhale counts the cycle, after which the
     * cycle effect starts the next one or ends the game. The timers run only
     * during a game.
     */
    method AdvancePhase()
      requires Valid() && gameState == Playing
      modifies this
      ensures Valid()
      ensures old(phase) == Inhale ==> phase == Hold && cycle == old(cycle) && gameState == Playing
      ensures old(phase) == Hold ==> phase == Exhale && cycle == old(cycle) && gameState == Playing
      ensures old(phase) == Exhale ==> (
        && cycle == old(cycle) + 1
        && (cycle < TotalCycles ==> phase == Inhale && gameState == Playing)
        && (cycle == TotalCycles ==> gameState == Results))
      ensures score == old(score) && isHolding == old(isHolding)
    {
      match phase
      case Inhale => phase := Hold;
      case Hold => phase := Exhale;
      case Exhale =>
        cycle := cycle + 1;
        CycleEffect();
    }

    /** One tick of the score interval, which runs only during a game. */
    method ScoreTick()
      modifies this
      ensures score == (if gameState == Playing then TickScore(old(score), isHolding, phase) else old(score))
      ensures gameState == old(gameState) && cycle == old(cycle) && phase == old(phase) && isHolding == old(isHolding)
    {
      if gameState == Playing {
        score := TickScore(score, isHolding, phase);
      }
    }

    /** A key press, listened to only during a game: a fresh (not repeated) Space press starts holding. */
    method KeyDown(e: KeyEvent)
      modifies this
      ensures isHolding == (if gameState == Playing && e.code == "Space" && !e.repeat then true else old(isHolding))
      ensures gameState == old(gameState) && cycle == old(cycle) && phase == old(phase) && score == old(score)
    {
      if gameState == Playing && e.code == "Space" && !e.repeat {
        isHolding := true;
      }
    }

    /** A key release, listened to only during a game: releasing Space stops holding. */
    method KeyUp(e: KeyEvent)
      modifies this
      ensures isHolding == (if gameState == Playing && e.code == "Space" then false else old(isHolding))
      ensures gameState == old(gameState) && cycle == old(cycle) && phase == old(phase) && score == old(score)
    {
      if gameState == Playing && e.code == "Space" {
        isHolding := false;
      }
    }

    /** `startGame`: a fresh game from cycle 0 with no score; the cycle effect starts the first inhale. The holding flag is left as it was. */
    method StartGame()
      modifies this
      ensures Valid()
      ensures gameState == Playing && cycle == 0 && score == 0 && phase == Inhale
      ensures isHolding == old(isHolding)
    {
      gameState := Playing;
      cycle := 0;
      score := 0;
      CycleEffect();
    }

    /** `resetGame`: back to the start screen with cycle and score zeroed. */
    method ResetGame()
      modifies this
      ensures Valid()
      ensures gameState == Idle && cycle == 0 && score == 0
      ensures phase == old(phase) && isHolding == old(isHolding)
    {
      gameState := Idle;
      cycle := 0;
      score := 0;
    }
  }

  /**
   * A whole session: after `StartGame`, fifteen phase timers (three per
   * cycle) take the game through all five cycles to the results.
   */
  method WholeSession() returns (state: GameState, cycles: nat, timers: nat)
    ensures state == Results && cycles == TotalCycles && timers == 3 * TotalCycles
  {
    var g := new CalmPulse();
    g.StartGame();
    timers := 0;
    while g.gameState == Playing
      invariant g.Valid()
      invariant g.gameState == Playing || g.gameState == Results
      invariant g.gameState == Playing ==> timers == 3 * g.cycle + (match g.phase case Inhale => 0 case Hold => 1 case Exhale => 2)
      invariant g.gameState == Results ==> timers == 3 * TotalCycles
      decreases 3 * TotalCycles - timers
    {
      g.AdvancePhase();
      timers := timers + 1;
    }
    state, cycles := g.gameState, g.cycle;
  }
}
