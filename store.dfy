// The global score/phase store shared by every game: a record and its four
// actions. Each action merges an object literal into the old record, so any
// field the literal does not name keeps its old value.

module Store {

  datatype Phase = Idle | Playing | GameOver

  datatype GameState = GameState(
    score: real,
    highScore: real,
    gameOver: bool,
    gameStarted: bool,
    phase: Phase)

  /** The two boolean flags are redundant copies of the phase. */
  predicate FlagsAgree(s: GameState)
  {
    s.gameOver == (s.phase == GameOver) && s.gameStarted == (s.phase == Playing)
  }

  function Initial(): (s: GameState)
    ensures s.score == 0.0 && s.highScore == 0.0
    ensures s.phase == Idle && !s.gameOver && !s.gameStarted
    ensures FlagsAgree(s)
  {
    GameState(0.0, 0.0, false, false, Idle)
  }

  /** Applies from any phase: the store does not guard its transitions. */
  function StartGame(s: GameState): (r: GameState)
    ensures r.phase == Playing && r.score == 0.0
    ensures FlagsAgree(r)
    ensures r.highScore == s.highScore
  {
    s.(gameStarted := true, gameOver := false, score := 0.0, phase := Playing)
  }

  /** Applies from any phase; the high score becomes the larger of the two. */
  function EndGame(s: GameState): (r: GameState)
    ensures r.phase == GameOver && FlagsAgree(r)
    ensures r.score == s.score
    ensures r.highScore >= s.score && r.highScore >= s.highScore
    ensures r.highScore == s.score || r.highScore == s.highScore
  {
    s.(gameOver := true, gameStarted := false, phase := GameOver,
       highScore := if s.score >= s.highScore then s.score else s.highScore)
  }

  function AddScore(s: GameState, points: real): (r: GameState)
    ensures r.score - s.score == points
    ensures r.highScore == s.highScore && r.phase == s.phase
    ensures r.gameOver == s.gameOver && r.gameStarted == s.gameStarted
  {
    s.(score := s.score + points)
  }

  /** Back to idle with the score cleared; the high score survives. */
  function Reset(s: GameState): (r: GameState)
    ensures r.phase == Idle && r.score == 0.0 && FlagsAgree(r)
    ensures r.highScore == s.highScore
  {
    s.(score := 0.0, gameOver := false, gameStarted := false, phase := Idle)
  }

  /** Ending twice in a row is the same as ending once, so a frame that
    * reports several crashes leaves the same store as one crash. */
  lemma EndGameIdempotent(s: GameState)
    ensures EndGame(EndGame(s)) == EndGame(s)
  {
  }

  /** Consecutive point awards add up. */
  lemma AddScoreAdds(s: GameState, a: real, b: real)
    ensures AddScore(AddScore(s, a), b) == AddScore(s, a + b)
  {
  }

  // ----- sequences of actions -----

  datatype Action = Start | End | Add(points: real) | ResetAction

  function Apply(s: GameState, a: Action): (r: GameState)
    ensures r.highScore >= s.highScore
    ensures FlagsAgree(s) ==> FlagsAgree(r)
  {
    match a
    case Start => StartGame(s)
    case End => EndGame(s)
    case Add(p) => AddScore(s, p)
    case ResetAction => Reset(s)
  }

  function Run(s: GameState, acts: seq<Action>): GameState
    decreases |acts|
  {
    if acts == [] then s else Run(Apply(s, acts[0]), acts[1..])
  }

  /** Every action keeps gameOver and gameStarted in step with the phase. */
  lemma {:induction false} RunKeepsFlags(s: GameState, acts: seq<Action>)
    requires FlagsAgree(s)
    ensures FlagsAgree(Run(s, acts))
    decreases |acts|
  {
    if acts != [] {
      RunKeepsFlags(Apply(s, acts[0]), acts[1..]);
    }
  }

  /** The high score never decreases, whatever the actions. */
  lemma {:induction false} RunHighScoreMonotone(s: GameState, acts: seq<Action>)
    ensures Run(s, acts).highScore >= s.highScore
    decreases |acts|
  {
    if acts != [] {
      RunHighScoreMonotone(Apply(s, acts[0]), acts[1..]);
    }
  }

  /** The scores the store holds at each End action, in order. */
  function EndScores(s: GameState, acts: seq<Action>): seq<real>
    decreases |acts|
  {
    if acts == [] then []
    else (if acts[0] == End then [s.score] else []) + EndScores(Apply(s, acts[0]), acts[1..])
  }

  /** The largest of h and the values in xs. */
  function Best(h: real, xs: seq<real>): (r: real)
    ensures r >= h
    ensures forall i :: 0 <= i < |xs| ==> r >= xs[i]
    ensures r == h || exists i :: 0 <= i < |xs| && r == xs[i]
    decreases |xs|
  {
    if xs == [] then h
    else
      var m := if xs[0] >= h then xs[0] else h;
      var r := Best(m, xs[1..]);
      assert forall i :: 1 <= i < |xs| ==> xs[i] == xs[1..][i - 1];
      assert r == m || exists i :: 1 <= i < |xs| && r == xs[i];
      r
  }

  /** After any run, the high score is exactly the best of the starting high
    * score and every score the run ended a game with. */
  lemma {:induction false} RunHighScoreIsBestEnd(s: GameState, acts: seq<Action>)
    ensures Run(s, acts).highScore == Best(s.highScore, EndScores(s, acts))
    decreases |acts|
  {
    if acts != [] {
      var t := Apply(s, acts[0]);
      RunHighScoreIsBestEnd(t, acts[1..]);
      var rest := EndScores(t, acts[1..]);
      if acts[0] == End {
        assert EndScores(s, acts) == [s.score] + rest;
        assert ([s.score] + rest)[1..] == rest;
      } else {
        assert EndScores(s, acts) == rest;
        assert t.highScore == s.highScore;
        if rest != [] {
          assert Best(s.highScore, rest) == Best(t.highScore, rest);
        }
      }
    }
  }

  /** What every game does when it mounts: reset, then start. */
  function Mount(s: GameState): (r: GameState)
    ensures r.phase == Playing && r.score == 0.0 && FlagsAgree(r)
    ensures r.highScore == s.highScore
  {
    StartGame(Reset(s))
  }
}
